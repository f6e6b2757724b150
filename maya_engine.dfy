/** The `MayaEngine` object: start-up, and the synchronous job queue it drains while
    driving Maya's main progress bar. */
module MayaEngine {
  import opened Tank
  import opened Startup
  import opened JobQueue

  class Engine {
    /** The instance name and context the pipeline library started the engine with. */
    const instanceName: string
    const context: Context
    /** `_queue`: the items waiting to run, head first. */
    var queue: seq<QueueItem>
    /** `_current_progress`: the last percentage passed on to the progress bar. */
    var currentProgress: int
    /** The run-once scene callbacks this engine's start-up has added to Maya's list of script
        jobs; the whole list, across engines and handler runs, is `SceneEvents.Host.armed`. */
    var armed: seq<Callback>
    /** The calls made on the progress bar, on queued items and on the exception log. */
    var log: seq<QueueEvent>

    constructor (instanceName: string, context: Context)
      ensures this.instanceName == instanceName && this.context == context
      ensures queue == [] && currentProgress == 0 && armed == [] && log == []
    {
      this.instanceName := instanceName;
      this.context := context;
      queue := [];
      currentProgress := 0;
      armed := [];
      log := [];
    }

    /** `init_engine`: the start-up checks, in order, each raising a `TankError` on failure;
        then an empty queue and the "SceneOpened" and "SceneSaved" callbacks, which carry
        this engine's instance name and context. `os` and `version` are what
        `cmds.about` reports; `pathsFromEntity` is the pipeline's folder lookup. */
    method InitEngine(os: string, version: string, pathsFromEntity: Entity -> seq<string>)
      returns (r: Result<Entity, StartupError>)
      modifies this`queue, this`armed
      ensures r == Validate(os, version, context, pathsFromEntity)
      ensures r.Success? ==> queue == [] && armed == old(armed) + SceneCallbacks(instanceName, context)
      ensures r.Failure? ==> queue == old(queue) && armed == old(armed)
    {
      if os !in SupportedPlatforms {
        return Failure(UnsupportedPlatform);
      }
      if !(StartsWith(version, "2012") || StartsWith(version, "2013")) {
        return Failure(UnsupportedVersion);
      }
      var location: Entity;
      if context.entity.Some? {
        location := context.entity.value;
      } else if context.project.Some? {
        location := context.project.value;
      } else {
        return Failure(NoProject);
      }
      var locations := pathsFromEntity(location);
      if |locations| == 0 {
        return Failure(NoFolders);
      }
      queue := [];
      armed := armed + [Callback(SceneOpened, instanceName, context)];
      armed := armed + [Callback(SceneSaved, instanceName, context)];
      r := Success(location);
    }

    /** `add_to_queue`: one item at the tail, nothing else changes. */
    method AddToQueue(name: string, callable: Job, args: set<string>)
      modifies this`queue
      ensures queue == old(queue) + [QueueItem(name, callable, args)]
    {
      queue := queue + [QueueItem(name, callable, args)];
    }

    /** `report_progress`: step the bar by the difference to the last percentage, which
        may be negative, and remember the new one. */
    method ReportProgress(percent: int)
      modifies this`log, this`currentProgress
      ensures log == old(log) + Steps(old(currentProgress), [percent])
      ensures currentProgress == percent
    {
      var delta := percent - currentProgress;
      log := log + [StepProgress(delta)];
      currentProgress := percent;
      assert [percent][1..] == [];
    }

    /** What a queued callable does through the engine: report its percentages through
        `progress_callback`, then add its items through `add_to_queue`. */
    method RunCallable(job: Job)
      modifies this`log, this`currentProgress, this`queue
      ensures log == old(log) + Steps(old(currentProgress), job.reports)
      ensures currentProgress == LastReport(old(currentProgress), job.reports)
      ensures queue == old(queue) + job.spawns
    {
      var i := 0;
      while i < |job.reports|
        invariant 0 <= i <= |job.reports|
        invariant log == old(log) + Steps(old(currentProgress), job.reports[..i])
        invariant currentProgress == LastReport(old(currentProgress), job.reports[..i])
        invariant queue == old(queue)
      {
        var before := job.reports[..i];
        StepsSnoc(old(currentProgress), before, job.reports[i]);
        assert job.reports[..i + 1] == before + [job.reports[i]];
        assert [job.reports[i]][1..] == [];
        ReportProgress(job.reports[i]);
        AppendAssoc(old(log), Steps(old(currentProgress), before), [StepProgress(job.reports[i] - LastReport(old(currentProgress), before))]);
        i := i + 1;
      }
      assert job.reports[..i] == job.reports;
      var j := 0;
      while j < |job.spawns|
        invariant 0 <= j <= |job.spawns|
        invariant queue == old(queue) + job.spawns[..j]
        invariant log == old(log) + Steps(old(currentProgress), job.reports)
        invariant currentProgress == LastReport(old(currentProgress), job.reports)
      {
        var item := job.spawns[j];
        AddToQueue(item.name, item.callable, item.args);
        assert job.spawns[..j + 1] == job.spawns[..j] + [item];
        j := j + 1;
      }
      assert job.spawns[..j] == job.spawns;
    }

    /** One item inside its progress bar: start the progress from 0, call the item with
        its arguments plus `progress_callback`, and if it raises, log the exception and
        carry on. */
    method Process(item: QueueItem)
      modifies this`log, this`currentProgress, this`queue
      ensures log == old(log) + Call(item)
      ensures currentProgress == LastReport(0, item.callable.reports)
      ensures queue == old(queue) + item.callable.spawns
    {
      currentProgress := 0;
      var kwargs := item.args + {ProgressCallback};
      log := log + [Invoke(item.name, kwargs)];
      RunCallable(item.callable);
      var failure: seq<QueueEvent> := [];
      if item.callable.raises {
        failure := [LogException(item.name)];
      }
      log := log + failure;
      var steps := Steps(0, item.callable.reports);
      AppendAssoc(old(log), [Invoke(item.name, kwargs)], steps);
      AppendAssoc(old(log), [Invoke(item.name, kwargs)] + steps, failure);
    }

    /** `execute_queue`: until the queue is empty, take the head off, begin the progress
        bar with its name, process the item, and end the bar whatever happened.
        The items run in `Drain` order, so the log is theirs in that order and the queue
        ends empty. */
    method ExecuteQueue()
      modifies this`log, this`currentProgress, this`queue
      ensures queue == []
      ensures log == old(log) + RunLogs(Drain(old(queue)))
      ensures currentProgress ==
                (if old(queue) == [] then old(currentProgress)
                 else LastReport(0, Drain(old(queue))[Weight(old(queue)) - 1].callable.reports))
    {
      ghost var ran: seq<QueueItem> := [];
      while |queue| > 0
        invariant ran + Drain(queue) == Drain(old(queue))
        invariant log == old(log) + RunLogs(ran)
        invariant currentProgress ==
                    (if ran == [] then old(currentProgress)
                     else LastReport(0, ran[|ran| - 1].callable.reports))
        decreases Weight(queue)
      {
        var item := queue[0];
        ghost var rest := queue[1..] + item.callable.spawns;
        assert Drain(queue) == [item] + Drain(rest);
        WeightAppend(queue[1..], item.callable.spawns);
        queue := queue[1..];
        ghost var before := log;
        log := log + [BeginProgress(item.name)];
        Process(item);
        log := log + [EndProgress];
        AppendAssoc(before, [BeginProgress(item.name)], Call(item));
        AppendAssoc(before, [BeginProgress(item.name)] + Call(item), [EndProgress]);
        RunLogsAppend(ran, [item]);
        assert RunLogs([item]) == RunLog(item) by {
          assert [item][1..] == [];
        }
        AppendAssoc(old(log), RunLogs(ran), RunLog(item));
        AppendAssoc(ran, [item], Drain(rest));
        ran := ran + [item];
      }
      assert Drain(queue) == [];
      assert ran == Drain(old(queue));
      assert old(queue) != [] ==> Weight(old(queue)) > 0;
    }
  }
}
