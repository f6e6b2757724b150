/** The engine's synchronous job queue (`add_to_queue`, `report_progress`,
    `execute_queue`), specified on values: the order in which `execute_queue` runs the
    items, including the items they add while it drains, and the progress-bar and logging
    calls it makes for each of them. */
module JobQueue {

  /** A queued callable, as far as the queue can observe it: the percentages it passes to
      `progress_callback`, the items it hands to `add_to_queue`, and whether it then raises.
      A callable that raises part-way is the one whose lists stop where it raised. */
  datatype Job = Job(reports: seq<int>, spawns: seq<QueueItem>, raises: bool)

  /** The dictionary `add_to_queue` builds: "name", "method" and "args", the last given by
      its keyword names. */
  datatype QueueItem = QueueItem(name: string, callable: Job, args: set<string>)

  /** The keyword `execute_queue` adds to every item's arguments. */
  const ProgressCallback: string := "progress_callback"

  /** A call `execute_queue` makes on the progress bar, on the item, or on the log. */
  datatype QueueEvent =
    | BeginProgress(status: string)
    | Invoke(name: string, kwargs: set<string>)
    | StepProgress(delta: int)
    | LogException(name: string)
    | EndProgress

  // ---------------------------------------------------------------------------
  // Draining order

  /** The number of items that run when `q` is drained: each item and, recursively, the
      items it adds. */
  function Weight(q: seq<QueueItem>): nat
    decreases q
  {
    if q == [] then 0 else 1 + Weight(q[0].callable.spawns) + Weight(q[1..])
  }

  lemma {:induction false} WeightAppend(a: seq<QueueItem>, b: seq<QueueItem>)
    ensures Weight(a + b) == Weight(a) + Weight(b)
    decreases |a|
  {
    if a == [] {
      assert a + b == b;
    } else {
      assert (a + b)[0] == a[0];
      assert (a + b)[1..] == a[1..] + b;
      WeightAppend(a[1..], b);
    }
  }

  /** The items in the order `execute_queue` runs them: take the head off, run it (which
      appends its own items at the tail), and go on until the queue is empty. Every item,
      first queued or added on the way, runs exactly once. */
  function Drain(q: seq<QueueItem>): (r: seq<QueueItem>)
    ensures |r| == Weight(q)
    decreases Weight(q)
  {
    if q == [] then []
    else
      WeightAppend(q[1..], q[0].callable.spawns);
      [q[0]] + Drain(q[1..] + q[0].callable.spawns)
  }

  /** The items added by the items of `q`, in the order they were added. */
  function Spawned(q: seq<QueueItem>): seq<QueueItem>
  {
    if q == [] then [] else q[0].callable.spawns + Spawned(q[1..])
  }

  lemma {:induction false} DrainAppend(a: seq<QueueItem>, b: seq<QueueItem>)
    ensures Drain(a + b) == a + Drain(b + Spawned(a))
    decreases |a|
  {
    if a == [] {
      assert a + b == b && b + Spawned(a) == b;
    } else {
      var x := a[0];
      assert (a + b)[0] == x;
      assert (a + b)[1..] == a[1..] + b;
      assert Drain(a + b) == [x] + Drain(a[1..] + b + x.callable.spawns);
      assert a[1..] + b + x.callable.spawns == a[1..] + (b + x.callable.spawns);
      DrainAppend(a[1..], b + x.callable.spawns);
      assert b + x.callable.spawns + Spawned(a[1..]) == b + Spawned(a);
      assert [x] + (a[1..] + Drain(b + Spawned(a))) == a + Drain(b + Spawned(a));
    }
  }

  /** First in, first out: the items queued when draining starts run first, in queue
      order, and only then the items they added. */
  lemma FirstInFirstOut(q: seq<QueueItem>)
    ensures Drain(q) == q + Drain(Spawned(q))
  {
    DrainAppend(q, []);
    assert q + [] == q && [] + Spawned(q) == Spawned(q);
  }

  // ---------------------------------------------------------------------------
  // Progress

  /** The last percentage reported, or `current` if none was. */
  function LastReport(current: int, reports: seq<int>): int
  {
    if reports == [] then current else reports[|reports| - 1]
  }

  /** The steps `report_progress` hands to the progress bar for `reports`, starting from
      `current`: each the difference to the percentage before it, unclamped. */
  function Steps(current: int, reports: seq<int>): seq<QueueEvent>
    decreases |reports|
  {
    if reports == [] then []
    else [StepProgress(reports[0] - current)] + Steps(reports[0], reports[1..])
  }

  /** The sum of the progress-bar steps in `log`. */
  function StepTotal(log: seq<QueueEvent>): int
    decreases |log|
  {
    if log == [] then 0
    else (if log[0].StepProgress? then log[0].delta else 0) + StepTotal(log[1..])
  }

  /** Each step is the percentage reported minus the one before it. */
  lemma {:induction false} StepsAreDifferences(current: int, reports: seq<int>)
    ensures |Steps(current, reports)| == |reports|
    ensures forall i :: 0 <= i < |reports| ==>
              Steps(current, reports)[i] ==
              StepProgress(reports[i] - (if i == 0 then current else reports[i - 1]))
    decreases |reports|
  {
    if reports != [] {
      StepsAreDifferences(reports[0], reports[1..]);
      var rest := Steps(reports[0], reports[1..]);
      forall i | 1 <= i < |reports|
        ensures Steps(current, reports)[i] == StepProgress(reports[i] - reports[i - 1])
      {
        assert Steps(current, reports)[i] == rest[i - 1];
        assert reports[1..][i - 1] == reports[i];
        if i > 1 {
          assert reports[1..][i - 2] == reports[i - 1];
        }
      }
    }
  }

  /** The steps add up to the last percentage reported minus the starting one; since
      `execute_queue` starts every item at 0, an item's steps add up to its last report. */
  lemma {:induction false} StepsTelescope(current: int, reports: seq<int>)
    ensures StepTotal(Steps(current, reports)) == LastReport(current, reports) - current
    decreases |reports|
  {
    if reports != [] {
      var s := Steps(current, reports);
      assert s[0] == StepProgress(reports[0] - current);
      assert s[1..] == Steps(reports[0], reports[1..]);
      StepsTelescope(reports[0], reports[1..]);
      if |reports| > 1 {
        assert reports[1..][|reports[1..]| - 1] == reports[|reports| - 1];
      }
    }
  }

  lemma StepsSnoc(current: int, reports: seq<int>, p: int)
    ensures Steps(current, reports + [p]) ==
            Steps(current, reports) + [StepProgress(p - LastReport(current, reports))]
    decreases |reports|
  {
    if reports == [] {
      assert [p][1..] == [];
    } else {
      assert (reports + [p])[0] == reports[0];
      assert (reports + [p])[1..] == reports[1..] + [p];
      StepsSnoc(reports[0], reports[1..], p);
      if |reports| > 1 {
        assert reports[1..][|reports[1..]| - 1] == reports[|reports| - 1];
      }
    }
  }

  /** Nothing clamps the steps: reporting 60 and then 40 steps the bar back by 20. */
  lemma DecreasingPercentStepsBack()
    ensures Steps(0, [60, 40]) == [StepProgress(60), StepProgress(-20)]
    ensures StepTotal(Steps(0, [60, 40])) == 40
  {
    StepsAreDifferences(0, [60, 40]);
    StepsTelescope(0, [60, 40]);
  }

  // ---------------------------------------------------------------------------
  // What draining logs

  /** The calls inside one item's progress bar: call it with its arguments plus
      `progress_callback`, pass on its steps from 0, and log the exception if it raised. */
  function Call(item: QueueItem): seq<QueueEvent>
  {
    [Invoke(item.name, item.args + {ProgressCallback})] +
    Steps(0, item.callable.reports) +
    (if item.callable.raises then [LogException(item.name)] else [])
  }

  /** The calls `execute_queue` makes for one item: begin the progress bar with the item's
      name, make the call, and end the progress bar whether or not the call raised. */
  function RunLog(item: QueueItem): seq<QueueEvent>
  {
    [BeginProgress(item.name)] + Call(item) + [EndProgress]
  }

  function RunLogs(items: seq<QueueItem>): seq<QueueEvent>
  {
    if items == [] then [] else RunLog(items[0]) + RunLogs(items[1..])
  }

  lemma {:induction false} RunLogsAppend(a: seq<QueueItem>, b: seq<QueueItem>)
    ensures RunLogs(a + b) == RunLogs(a) + RunLogs(b)
    decreases |a|
  {
    if a == [] {
      assert a + b == b;
    } else {
      assert (a + b)[0] == a[0];
      assert (a + b)[1..] == a[1..] + b;
      RunLogsAppend(a[1..], b);
    }
  }

  /** A progress bar is open exactly between a begin and the next end: a begin only while
      none is open, an end only while one is, every other call while one is, and none is
      left open. */
  predicate Bracketed(log: seq<QueueEvent>, open: bool)
    decreases |log|
  {
    if log == [] then !open
    else if log[0].BeginProgress? then !open && Bracketed(log[1..], true)
    else if log[0].EndProgress? then open && Bracketed(log[1..], false)
    else open && Bracketed(log[1..], open)
  }

  /** Calls that neither begin nor end the progress bar. */
  predicate Inside(log: seq<QueueEvent>)
  {
    forall i :: 0 <= i < |log| ==> !log[i].BeginProgress? && !log[i].EndProgress?
  }

  lemma {:induction false} InsideAppend(a: seq<QueueEvent>, rest: seq<QueueEvent>)
    requires Inside(a) && Bracketed(rest, true)
    ensures Bracketed(a + rest, true)
    decreases |a|
  {
    if a != [] {
      assert (a + rest)[0] == a[0];
      assert !a[0].BeginProgress? && !a[0].EndProgress?;
      assert (a + rest)[1..] == a[1..] + rest;
      assert Inside(a[1..]) by {
        forall i | 0 <= i < |a[1..]| ensures !a[1..][i].BeginProgress? && !a[1..][i].EndProgress? {
          assert a[1..][i] == a[i + 1];
        }
      }
      InsideAppend(a[1..], rest);
    } else {
      assert a + rest == rest;
    }
  }

  lemma CallInside(item: QueueItem)
    ensures Inside(Call(item))
  {
    var steps := Steps(0, item.callable.reports);
    var failure := if item.callable.raises then [LogException(item.name)] else [];
    StepsAreDifferences(0, item.callable.reports);
    forall i | 0 <= i < |Call(item)|
      ensures !Call(item)[i].BeginProgress? && !Call(item)[i].EndProgress?
    {
      if i == 0 {
        assert Call(item)[i] == Invoke(item.name, item.args + {ProgressCallback});
      } else if i < 1 + |steps| {
        assert Call(item)[i] == steps[i - 1];
        assert steps[i - 1] == StepProgress(item.callable.reports[i - 1] -
          (if i - 1 == 0 then 0 else item.callable.reports[i - 2]));
      } else {
        assert Call(item)[i] == failure[i - 1 - |steps|];
        assert failure[i - 1 - |steps|] == LogException(item.name);
      }
    }
  }

  /** One item's calls open the bar, stay inside it and close it again. */
  lemma RunLogBracketed(item: QueueItem, rest: seq<QueueEvent>)
    requires Bracketed(rest, false)
    ensures Bracketed(RunLog(item) + rest, false)
  {
    var end := [EndProgress] + rest;
    assert end[0] == EndProgress && end[1..] == rest;
    CallInside(item);
    InsideAppend(Call(item), end);
    var withBar := [BeginProgress(item.name)] + (Call(item) + end);
    assert withBar[0] == BeginProgress(item.name) && withBar[1..] == Call(item) + end;
    assert RunLog(item) + rest == withBar;
  }

  /** Exactly one `endProgress` for every `beginProgress`, each after its own begin and
      before the next one, whether or not the items raise. */
  lemma {:induction false} RunLogsBracketed(items: seq<QueueItem>)
    ensures Bracketed(RunLogs(items), false)
    decreases |items|
  {
    if items != [] {
      RunLogsBracketed(items[1..]);
      RunLogBracketed(items[0], RunLogs(items[1..]));
    }
  }

  /** The number of begin calls in `log`. */
  function Begins(log: seq<QueueEvent>): nat
    decreases |log|
  {
    if log == [] then 0 else (if log[0].BeginProgress? then 1 else 0) + Begins(log[1..])
  }

  /** The number of end calls in `log`. */
  function Ends(log: seq<QueueEvent>): nat
    decreases |log|
  {
    if log == [] then 0 else (if log[0].EndProgress? then 1 else 0) + Ends(log[1..])
  }

  /** In a bracketed log the ends match the begins, plus the one still open. */
  lemma {:induction false} BracketedBalances(log: seq<QueueEvent>, open: bool)
    requires Bracketed(log, open)
    ensures Ends(log) == Begins(log) + (if open then 1 else 0)
    decreases |log|
  {
    if log != [] {
      if log[0].BeginProgress? {
        BracketedBalances(log[1..], true);
      } else if log[0].EndProgress? {
        BracketedBalances(log[1..], false);
      } else {
        BracketedBalances(log[1..], open);
      }
    }
  }

  lemma {:induction false} BeginsAppend(a: seq<QueueEvent>, b: seq<QueueEvent>)
    ensures Begins(a + b) == Begins(a) + Begins(b)
    decreases |a|
  {
    if a == [] {
      assert a + b == b;
    } else {
      assert (a + b)[0] == a[0];
      assert (a + b)[1..] == a[1..] + b;
      BeginsAppend(a[1..], b);
    }
  }

  lemma {:induction false} InsideHasNoBegins(log: seq<QueueEvent>)
    requires Inside(log)
    ensures Begins(log) == 0
    decreases |log|
  {
    if log != [] {
      assert Inside(log[1..]) by {
        forall i | 0 <= i < |log[1..]| ensures !log[1..][i].BeginProgress? && !log[1..][i].EndProgress? {
          assert log[1..][i] == log[i + 1];
        }
      }
      InsideHasNoBegins(log[1..]);
    }
  }

  /** Draining begins the progress bar once per item run and ends it as often. */
  lemma {:induction false} OneBarPerItem(items: seq<QueueItem>)
    ensures Begins(RunLogs(items)) == |items|
    ensures Ends(RunLogs(items)) == |items|
    decreases |items|
  {
    if items != [] {
      var item := items[0];
      OneBarPerItem(items[1..]);
      BeginsAppend(RunLog(item), RunLogs(items[1..]));
      BeginsAppend([BeginProgress(item.name)] + Call(item), [EndProgress]);
      BeginsAppend([BeginProgress(item.name)], Call(item));
      CallInside(item);
      InsideHasNoBegins(Call(item));
      RunLogsBracketed(items);
      BracketedBalances(RunLogs(items), false);
    }
  }

  /** Draining logs every item's calls: first those of the items queued at the start,
      whatever they raise, then those of the items they added. */
  lemma DrainLog(q: seq<QueueItem>)
    ensures RunLogs(Drain(q)) == RunLogs(q) + RunLogs(Drain(Spawned(q)))
    ensures Bracketed(RunLogs(Drain(q)), false)
    ensures Begins(RunLogs(Drain(q))) == Weight(q) && Ends(RunLogs(Drain(q))) == Weight(q)
  {
    FirstInFirstOut(q);
    RunLogsAppend(q, Drain(Spawned(q)));
    RunLogsBracketed(Drain(q));
    OneBarPerItem(Drain(q));
  }
}
