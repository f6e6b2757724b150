/** The callback Maya runs when a scene is opened or saved (`on_scene_event_cb`) and
    the "Tank is disabled" menu it falls back to (`create_tank_disabled_menu`).

    The handler is specified as the list of calls it makes into Maya and into the
    pipeline library (`Calls`), computed from the host state on entry; the host state it
    leaves is those calls applied one after the other (`Apply`). `Maya.OnSceneEvent`
    makes the calls one at a time on a host object, checking the menus as it goes, and is
    proved to make exactly those calls. The pipeline's answers (does the path belong to a
    Tank project, does the engine start) are parameters. */
module SceneEvents {
  import opened Tank

  /** The two menus the engine puts in Maya's main window. */
  datatype Menu = TankMenu | TankMenuDisabled

  /** Why "Tank Engine cannot be started" is displayed. */
  datatype Cause = NotRecognised | EngineInitFailed

  /** What resolving the scene path gave: `tank_from_path` raised `TankError`, or it and
      `context_from_path` returned a context, or one of them raised anything else. */
  datatype Resolution = NotInPipeline | Resolved(ctx: Context) | ResolutionRaised

  /** What `start_engine` did: returned an engine, raised `TankEngineInitError`, or
      raised anything else. */
  datatype StartOutcome = Started(engine: EngineHandle) | InitError | StartRaised

  /** One call the handler makes into Maya or into the pipeline library. */
  datatype Effect =
    | DeleteMenu(menu: Menu)
    | CreateMenu(menu: Menu)
    | DisplayInfo(cause: Cause)
    | DisplayError
    | Destroy(engine: EngineHandle)
    | StartEngine(engineName: string, ctx: Context, outcome: StartOutcome)
    | Register(callback: Callback)

  /** The global state the handler reads and changes: the current-engine slot, which of
      the two menus exist, the armed one-shot callbacks, and whether Maya runs in batch mode. */
  datatype Host = Host(current: Option<EngineHandle>, tankMenu: bool, disabledMenu: bool,
                       armed: seq<Callback>, batch: bool)

  /** Whether tearing down the engine running in `h` returns. `destroy_engine` deletes the
      engine's menu handle without asking Maya whether it exists; the handle is made only by
      `post_app_init` outside batch mode, and it is gone once `TankMenu` has been deleted
      since. Without it the deletion raises, and so does the teardown. */
  predicate TeardownReturns(h: Host)
  {
    h.current.None? || (!h.batch && h.tankMenu)
  }

  /** What one call does to the host. Destroying an engine whose `TankMenu` handle exists
      empties the slot and deletes the menu (`destroy_engine`); otherwise the call raises and
      nothing changes. A started engine fills the slot, arms its own two callbacks
      (`init_engine`) and, outside batch mode, builds `TankMenu` (`post_app_init`). */
  function Step(h: Host, e: Effect): Host
  {
    match e
    case DeleteMenu(m) => if m == TankMenu then h.(tankMenu := false) else h.(disabledMenu := false)
    case CreateMenu(m) => if m == TankMenu then h.(tankMenu := true) else h.(disabledMenu := true)
    case DisplayInfo(_) => h
    case DisplayError => h
    case Destroy(_) => if !h.batch && h.tankMenu then h.(current := None, tankMenu := false) else h
    case StartEngine(_, _, outcome) =>
      (match outcome
       case Started(eng) =>
         h.(current := Some(eng), tankMenu := h.tankMenu || !h.batch,
            armed := h.armed + SceneCallbacks(eng.instanceName, eng.context))
       case _ => h)
    case Register(cb) => h.(armed := h.armed + [cb])
  }

  /** The host after the calls `es`, made in order from `h`. */
  function Apply(h: Host, es: seq<Effect>): Host
    decreases |es|
  {
    if es == [] then h else Apply(Step(h, es[0]), es[1..])
  }

  /** The handler's first step: delete `TankMenuDisabled` if it exists. */
  function ResetEffects(disabledMenuExists: bool): seq<Effect>
  {
    if disabledMenuExists then [DeleteMenu(TankMenuDisabled)] else []
  }

  /** `create_tank_disabled_menu`: delete `TankMenu` if it exists, then create `TankMenuDisabled`. */
  function DisabledMenuEffects(tankMenuExists: bool): seq<Effect>
  {
    (if tankMenuExists then [DeleteMenu(TankMenu)] else []) + [CreateMenu(TankMenuDisabled)]
  }

  /** The scene is not in any Tank project: say so and show the disabled menu. */
  function UnrecognisedEffects(tankMenuExists: bool): seq<Effect>
  {
    [DisplayInfo(NotRecognised)] + DisabledMenuEffects(tankMenuExists)
  }

  /** Whether the handler goes on to tear down and start an engine: the scene has a name, its
      path resolved to a context, and it is not the case that an engine is running and the
      context equals `prevContext`. */
  predicate Rebuilds(current: Option<EngineHandle>, prevContext: Context, sceneName: string,
                     resolution: Resolution)
  {
    sceneName != "" && resolution.Resolved? && !(current.Some? && resolution.ctx == prevContext)
  }

  /** The teardown a rebuild starts with: the running engine's, if there is one. */
  function Teardown(current: Option<EngineHandle>): seq<Effect>
  {
    if current.Some? then [Destroy(current.value)] else []
  }

  /** The two `Register` calls of the start-failure path, "SceneOpened" first. */
  function RearmEffects(engineName: string, prevContext: Context): seq<Effect>
  {
    [Register(Callback(SceneOpened, engineName, prevContext)),
     Register(Callback(SceneSaved, engineName, prevContext))]
  }

  /** The calls that follow the start attempt: none after a success; after
      `TankEngineInitError` the info message, the disabled menu and the two re-armed
      callbacks; after any other exception the error display. */
  function AfterStartEffects(tankMenuExists: bool, engineName: string, prevContext: Context,
                             start: StartOutcome): seq<Effect>
  {
    match start
    case Started(_) => []
    case InitError =>
      [DisplayInfo(EngineInitFailed)] + DisabledMenuEffects(tankMenuExists) +
      RearmEffects(engineName, prevContext)
    case StartRaised => [DisplayError]
  }

  /** Tear down the engine running in `h`, if any, then start one for `ctx` and react to how
      that went. `TankMenu` still exists after the start attempt only if nothing was torn
      down (a failed start builds no menu). A teardown that raises skips the start and
      lands in the handler's catch-all, which shows the error display. */
  function RebuildEffects(h: Host, engineName: string, prevContext: Context, ctx: Context,
                          start: StartOutcome): seq<Effect>
  {
    if TeardownReturns(h) then
      Teardown(h.current) + [StartEngine(engineName, ctx, start)] +
      AfterStartEffects(h.current.None? && h.tankMenu, engineName, prevContext, start)
    else
      Teardown(h.current) + [DisplayError]
  }

  /** What the handler does after its first step, from host state `h`: nothing for an
      unnamed scene; the unrecognised-scene calls; the error display; nothing when an
      engine runs and the context is `prevContext`; otherwise the rebuild. The engine
      slot is read once, before the first step. */
  function Response(h: Host, engineName: string, prevContext: Context, sceneName: string,
                    resolution: Resolution, start: StartOutcome): seq<Effect>
  {
    if sceneName == "" then []
    else match resolution
      case NotInPipeline => UnrecognisedEffects(h.tankMenu)
      case ResolutionRaised => [DisplayError]
      case Resolved(ctx) =>
        if h.current.Some? && ctx == prevContext then []
        else RebuildEffects(h, engineName, prevContext, ctx, start)
  }

  /** `on_scene_event_cb(engineName, prevContext)` from host state `h`, as the calls it makes
      in order; `sceneName` is the name of the open scene. */
  function Calls(h: Host, engineName: string, prevContext: Context, sceneName: string,
                 resolution: Resolution, start: StartOutcome): seq<Effect>
  {
    ResetEffects(h.disabledMenu) +
    Response(h.(disabledMenu := false), engineName, prevContext, sceneName, resolution, start)
  }

  /** The host after one handler run from `h`. */
  function After(h: Host, engineName: string, prevContext: Context, sceneName: string,
                 resolution: Resolution, start: StartOutcome): Host
  {
    Apply(h, Calls(h, engineName, prevContext, sceneName, resolution, start))
  }

  // ---------------------------------------------------------------------------
  // Applying calls to the host

  lemma ApplyOne(h: Host, e: Effect)
    ensures Apply(h, [e]) == Step(h, e)
  {
    assert [e][1..] == [];
  }

  lemma {:induction false} ApplyAppend(h: Host, a: seq<Effect>, b: seq<Effect>)
    ensures Apply(h, a + b) == Apply(Apply(h, a), b)
    decreases |a|
  {
    if a == [] {
      assert a + b == b;
    } else {
      assert (a + b)[1..] == a[1..] + b;
      ApplyAppend(Step(h, a[0]), a[1..], b);
    }
  }

  lemma ApplyReset(h: Host)
    ensures Apply(h, ResetEffects(h.disabledMenu)) == h.(disabledMenu := false)
  {
    if h.disabledMenu {
      ApplyOne(h, DeleteMenu(TankMenuDisabled));
    }
  }

  /** `create_tank_disabled_menu` leaves `TankMenuDisabled` and no `TankMenu`. */
  lemma ApplyDisabledMenu(h: Host)
    ensures Apply(h, DisabledMenuEffects(h.tankMenu)) == h.(tankMenu := false, disabledMenu := true)
  {
    var del := if h.tankMenu then [DeleteMenu(TankMenu)] else [];
    ApplyAppend(h, del, [CreateMenu(TankMenuDisabled)]);
    if h.tankMenu {
      ApplyOne(h, DeleteMenu(TankMenu));
    }
    ApplyOne(h.(tankMenu := false), CreateMenu(TankMenuDisabled));
  }

  lemma ApplyUnrecognised(h: Host)
    ensures Apply(h, UnrecognisedEffects(h.tankMenu)) == h.(tankMenu := false, disabledMenu := true)
  {
    ApplyAppend(h, [DisplayInfo(NotRecognised)], DisabledMenuEffects(h.tankMenu));
    ApplyOne(h, DisplayInfo(NotRecognised));
    ApplyDisabledMenu(h);
  }

  lemma ApplyRearm(h: Host, engineName: string, prevContext: Context)
    ensures Apply(h, RearmEffects(engineName, prevContext)) ==
            h.(armed := h.armed + SceneCallbacks(engineName, prevContext))
  {
    var cbs := SceneCallbacks(engineName, prevContext);
    assert RearmEffects(engineName, prevContext) == [Register(cbs[0])] + [Register(cbs[1])];
    ApplyAppend(h, [Register(cbs[0])], [Register(cbs[1])]);
    ApplyOne(h, Register(cbs[0]));
    ApplyOne(h.(armed := h.armed + [cbs[0]]), Register(cbs[1]));
    assert h.armed + [cbs[0]] + [cbs[1]] == h.armed + cbs;
  }

  /** The host after the calls that follow a start attempt. */
  lemma ApplyAfterStart(h: Host, engineName: string, prevContext: Context, start: StartOutcome)
    ensures Apply(h, AfterStartEffects(h.tankMenu, engineName, prevContext, start)) ==
            if start == InitError
            then h.(tankMenu := false, disabledMenu := true,
                    armed := h.armed + SceneCallbacks(engineName, prevContext))
            else h
  {
    match start {
      case Started(_) =>
      case InitError =>
        var info := [DisplayInfo(EngineInitFailed)];
        var menu := DisabledMenuEffects(h.tankMenu);
        ApplyAppend(h, info + menu, RearmEffects(engineName, prevContext));
        ApplyAppend(h, info, menu);
        ApplyOne(h, DisplayInfo(EngineInitFailed));
        ApplyDisabledMenu(h);
        ApplyRearm(h.(tankMenu := false, disabledMenu := true), engineName, prevContext);
      case StartRaised =>
        ApplyOne(h, DisplayError);
    }
  }

  /** The host after a rebuild: unchanged when the teardown raises; the new engine on
      success; otherwise the slot is empty and, after `TankEngineInitError`, the disabled
      menu is up and two callbacks are re-armed. */
  lemma ApplyRebuild(h: Host, engineName: string, prevContext: Context, ctx: Context,
                     start: StartOutcome)
    ensures Apply(h, RebuildEffects(h, engineName, prevContext, ctx, start)) ==
            if !TeardownReturns(h) then h
            else match start
            case Started(eng) =>
              h.(current := Some(eng), tankMenu := (h.current.None? && h.tankMenu) || !h.batch,
                 armed := h.armed + SceneCallbacks(eng.instanceName, eng.context))
            case InitError =>
              h.(current := None, tankMenu := false, disabledMenu := true,
                 armed := h.armed + SceneCallbacks(engineName, prevContext))
            case StartRaised =>
              h.(current := None, tankMenu := h.current.None? && h.tankMenu)
  {
    var down := Teardown(h.current);
    if !TeardownReturns(h) {
      ApplyAppend(h, down, [DisplayError]);
      ApplyOne(h, Destroy(h.current.value));
      ApplyOne(h, DisplayError);
      return;
    }
    var begin := StartEngine(engineName, ctx, start);
    var h1 := if h.current.Some? then h.(current := None, tankMenu := false) else h;
    if h.current.Some? {
      ApplyOne(h, Destroy(h.current.value));
    }
    assert Apply(h, down) == h1;
    ApplyAppend(h, down, [begin]);
    ApplyOne(h1, begin);
    var h2 := Step(h1, begin);
    var after := AfterStartEffects(h.current.None? && h.tankMenu, engineName, prevContext, start);
    ApplyAppend(h, down + [begin], after);
    if !start.Started? {
      assert h2 == h1;
      ApplyAfterStart(h2, engineName, prevContext, start);
    }
  }

  // ---------------------------------------------------------------------------
  // Projections of the call list

  predicate IsLifecycle(e: Effect)
  {
    e.Destroy? || e.StartEngine?
  }

  /** The engine teardowns and start attempts among `es`, in order. */
  function Lifecycle(es: seq<Effect>): seq<Effect>
    decreases |es|
  {
    if es == [] then []
    else (if IsLifecycle(es[0]) then [es[0]] else []) + Lifecycle(es[1..])
  }

  /** The callbacks registered among `es`, in order. */
  function Registrations(es: seq<Effect>): seq<Callback>
    decreases |es|
  {
    if es == [] then []
    else (if es[0].Register? then [es[0].callback] else []) + Registrations(es[1..])
  }

  lemma ProjectOne(e: Effect)
    ensures Lifecycle([e]) == if IsLifecycle(e) then [e] else []
    ensures Registrations([e]) == if e.Register? then [e.callback] else []
  {
    assert [e][1..] == [];
  }

  lemma {:induction false} LifecycleAppend(a: seq<Effect>, b: seq<Effect>)
    ensures Lifecycle(a + b) == Lifecycle(a) + Lifecycle(b)
    decreases |a|
  {
    if a == [] {
      assert a + b == b;
    } else {
      assert (a + b)[1..] == a[1..] + b;
      LifecycleAppend(a[1..], b);
    }
  }

  lemma {:induction false} RegistrationsAppend(a: seq<Effect>, b: seq<Effect>)
    ensures Registrations(a + b) == Registrations(a) + Registrations(b)
    decreases |a|
  {
    if a == [] {
      assert a + b == b;
    } else {
      assert (a + b)[1..] == a[1..] + b;
      RegistrationsAppend(a[1..], b);
    }
  }

  lemma ProjectAppend(a: seq<Effect>, b: seq<Effect>)
    ensures Lifecycle(a + b) == Lifecycle(a) + Lifecycle(b)
    ensures Registrations(a + b) == Registrations(a) + Registrations(b)
  {
    LifecycleAppend(a, b);
    RegistrationsAppend(a, b);
  }

  /** Calls that neither tear down, start nor register anything. */
  predicate Quiet(es: seq<Effect>)
  {
    Lifecycle(es) == [] && Registrations(es) == []
  }

  lemma ResetQuiet(disabledMenuExists: bool)
    ensures Quiet(ResetEffects(disabledMenuExists))
    ensures DisplayError !in ResetEffects(disabledMenuExists)
  {
    if disabledMenuExists {
      ProjectOne(DeleteMenu(TankMenuDisabled));
    }
  }

  lemma DisabledMenuQuiet(tankMenuExists: bool)
    ensures Quiet(DisabledMenuEffects(tankMenuExists))
  {
    var del := if tankMenuExists then [DeleteMenu(TankMenu)] else [];
    ProjectAppend(del, [CreateMenu(TankMenuDisabled)]);
    if tankMenuExists {
      ProjectOne(DeleteMenu(TankMenu));
    }
    ProjectOne(CreateMenu(TankMenuDisabled));
  }

  lemma UnrecognisedQuiet(tankMenuExists: bool)
    ensures Quiet(UnrecognisedEffects(tankMenuExists))
    ensures DisplayError !in UnrecognisedEffects(tankMenuExists)
  {
    ProjectAppend([DisplayInfo(NotRecognised)], DisabledMenuEffects(tankMenuExists));
    ProjectOne(DisplayInfo(NotRecognised));
    DisabledMenuQuiet(tankMenuExists);
  }

  lemma RearmProjections(engineName: string, prevContext: Context)
    ensures Lifecycle(RearmEffects(engineName, prevContext)) == []
    ensures Registrations(RearmEffects(engineName, prevContext)) == SceneCallbacks(engineName, prevContext)
  {
    var cbs := SceneCallbacks(engineName, prevContext);
    var r0, r1 := Register(cbs[0]), Register(cbs[1]);
    assert RearmEffects(engineName, prevContext) == [r0] + [r1];
    ProjectAppend([r0], [r1]);
    ProjectOne(r0);
    ProjectOne(r1);
  }

  lemma InitErrorProjections(tankMenuExists: bool, engineName: string, prevContext: Context)
    ensures Lifecycle(AfterStartEffects(tankMenuExists, engineName, prevContext, InitError)) == []
    ensures Registrations(AfterStartEffects(tankMenuExists, engineName, prevContext, InitError)) ==
            SceneCallbacks(engineName, prevContext)
  {
    var info := [DisplayInfo(EngineInitFailed)];
    var menu := DisabledMenuEffects(tankMenuExists);
    ProjectAppend(info + menu, RearmEffects(engineName, prevContext));
    ProjectAppend(info, menu);
    ProjectOne(DisplayInfo(EngineInitFailed));
    DisabledMenuQuiet(tankMenuExists);
    RearmProjections(engineName, prevContext);
  }

  lemma AfterStartProjections(tankMenuExists: bool, engineName: string, prevContext: Context,
                              start: StartOutcome)
    ensures Lifecycle(AfterStartEffects(tankMenuExists, engineName, prevContext, start)) == []
    ensures Registrations(AfterStartEffects(tankMenuExists, engineName, prevContext, start)) ==
            if start == InitError then SceneCallbacks(engineName, prevContext) else []
    ensures DisplayError in AfterStartEffects(tankMenuExists, engineName, prevContext, start) <==>
            start == StartRaised
  {
    match start {
      case Started(_) =>
      case InitError =>
        InitErrorProjections(tankMenuExists, engineName, prevContext);
        assert DisplayError !in DisabledMenuEffects(tankMenuExists);
      case StartRaised =>
        ProjectOne(DisplayError);
    }
  }

  lemma RebuildProjections(h: Host, engineName: string, prevContext: Context, ctx: Context,
                           start: StartOutcome)
    ensures Lifecycle(RebuildEffects(h, engineName, prevContext, ctx, start)) ==
            Teardown(h.current) + (if TeardownReturns(h) then [StartEngine(engineName, ctx, start)] else [])
    ensures Registrations(RebuildEffects(h, engineName, prevContext, ctx, start)) ==
            if TeardownReturns(h) && start == InitError then SceneCallbacks(engineName, prevContext) else []
    ensures DisplayError in RebuildEffects(h, engineName, prevContext, ctx, start) <==>
            !TeardownReturns(h) || start == StartRaised
  {
    var down := Teardown(h.current);
    if !TeardownReturns(h) {
      ProjectAppend(down, [DisplayError]);
      ProjectOne(Destroy(h.current.value));
      ProjectOne(DisplayError);
      return;
    }
    var begin := StartEngine(engineName, ctx, start);
    var after := AfterStartEffects(h.current.None? && h.tankMenu, engineName, prevContext, start);
    ProjectAppend(down + [begin], after);
    ProjectAppend(down, [begin]);
    if h.current.Some? {
      ProjectOne(Destroy(h.current.value));
    }
    ProjectOne(begin);
    AfterStartProjections(h.current.None? && h.tankMenu, engineName, prevContext, start);
  }

  /** The engine calls, the registrations and the error display of everything the handler
      does after its first step. */
  lemma ResponseProjections(h: Host, engineName: string, prevContext: Context, sceneName: string,
                            resolution: Resolution, start: StartOutcome)
    ensures var resp := Response(h, engineName, prevContext, sceneName, resolution, start);
            && Lifecycle(resp) ==
                 (if Rebuilds(h.current, prevContext, sceneName, resolution)
                  then Teardown(h.current) +
                       (if TeardownReturns(h) then [StartEngine(engineName, resolution.ctx, start)] else [])
                  else [])
            && Registrations(resp) ==
                 (if Rebuilds(h.current, prevContext, sceneName, resolution) && TeardownReturns(h) &&
                     start == InitError
                  then SceneCallbacks(engineName, prevContext)
                  else [])
            && (DisplayError in resp <==>
                  sceneName != "" &&
                  (resolution == ResolutionRaised ||
                   (Rebuilds(h.current, prevContext, sceneName, resolution) &&
                    (!TeardownReturns(h) || start == StartRaised))))
  {
    if sceneName != "" {
      match resolution {
        case NotInPipeline =>
          UnrecognisedQuiet(h.tankMenu);
        case ResolutionRaised =>
          ProjectOne(DisplayError);
        case Resolved(ctx) =>
          if !(h.current.Some? && ctx == prevContext) {
            RebuildProjections(h, engineName, prevContext, ctx, start);
          }
      }
    }
  }

  /** The whole run's projections are those of the part after the first step. */
  lemma CallsProjections(h: Host, engineName: string, prevContext: Context, sceneName: string,
                         resolution: Resolution, start: StartOutcome)
    ensures var resp := Response(h.(disabledMenu := false), engineName, prevContext, sceneName, resolution, start);
            var calls := Calls(h, engineName, prevContext, sceneName, resolution, start);
            && Lifecycle(calls) == Lifecycle(resp)
            && Registrations(calls) == Registrations(resp)
            && (DisplayError in calls <==> DisplayError in resp)
  {
    var resp := Response(h.(disabledMenu := false), engineName, prevContext, sceneName, resolution, start);
    ProjectAppend(ResetEffects(h.disabledMenu), resp);
    ResetQuiet(h.disabledMenu);
  }

  /** The host after a run is the host after the part after the first step, applied once the
      disabled menu is gone. */
  lemma AfterReset(h: Host, engineName: string, prevContext: Context, sceneName: string,
                   resolution: Resolution, start: StartOutcome)
    ensures var h1 := h.(disabledMenu := false);
            After(h, engineName, prevContext, sceneName, resolution, start) ==
            Apply(h1, Response(h1, engineName, prevContext, sceneName, resolution, start))
  {
    var h1 := h.(disabledMenu := false);
    ApplyAppend(h, ResetEffects(h.disabledMenu), Response(h1, engineName, prevContext, sceneName, resolution, start));
    ApplyReset(h);
  }

  // ---------------------------------------------------------------------------
  // What a handler run does

  /** The handler's calls: the disabled-menu reset first, then the rest. */
  lemma ResetComesFirst(h: Host, engineName: string, prevContext: Context, sceneName: string,
                        resolution: Resolution, start: StartOutcome)
    requires h.disabledMenu
    ensures var calls := Calls(h, engineName, prevContext, sceneName, resolution, start);
            |calls| > 0 && calls[0] == DeleteMenu(TankMenuDisabled)
  {
  }

  /** File->New (an unnamed scene): apart from the reset of the disabled menu, nothing
      happens and nothing changes. */
  lemma NewSceneChangesNothing(h: Host, engineName: string, prevContext: Context,
                               resolution: Resolution, start: StartOutcome)
    ensures Calls(h, engineName, prevContext, "", resolution, start) == ResetEffects(h.disabledMenu)
    ensures After(h, engineName, prevContext, "", resolution, start) == h.(disabledMenu := false)
  {
    assert Calls(h, engineName, prevContext, "", resolution, start) == ResetEffects(h.disabledMenu) + [];
    ApplyReset(h);
  }

  /** A scene outside every Tank project: the info message and the disabled menu, with
      `TankMenu` gone, but the running engine is neither destroyed nor replaced and no
      callback is armed. */
  lemma UnrecognisedSceneKeepsEngine(h: Host, engineName: string, prevContext: Context,
                                     sceneName: string, start: StartOutcome)
    requires sceneName != ""
    ensures var calls := Calls(h, engineName, prevContext, sceneName, NotInPipeline, start);
            && After(h, engineName, prevContext, sceneName, NotInPipeline, start) ==
                 h.(tankMenu := false, disabledMenu := true)
            && DisplayInfo(NotRecognised) in calls
            && Lifecycle(calls) == [] && Registrations(calls) == []
  {
    var h1 := h.(disabledMenu := false);
    CallsProjections(h, engineName, prevContext, sceneName, NotInPipeline, start);
    ResponseProjections(h1, engineName, prevContext, sceneName, NotInPipeline, start);
    AfterReset(h, engineName, prevContext, sceneName, NotInPipeline, start);
    ApplyUnrecognised(h1);
  }

  /** An engine is running and the scene resolves to `prevContext`: apart from the reset of
      the disabled menu, nothing happens. */
  lemma SameContextIsNoOp(h: Host, engineName: string, prevContext: Context, sceneName: string,
                          start: StartOutcome)
    requires sceneName != "" && h.current.Some?
    ensures Calls(h, engineName, prevContext, sceneName, Resolved(prevContext), start) ==
            ResetEffects(h.disabledMenu)
    ensures After(h, engineName, prevContext, sceneName, Resolved(prevContext), start) ==
            h.(disabledMenu := false)
  {
    assert Calls(h, engineName, prevContext, sceneName, Resolved(prevContext), start) ==
           ResetEffects(h.disabledMenu) + [];
    ApplyReset(h);
  }

  /** The only engine calls are the rebuild's: the engine running on entry, if any, is
      destroyed exactly once and before the single start attempt, which is made only if
      the teardown returned; with no engine running, even an unchanged context is started.
      Every other path makes no engine call. */
  lemma TeardownBeforeStart(h: Host, engineName: string, prevContext: Context, sceneName: string,
                            resolution: Resolution, start: StartOutcome)
    ensures Lifecycle(Calls(h, engineName, prevContext, sceneName, resolution, start)) ==
              if Rebuilds(h.current, prevContext, sceneName, resolution)
              then Teardown(h.current) +
                   (if TeardownReturns(h) then [StartEngine(engineName, resolution.ctx, start)] else [])
              else []
  {
    CallsProjections(h, engineName, prevContext, sceneName, resolution, start);
    ResponseProjections(h.(disabledMenu := false), engineName, prevContext, sceneName, resolution, start);
  }

  /** The handler registers callbacks itself only after `TankEngineInitError`, and then exactly
      the two one-shot callbacks, for "SceneOpened" and "SceneSaved", with the engine name and
      the previous context it was called with. */
  lemma OnlyInitErrorRearms(h: Host, engineName: string, prevContext: Context, sceneName: string,
                            resolution: Resolution, start: StartOutcome)
    ensures Registrations(Calls(h, engineName, prevContext, sceneName, resolution, start)) ==
              if Rebuilds(h.current, prevContext, sceneName, resolution) && TeardownReturns(h) &&
                 start == InitError
              then SceneCallbacks(engineName, prevContext)
              else []
  {
    CallsProjections(h, engineName, prevContext, sceneName, resolution, start);
    ResponseProjections(h.(disabledMenu := false), engineName, prevContext, sceneName, resolution, start);
  }

  /** `TankEngineInitError`: the old engine is gone, the disabled menu replaces `TankMenu`,
      and the two re-armed callbacks are added to those already armed. (The start is
      attempted only once the teardown has returned.) */
  lemma StartFailureDisables(h: Host, engineName: string, prevContext: Context, sceneName: string,
                             resolution: Resolution)
    requires Rebuilds(h.current, prevContext, sceneName, resolution) && TeardownReturns(h)
    ensures After(h, engineName, prevContext, sceneName, resolution, InitError) ==
            h.(current := None, tankMenu := false, disabledMenu := true,
               armed := h.armed + SceneCallbacks(engineName, prevContext))
  {
    var h1 := h.(disabledMenu := false);
    AfterReset(h, engineName, prevContext, sceneName, resolution, InitError);
    ApplyRebuild(h1, engineName, prevContext, resolution.ctx, InitError);
  }

  /** A successful start: the new engine is the current one, its own start-up has armed its
      two callbacks, and no disabled menu is left. (The start is attempted only once the
      teardown has returned.) */
  lemma StartSuccessInstallsEngine(h: Host, engineName: string, prevContext: Context,
                                   sceneName: string, resolution: Resolution, engine: EngineHandle)
    requires Rebuilds(h.current, prevContext, sceneName, resolution) && TeardownReturns(h)
    ensures After(h, engineName, prevContext, sceneName, resolution, Started(engine)) ==
            h.(current := Some(engine), disabledMenu := false,
               tankMenu := (h.current.None? && h.tankMenu) || !h.batch,
               armed := h.armed + SceneCallbacks(engine.instanceName, engine.context))
  {
    AfterReset(h, engineName, prevContext, sceneName, resolution, Started(engine));
    ApplyRebuild(h.(disabledMenu := false), engineName, prevContext, resolution.ctx, Started(engine));
  }

  /** The pipeline library started an engine with the handler's engine name and the context
      the scene resolved to: that engine, bound to the new context, is the current one, and
      its start-up has armed the two callbacks for that context. */
  lemma SwitchBindsNewContext(h: Host, engineName: string, prevContext: Context,
                              sceneName: string, resolution: Resolution, engine: EngineHandle)
    requires Rebuilds(h.current, prevContext, sceneName, resolution) && TeardownReturns(h)
    requires engine.instanceName == engineName && engine.context == resolution.ctx
    ensures var h2 := After(h, engineName, prevContext, sceneName, resolution, Started(engine));
            && h2.current.Some? && h2.current.value.context == resolution.ctx
            && h2.current.value.instanceName == engineName
            && h2.armed == h.armed + SceneCallbacks(engineName, resolution.ctx)
  {
    StartSuccessInstallsEngine(h, engineName, prevContext, sceneName, resolution, engine);
  }

  /** The running engine's menu handle is gone (batch mode, or `TankMenu` deleted since the
      engine started): its teardown raises, nothing is started, and the catch-all shows the
      error display. The engine stays current, and nothing is re-armed. */
  lemma FailedTeardownStopsRebuild(h: Host, engineName: string, prevContext: Context,
                                   sceneName: string, resolution: Resolution, start: StartOutcome)
    requires Rebuilds(h.current, prevContext, sceneName, resolution) && !TeardownReturns(h)
    ensures Calls(h, engineName, prevContext, sceneName, resolution, start) ==
            ResetEffects(h.disabledMenu) + [Destroy(h.current.value), DisplayError]
    ensures After(h, engineName, prevContext, sceneName, resolution, start) == h.(disabledMenu := false)
  {
    var h1 := h.(disabledMenu := false);
    assert [Destroy(h.current.value)] + [DisplayError] == [Destroy(h.current.value), DisplayError];
    AfterReset(h, engineName, prevContext, sceneName, resolution, start);
    ApplyRebuild(h1, engineName, prevContext, resolution.ctx, start);
  }

  /** Any other exception, from resolving the path, from the teardown or from the start, is
      reported with `displayError`, and only then; what was done before it is not undone (a
      destroyed engine stays destroyed). */
  lemma OtherErrorsReportedNotRolledBack(h: Host, engineName: string, prevContext: Context,
                                         sceneName: string, resolution: Resolution, start: StartOutcome)
    ensures DisplayError in Calls(h, engineName, prevContext, sceneName, resolution, start) <==>
              sceneName != "" &&
              (resolution == ResolutionRaised ||
               (Rebuilds(h.current, prevContext, sceneName, resolution) &&
                (!TeardownReturns(h) || start == StartRaised)))
    ensures sceneName != "" && resolution == ResolutionRaised ==>
              After(h, engineName, prevContext, sceneName, resolution, start) == h.(disabledMenu := false)
    ensures Rebuilds(h.current, prevContext, sceneName, resolution) && TeardownReturns(h) &&
            start == StartRaised ==>
              After(h, engineName, prevContext, sceneName, resolution, start) ==
              h.(current := None, disabledMenu := false, tankMenu := h.current.None? && h.tankMenu)
  {
    var h1 := h.(disabledMenu := false);
    CallsProjections(h, engineName, prevContext, sceneName, resolution, start);
    ResponseProjections(h1, engineName, prevContext, sceneName, resolution, start);
    AfterReset(h, engineName, prevContext, sceneName, resolution, start);
    if sceneName != "" && resolution == ResolutionRaised {
      ApplyOne(h1, DisplayError);
    } else if Rebuilds(h.current, prevContext, sceneName, resolution) && TeardownReturns(h) &&
              start == StartRaised {
      ApplyRebuild(h1, engineName, prevContext, resolution.ctx, start);
    }
  }

  // ---------------------------------------------------------------------------
  // Several handler runs

  /** A host state reached and the calls that led to it, oldest first. */
  datatype Trace = Trace(host: Host, effects: seq<Effect>)

  /** Maya running a registered callback: the handler with the values that callback captured. */
  datatype Firing = Firing(engineName: string, prevContext: Context, sceneName: string,
                           resolution: Resolution, start: StartOutcome)

  function Fire(t: Trace, f: Firing): Trace
  {
    var calls := Calls(t.host, f.engineName, f.prevContext, f.sceneName, f.resolution, f.start);
    Trace(Apply(t.host, calls), t.effects + calls)
  }

  /** The handler run once per firing, in order, each from the state the previous one left. */
  function Replay(t: Trace, fs: seq<Firing>): Trace
    decreases |fs|
  {
    if fs == [] then t else Replay(Fire(t, fs[0]), fs[1..])
  }

  /** The firing cannot change context: the scene is unnamed or resolves to the context the
      callback captured. */
  predicate KeepsContext(f: Firing)
  {
    f.sceneName == "" || f.resolution == Resolved(f.prevContext)
  }

  /** While an engine runs, firings that never change context never tear it down or start
      another one, however many there are. */
  lemma {:induction false} StableContextNeverRebuilds(t: Trace, fs: seq<Firing>)
    requires t.host.current.Some?
    requires forall i :: 0 <= i < |fs| ==> KeepsContext(fs[i])
    ensures Lifecycle(Replay(t, fs).effects) == Lifecycle(t.effects)
    ensures Replay(t, fs).host.current == t.host.current
    decreases |fs|
  {
    if fs != [] {
      var f := fs[0];
      assert KeepsContext(f);
      var calls := Calls(t.host, f.engineName, f.prevContext, f.sceneName, f.resolution, f.start);
      assert calls == ResetEffects(t.host.disabledMenu) + [];
      ApplyReset(t.host);
      ResetQuiet(t.host.disabledMenu);
      ProjectAppend(t.effects, calls);
      var t1 := Fire(t, f);
      assert forall i :: 0 <= i < |fs[1..]| ==> KeepsContext(fs[1..][i]) by {
        forall i | 0 <= i < |fs[1..]| ensures KeepsContext(fs[1..][i]) {
          assert fs[1..][i] == fs[i + 1];
        }
      }
      StableContextNeverRebuilds(t1, fs[1..]);
    }
  }

  /** A detour through a file outside any Tank project, then back to a file in the running
      engine's own context: the engine keeps running, but `TankMenu` was deleted by the
      detour and the disabled menu by the return, so neither menu is left. */
  lemma MenusLostAfterDetour(h: Host, engineName: string, path1: string, path2: string,
                             start1: StartOutcome, start2: StartOutcome)
    requires h.current.Some? && path1 != "" && path2 != ""
    ensures var ctx := h.current.value.context;
            var t := Replay(Trace(h, []), [Firing(engineName, ctx, path1, NotInPipeline, start1),
                                           Firing(engineName, ctx, path2, Resolved(ctx), start2)]);
            t.host.current == h.current && !t.host.tankMenu && !t.host.disabledMenu
  {
    var ctx := h.current.value.context;
    var f1 := Firing(engineName, ctx, path1, NotInPipeline, start1);
    var f2 := Firing(engineName, ctx, path2, Resolved(ctx), start2);
    var fs := [f1, f2];
    var t1 := Fire(Trace(h, []), f1);
    UnrecognisedSceneKeepsEngine(h, engineName, ctx, path1, start1);
    assert t1.host == h.(tankMenu := false, disabledMenu := true);
    var t2 := Fire(t1, f2);
    SameContextIsNoOp(t1.host, engineName, ctx, path2, start2);
    assert t2.host == t1.host.(disabledMenu := false);
    assert fs[1..] == [f2] && fs[1..][1..] == [];
    assert Replay(Trace(h, []), fs) == Replay(t1, [f2]) == Replay(t2, []);
  }

  /** An engine runs whose teardown would raise: Maya is in batch mode, or `TankMenu` has
      been deleted since the engine started. */
  predicate Stuck(h: Host)
  {
    h.current.Some? && !TeardownReturns(h)
  }

  /** From a stuck host, whatever the scene and the pipeline's answers, one handler run
      keeps the engine and leaves the host stuck. */
  lemma StuckRunKeepsEngine(h: Host, engineName: string, prevContext: Context, sceneName: string,
                            resolution: Resolution, start: StartOutcome)
    requires Stuck(h)
    ensures var h2 := After(h, engineName, prevContext, sceneName, resolution, start);
            h2.current == h.current && Stuck(h2)
  {
    if sceneName == "" {
      NewSceneChangesNothing(h, engineName, prevContext, resolution, start);
    } else if resolution == NotInPipeline {
      UnrecognisedSceneKeepsEngine(h, engineName, prevContext, sceneName, start);
    } else if resolution == ResolutionRaised {
      OtherErrorsReportedNotRolledBack(h, engineName, prevContext, sceneName, resolution, start);
    } else if resolution == Resolved(prevContext) {
      SameContextIsNoOp(h, engineName, prevContext, sceneName, start);
    } else {
      FailedTeardownStopsRebuild(h, engineName, prevContext, sceneName, resolution, start);
    }
  }

  /** Once stuck, the engine is never replaced: no sequence of firings changes it. */
  lemma {:induction false} StuckEngineStays(t: Trace, fs: seq<Firing>)
    requires Stuck(t.host)
    ensures Replay(t, fs).host.current == t.host.current
    decreases |fs|
  {
    if fs != [] {
      var f := fs[0];
      StuckRunKeepsEngine(t.host, f.engineName, f.prevContext, f.sceneName, f.resolution, f.start);
      StuckEngineStays(Fire(t, f), fs[1..]);
    }
  }

  /** After the detour of `MenusLostAfterDetour` the engine can no longer be replaced: every
      later switch of context tears it down in vain. */
  lemma NoSwitchAfterDetour(h: Host, engineName: string, path1: string, path2: string,
                            start1: StartOutcome, start2: StartOutcome, later: seq<Firing>)
    requires h.current.Some? && path1 != "" && path2 != ""
    ensures var ctx := h.current.value.context;
            var t := Replay(Trace(h, []), [Firing(engineName, ctx, path1, NotInPipeline, start1),
                                           Firing(engineName, ctx, path2, Resolved(ctx), start2)]);
            Replay(t, later).host.current == h.current
  {
    var ctx := h.current.value.context;
    var t := Replay(Trace(h, []), [Firing(engineName, ctx, path1, NotInPipeline, start1),
                                   Firing(engineName, ctx, path2, Resolved(ctx), start2)]);
    MenusLostAfterDetour(h, engineName, path1, path2, start1, start2);
    StuckEngineStays(t, later);
  }

  // ---------------------------------------------------------------------------
  // Run-once callbacks

  /** Maya running a `runOnce` script job: the first armed callback equal to `cb` is
      removed, and every other one stays armed. */
  function Disarm(armed: seq<Callback>, cb: Callback): (r: seq<Callback>)
    ensures multiset(r) + (if cb in armed then multiset{cb} else multiset{}) == multiset(armed)
    decreases |armed|
  {
    if armed == [] then []
    else if armed[0] == cb then
      assert armed == [armed[0]] + armed[1..];
      armed[1..]
    else
      assert armed == [armed[0]] + armed[1..];
      [armed[0]] + Disarm(armed[1..], cb)
  }

  /** Some callback for `event` is armed, so the handler runs the next time it happens. */
  predicate Listening(armed: seq<Callback>, event: SceneEvent)
  {
    exists cb :: cb in armed && cb.event == event
  }

  /** Running one of an engine's two start-up callbacks leaves the other one armed. */
  lemma DisarmStartupCallbacks(name: string, ctx: Context)
    ensures Disarm(SceneCallbacks(name, ctx), Callback(SceneSaved, name, ctx)) == [Callback(SceneOpened, name, ctx)]
    ensures Disarm(SceneCallbacks(name, ctx), Callback(SceneOpened, name, ctx)) == [Callback(SceneSaved, name, ctx)]
  {
    var onOpen, onSave := Callback(SceneOpened, name, ctx), Callback(SceneSaved, name, ctx);
    var both := SceneCallbacks(name, ctx);
    assert both[0] == onOpen && both[1..] == [onSave];
    assert Disarm([onSave], onSave) == [];
  }

  /** The handler re-arms nothing when the context is unchanged, yet the callback that ran
      it is used up. Starting from the two callbacks a running engine's start-up armed, a
      save that resolves to the same context leaves no callback for "SceneSaved": later
      saves no longer reach the handler. */
  lemma SameContextSaveGoesDeaf(h: Host, engine: EngineHandle, path: string, start: StartOutcome)
    requires h.current == Some(engine)
    requires h.armed == SceneCallbacks(engine.instanceName, engine.context)
    requires path != ""
    ensures var fired := h.(armed := Disarm(h.armed, Callback(SceneSaved, engine.instanceName, engine.context)));
            !Listening(After(fired, engine.instanceName, engine.context, path, Resolved(engine.context), start).armed,
                       SceneSaved)
  {
    var name, ctx := engine.instanceName, engine.context;
    DisarmStartupCallbacks(name, ctx);
    var fired := h.(armed := [Callback(SceneOpened, name, ctx)]);
    SameContextIsNoOp(fired, name, ctx, path, start);
  }

  /** Likewise, a File->New, or a scene outside every Tank project, leaves no callback for
      "SceneOpened": later opens no longer reach the handler. */
  lemma EarlyOpenGoesDeaf(h: Host, engine: EngineHandle, path: string, start: StartOutcome)
    requires h.current == Some(engine)
    requires h.armed == SceneCallbacks(engine.instanceName, engine.context)
    requires path != ""
    ensures var fired := h.(armed := Disarm(h.armed, Callback(SceneOpened, engine.instanceName, engine.context)));
            && !Listening(After(fired, engine.instanceName, engine.context, "", Resolved(engine.context), start).armed,
                          SceneOpened)
            && !Listening(After(fired, engine.instanceName, engine.context, path, NotInPipeline, start).armed,
                          SceneOpened)
  {
    var name, ctx := engine.instanceName, engine.context;
    DisarmStartupCallbacks(name, ctx);
    var fired := h.(armed := [Callback(SceneSaved, name, ctx)]);
    NewSceneChangesNothing(fired, name, ctx, Resolved(ctx), start);
    UnrecognisedSceneKeepsEngine(fired, name, ctx, path, start);
  }

  /** Likewise, an open that switches context and ends in the catch-all, because the start
      raised something other than `TankEngineInitError` or the teardown raised, re-arms
      nothing and leaves no callback for "SceneOpened". After a failed start nothing else
      is left either: no engine and neither menu. */
  lemma CatchAllGoesDeaf(h: Host, engine: EngineHandle, path: string, ctx: Context,
                         start: StartOutcome)
    requires h.current == Some(engine)
    requires h.armed == SceneCallbacks(engine.instanceName, engine.context)
    requires path != "" && ctx != engine.context
    requires start == StartRaised || !TeardownReturns(h)
    ensures var fired := h.(armed := Disarm(h.armed, Callback(SceneOpened, engine.instanceName, engine.context)));
            var h2 := After(fired, engine.instanceName, engine.context, path, Resolved(ctx), start);
            && !Listening(h2.armed, SceneOpened)
            && (TeardownReturns(h) ==> h2.current == None && !h2.tankMenu && !h2.disabledMenu)
  {
    var name := engine.instanceName;
    DisarmStartupCallbacks(name, engine.context);
    var fired := h.(armed := [Callback(SceneSaved, name, engine.context)]);
    if TeardownReturns(fired) {
      OtherErrorsReportedNotRolledBack(fired, name, engine.context, path, Resolved(ctx), start);
    } else {
      FailedTeardownStopsRebuild(fired, name, engine.context, path, Resolved(ctx), start);
    }
  }

  /** The handler as evidently intended: when it neither starts an engine (whose start-up
      arms both callbacks) nor takes the start-failure path (which re-arms both), it
      re-arms the callback for the `event` that ran it. */
  function RearmedCalls(h: Host, event: SceneEvent, engineName: string, prevContext: Context,
                        sceneName: string, resolution: Resolution, start: StartOutcome): seq<Effect>
  {
    Calls(h, engineName, prevContext, sceneName, resolution, start) +
    (if Rebuilds(h.current, prevContext, sceneName, resolution) && TeardownReturns(h) && !start.StartRaised?
     then []
     else [Register(Callback(event, engineName, prevContext))])
  }

  /** With the correction the handler never goes deaf: whatever the scene and whatever the
      pipeline answers, when it returns a callback for the event that ran it is armed. */
  lemma RearmedKeepsListening(h: Host, event: SceneEvent, engineName: string, prevContext: Context,
                              sceneName: string, resolution: Resolution, start: StartOutcome)
    ensures Listening(Apply(h, RearmedCalls(h, event, engineName, prevContext, sceneName, resolution, start)).armed,
                      event)
  {
    var calls := Calls(h, engineName, prevContext, sceneName, resolution, start);
    var rebuilt := Rebuilds(h.current, prevContext, sceneName, resolution) && TeardownReturns(h);
    if rebuilt && start.Started? {
      var eng := start.engine;
      assert start == Started(eng);
      assert RearmedCalls(h, event, engineName, prevContext, sceneName, resolution, start) == calls + [];
      assert calls + [] == calls;
      StartSuccessInstallsEngine(h, engineName, prevContext, sceneName, resolution, eng);
      var armed := After(h, engineName, prevContext, sceneName, resolution, start).armed;
      assert armed == h.armed + SceneCallbacks(eng.instanceName, eng.context);
      var cb := Callback(event, eng.instanceName, eng.context);
      assert cb in SceneCallbacks(eng.instanceName, eng.context);
      assert cb in armed;
    } else if rebuilt && start == InitError {
      assert RearmedCalls(h, event, engineName, prevContext, sceneName, resolution, start) == calls + [];
      assert calls + [] == calls;
      StartFailureDisables(h, engineName, prevContext, sceneName, resolution);
      var armed := After(h, engineName, prevContext, sceneName, resolution, start).armed;
      var cb := Callback(event, engineName, prevContext);
      assert cb in SceneCallbacks(engineName, prevContext);
      assert cb in armed;
    } else {
      var cb := Callback(event, engineName, prevContext);
      ApplyAppend(h, calls, [Register(cb)]);
      ApplyOne(Apply(h, calls), Register(cb));
      assert cb in Apply(h, calls).armed + [cb];
    }
  }

  // ---------------------------------------------------------------------------
  // The handler as it runs

  /** The Maya session: the host state the handler works on, and every call made so far. */
  class Maya {
    var current: Option<EngineHandle>
    var tankMenu: bool
    var disabledMenu: bool
    var armed: seq<Callback>
    const batch: bool
    var effects: seq<Effect>

    function State(): Host
      reads this
    {
      Host(current, tankMenu, disabledMenu, armed, batch)
    }

    constructor (h: Host)
      ensures State() == h && effects == []
    {
      current, tankMenu, disabledMenu, armed, batch := h.current, h.tankMenu, h.disabledMenu, h.armed, h.batch;
      effects := [];
    }

    /** Make one call into Maya or the pipeline library and record it. */
    method Perform(e: Effect)
      modifies this
      ensures State() == Step(old(State()), e)
      ensures effects == old(effects) + [e]
    {
      match e {
        case DeleteMenu(m) =>
          if m == TankMenu { tankMenu := false; } else { disabledMenu := false; }
        case CreateMenu(m) =>
          if m == TankMenu { tankMenu := true; } else { disabledMenu := true; }
        case DisplayInfo(_) =>
        case DisplayError =>
        case Destroy(_) =>
          if !batch && tankMenu {
            current := None;
            tankMenu := false;
          }
        case StartEngine(_, _, outcome) =>
          if outcome.Started? {
            var eng := outcome.engine;
            current := Some(eng);
            tankMenu := tankMenu || !batch;
            armed := armed + SceneCallbacks(eng.instanceName, eng.context);
          }
        case Register(cb) =>
          armed := armed + [cb];
      }
      effects := effects + [e];
    }

    /** `create_tank_disabled_menu`, which asks Maya whether `TankMenu` exists. */
    method CreateTankDisabledMenu()
      modifies this
      ensures effects == old(effects) + DisabledMenuEffects(old(tankMenu))
      ensures State() == old(State()).(tankMenu := false, disabledMenu := true)
    {
      if tankMenu {
        Perform(DeleteMenu(TankMenu));
      }
      Perform(CreateMenu(TankMenuDisabled));
    }

    /** `on_scene_event_cb(engineName, prevContext)`, with `sceneName` the open scene's name
        and the pipeline's answers given as `resolution` and `start`. The menus are checked
        when they are about to be changed, not on entry. */
    method OnSceneEvent(engineName: string, prevContext: Context, sceneName: string,
                        resolution: Resolution, start: StartOutcome)
      modifies this
      ensures effects == old(effects) + Calls(old(State()), engineName, prevContext, sceneName, resolution, start)
      ensures State() == After(old(State()), engineName, prevContext, sceneName, resolution, start)
    {
      ghost var h0 := State();
      ghost var e0 := effects;
      var currentEngine := current;
      ResetDisabledMenu();
      Respond(currentEngine, engineName, prevContext, sceneName, resolution, start);
      AfterReset(h0, engineName, prevContext, sceneName, resolution, start);
      AppendAssoc(e0, ResetEffects(h0.disabledMenu),
                  Response(h0.(disabledMenu := false), engineName, prevContext, sceneName, resolution, start));
    }

    /** The handler's first step: delete `TankMenuDisabled` if Maya says it exists. */
    method ResetDisabledMenu()
      modifies this
      ensures effects == old(effects) + ResetEffects(old(disabledMenu))
      ensures State() == old(State()).(disabledMenu := false)
    {
      if disabledMenu {
        Perform(DeleteMenu(TankMenuDisabled));
      }
    }

    /** The handler after its first step; `currentEngine` is the engine slot as read on
        entry, which deleting the disabled menu does not change. */
    method Respond(currentEngine: Option<EngineHandle>, engineName: string, prevContext: Context,
                   sceneName: string, resolution: Resolution, start: StartOutcome)
      requires currentEngine == current
      modifies this
      ensures effects == old(effects) + Response(old(State()), engineName, prevContext, sceneName, resolution, start)
      ensures State() == Apply(old(State()), Response(old(State()), engineName, prevContext, sceneName, resolution, start))
    {
      ghost var h := State();
      ghost var e := effects;
      if sceneName == "" {
        assert e + [] == e;
        return;
      }
      var ctx: Context;
      match resolution {
        case NotInPipeline =>
          Perform(DisplayInfo(NotRecognised));
          CreateTankDisabledMenu();
          assert effects == e + UnrecognisedEffects(h.tankMenu);
          ApplyUnrecognised(h);
          return;
        case ResolutionRaised =>
          Perform(DisplayError);
          ApplyOne(h, DisplayError);
          return;
        case Resolved(c) =>
          ctx := c;
      }
      if currentEngine.Some? && ctx == prevContext {
        assert e + [] == e;
        return;
      }
      Rebuild(currentEngine, engineName, prevContext, ctx, start);
    }

    /** `destroy_engine` on the running engine: `raised` tells whether deleting its menu
        handle raised, which it does when the handle was never made (batch mode) or
        `TankMenu` has been deleted since. */
    method DestroyEngine(engine: EngineHandle) returns (raised: bool)
      modifies this
      ensures raised <==> batch || !old(tankMenu)
      ensures State() == Step(old(State()), Destroy(engine))
      ensures effects == old(effects) + [Destroy(engine)]
    {
      raised := batch || !tankMenu;
      Perform(Destroy(engine));
    }

    /** Tear down the running engine, if any, then try to start one for `ctx`; a teardown
        that raises goes straight to the error display. */
    method Rebuild(currentEngine: Option<EngineHandle>, engineName: string, prevContext: Context,
                   ctx: Context, start: StartOutcome)
      requires currentEngine == current
      modifies this
      ensures effects == old(effects) + RebuildEffects(old(State()), engineName, prevContext, ctx, start)
      ensures State() == Apply(old(State()), RebuildEffects(old(State()), engineName, prevContext, ctx, start))
    {
      ghost var h := State();
      ghost var e := effects;
      ghost var down := Teardown(h.current);
      var begin := StartEngine(engineName, ctx, start);
      if currentEngine.Some? {
        var raised := DestroyEngine(currentEngine.value);
        ApplyOne(h, Destroy(currentEngine.value));
        if raised {
          Perform(DisplayError);
          ApplyAppend(h, down, [DisplayError]);
          ApplyOne(h, DisplayError);
          AppendAssoc(e, down, [DisplayError]);
          return;
        }
      }
      ghost var h1 := State();
      assert Apply(h, down) == h1 && effects == e + down;
      Perform(begin);
      ApplyOne(h1, begin);
      ApplyAppend(h, down, [begin]);
      ghost var after := AfterStartEffects(h.current.None? && h.tankMenu, engineName, prevContext, start);
      assert after == AfterStartEffects(tankMenu, engineName, prevContext, start);
      ReactToStart(engineName, prevContext, start);
      ApplyAppend(h, down + [begin], after);
      AppendAssoc(e, down, [begin]);
      AppendAssoc(e, down + [begin], after);
    }

    /** The `except` clauses around `start_engine`: after `TankEngineInitError` the info
        message, the disabled menu and the two one-shot callbacks; after anything else the
        error display. */
    method ReactToStart(engineName: string, prevContext: Context, start: StartOutcome)
      modifies this
      ensures effects == old(effects) + AfterStartEffects(old(tankMenu), engineName, prevContext, start)
      ensures State() == Apply(old(State()), AfterStartEffects(old(tankMenu), engineName, prevContext, start))
    {
      ghost var h := State();
      ghost var e := effects;
      match start {
        case Started(_) =>
          assert e + [] == e;
        case InitError =>
          Perform(DisplayInfo(EngineInitFailed));
          CreateTankDisabledMenu();
          ghost var shown := [DisplayInfo(EngineInitFailed)] + DisabledMenuEffects(h.tankMenu);
          AppendAssoc(e, [DisplayInfo(EngineInitFailed)], DisabledMenuEffects(h.tankMenu));
          var callbacks := SceneCallbacks(engineName, prevContext);
          Perform(Register(callbacks[0]));
          Perform(Register(callbacks[1]));
          assert armed == h.armed + callbacks;
          AppendAssoc(e + shown, [Register(callbacks[0])], [Register(callbacks[1])]);
          assert [Register(callbacks[0])] + [Register(callbacks[1])] == RearmEffects(engineName, prevContext);
          AppendAssoc(e, shown, RearmEffects(engineName, prevContext));
        case StartRaised =>
          Perform(DisplayError);
      }
      ApplyAfterStart(h, engineName, prevContext, start);
    }
  }
}
