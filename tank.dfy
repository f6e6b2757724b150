/** Values the Maya engine exchanges with the Tank pipeline library and with Maya:
    entities, contexts, running engines and the one-shot scene callbacks. */
module Tank {

  datatype Option<T> = None | Some(value: T)

  datatype Result<T, E> = Success(value: T) | Failure(error: E)

  /** Regrouping a concatenation; called where a proof would otherwise need the solver
      to find it by comparing the sequences element by element. */
  lemma AppendAssoc<T>(a: seq<T>, b: seq<T>, c: seq<T>)
    ensures a + (b + c) == a + b + c
  {
  }

  /** A Shotgun entity reference: the "type" and "id" keys of the entity dictionary. */
  datatype Entity = Entity(kind: string, id: int)

  /** A pipeline context. Contexts are compared by value (`ctx == prev_context`). */
  datatype Context = Context(project: Option<Entity>, entity: Option<Entity>, step: Option<Entity>)

  /** What the scene-event handler sees of a running engine: its instance name and context. */
  datatype EngineHandle = EngineHandle(instanceName: string, context: Context)

  /** The two Maya events the engine listens to. */
  datatype SceneEvent = SceneOpened | SceneSaved

  /** A run-once `scriptJob`: on `event`, call the scene-event handler with
      `engineName` and `prevContext`, the values captured when it was registered. */
  datatype Callback = Callback(event: SceneEvent, engineName: string, prevContext: Context)

  /** The pair of one-shot callbacks registered both by engine start-up and by the
      handler's start-failure path: "SceneOpened" first, then "SceneSaved". */
  function SceneCallbacks(engineName: string, prevContext: Context): seq<Callback>
  {
    [Callback(SceneOpened, engineName, prevContext), Callback(SceneSaved, engineName, prevContext)]
  }
}
