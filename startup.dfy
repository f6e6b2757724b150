/** The checks `MayaEngine.init_engine` makes before the engine may run:
    platform, Maya version, a context with an entity or a project, and folders on disk. */
module Startup {
  import opened Tank

  /** The values `cmds.about(operatingSystem=True)` may report for a supported platform. */
  const SupportedPlatforms: set<string> := {"mac", "win64", "linux64"}

  /** Why start-up refuses to run; each is raised as a `TankError`. */
  datatype StartupError = UnsupportedPlatform | UnsupportedVersion | NoProject | NoFolders

  /** Python's `str.startswith`. */
  predicate StartsWith(s: string, prefix: string)
  {
    |prefix| <= |s| && s[..|prefix|] == prefix
  }

  /** The Maya version string begins with "2012" or "2013". */
  predicate SupportedVersion(version: string)
  {
    StartsWith(version, "2012") || StartsWith(version, "2013")
  }

  /** The entity whose folders on disk are looked up: the context's entity when it
      has one, otherwise its project. */
  function LocationEntity(ctx: Context): Option<Entity>
  {
    if ctx.entity.Some? then ctx.entity else ctx.project
  }

  /** All start-up conditions at once, without any order among them. */
  predicate Startable(os: string, version: string, ctx: Context, pathsFromEntity: Entity -> seq<string>)
  {
    && os in SupportedPlatforms
    && SupportedVersion(version)
    && (ctx.entity.Some? || ctx.project.Some?)
    && |pathsFromEntity(LocationEntity(ctx).value)| > 0
  }

  /** The checks in the order `init_engine` makes them. On success the result is the
      entity whose locations were found; on failure it is the first check that failed. */
  function Validate(os: string, version: string, ctx: Context, pathsFromEntity: Entity -> seq<string>)
    : (r: Result<Entity, StartupError>)
    ensures r.Success? <==> Startable(os, version, ctx, pathsFromEntity)
    ensures r.Success? ==> r.value == (if ctx.entity.Some? then ctx.entity.value else ctx.project.value)
    ensures r == Failure(UnsupportedPlatform) <==> os !in SupportedPlatforms
    ensures r == Failure(UnsupportedVersion) <==> os in SupportedPlatforms && !SupportedVersion(version)
    ensures r == Failure(NoProject) <==>
              os in SupportedPlatforms && SupportedVersion(version) && ctx.entity.None? && ctx.project.None?
    ensures r == Failure(NoFolders) ==>
              (ctx.entity.Some? || ctx.project.Some?) && pathsFromEntity(LocationEntity(ctx).value) == []
  {
    if os !in SupportedPlatforms then Failure(UnsupportedPlatform)
    else if !SupportedVersion(version) then Failure(UnsupportedVersion)
    else match LocationEntity(ctx)
      case None => Failure(NoProject)
      case Some(e) => if |pathsFromEntity(e)| == 0 then Failure(NoFolders) else Success(e)
  }
}
