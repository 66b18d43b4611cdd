/** The dispatch of `exports.build`: an options record becomes exactly one of
    six request kinds, decided by checks in a fixed priority order. */
module Planner {
  import opened Paths
  import opened Specs

  const MakeUpYourMindMessage := "Make up your mind."
  const BackupAndSourceMessage := "You can build from backup or from source but not both."
  const InitializeUsageMessage :=
    "If you want to initialize the database, you must specifify " +
    " a database, and use no extensions, and use both the init and either the backup or source flags"

  /** The one extension an initialize request may name. */
  const FoundationExtension := "foundation-database"

  /** The extension list of an initialize request that names no extension. */
  const InitializeExtensions := Infrastructure + [
    Join(CoreExtensionsDir, "crm"),
    Join(CoreExtensionsDir, "project"),
    Join(CoreExtensionsDir, "sales"),
    Join(CoreExtensionsDir, "billing"),
    Join(CoreExtensionsDir, "purchasing"),
    Join(CoreExtensionsDir, "oauth2")
  ]

  datatype Plan =
    | MakeUpYourMind
    | BackupAndSource
    | InitializeUsage
    | Initialize(spec: BuildSpec)
    | ExplicitExtension(specs: seq<BuildSpec>, unregister: bool)
    | RegisteredExtensions(databases: seq<string>)
  {
    /** The three request kinds that are answered with a usage error. */
    predicate IsRejection() {
      MakeUpYourMind? || BackupAndSource? || InitializeUsage?
    }

    function Message(): string
      requires IsRejection()
    {
      match this
      case MakeUpYourMind => MakeUpYourMindMessage
      case BackupAndSource => BackupAndSourceMessage
      case InitializeUsage => InitializeUsageMessage
    }
  }

  /** The databases to build: the `database` option alone, or every database
      of the configuration in its own order. */
  function TargetDatabases(o: Options, configured: seq<string>): (dbs: seq<string>)
    ensures Given(o.database) ==> dbs == [o.database.value]
    ensures !Given(o.database) ==> dbs == configured
  {
    if Given(o.database) then [o.database.value] else configured
  }

  /** Everything an initialize request must carry. */
  predicate InitializeReady(o: Options) {
    o.initialize && (Given(o.backup) || Given(o.source)) && Given(o.database) &&
    (!Given(o.extension) || o.extension.value == FoundationExtension)
  }

  function InitializeSpec(o: Options, cwd: string): BuildSpec
    requires InitializeReady(o)
  {
    BuildSpec(
      o.database.value,
      if Given(o.extension) then [o.extension.value] else InitializeExtensions,
      ModeFlags(o),
      None,
      true,
      if Given(o.backup) then Some(Resolve(cwd, o.backup.value)) else None,
      if Given(o.source) then Some(Resolve(cwd, o.source.value)) else None)
  }

  /** The `_.map` over the target databases on the explicit-extension path. */
  function ExtensionSpecs(databases: seq<string>, o: Options, cwd: string): seq<BuildSpec>
    requires Given(o.extension)
  {
    var extension := Resolve(cwd, o.extension.value);
    seq(|databases|, i requires 0 <= i < |databases| =>
      BuildSpec(databases[i], [extension], ModeFlags(o), Some(o.frozen), false, None, None))
  }

  /** The planner. `configured` is the database list of the configuration. */
  function PlanRequest(o: Options, cwd: string, configured: seq<string>): (p: Plan)
    // the checks in priority order
    ensures p == MakeUpYourMind <==> o.clientOnly && o.databaseOnly
    ensures p == BackupAndSource <==> !(o.clientOnly && o.databaseOnly) && Given(o.backup) && Given(o.source)
    ensures p == InitializeUsage <==>
      !(o.clientOnly && o.databaseOnly) && !(Given(o.backup) && Given(o.source)) &&
      (o.initialize || Given(o.backup) || Given(o.source)) && !InitializeReady(o)
    ensures p.IsRejection() <==>
      (o.clientOnly && o.databaseOnly) || (Given(o.backup) && Given(o.source)) ||
      ((o.initialize || Given(o.backup) || Given(o.source)) && !InitializeReady(o))
    ensures p.Initialize? <==> !(o.clientOnly && o.databaseOnly) && !(Given(o.backup) && Given(o.source)) && InitializeReady(o)
    ensures p.ExplicitExtension? || p.RegisteredExtensions? ==> !o.initialize && !Given(o.backup) && !Given(o.source)
    ensures p.ExplicitExtension? <==> !p.IsRejection() && !p.Initialize? && Given(o.extension)
    // the initialize path: one spec, exactly one of backup and source
    ensures p.Initialize? ==>
      var s := p.spec;
      s.initialize && s.database == o.database.value && s.flags == ModeFlags(o) && s.frozen.None? &&
      (s.backup.Some? != s.source.Some?) &&
      s.backup == (if Given(o.backup) then Some(Resolve(cwd, o.backup.value)) else None) &&
      s.source == (if Given(o.source) then Some(Resolve(cwd, o.source.value)) else None) &&
      s.extensions == (if Given(o.extension) then [FoundationExtension] else InitializeExtensions)
    // the explicit-extension path: one spec per target database, in order
    ensures p.ExplicitExtension? ==>
      var dbs := TargetDatabases(o, configured);
      p.unregister == o.unregister && |p.specs| == |dbs| &&
      forall i :: 0 <= i < |p.specs| ==>
        p.specs[i].database == dbs[i] &&
        p.specs[i].extensions == [Resolve(cwd, o.extension.value)] &&
        p.specs[i].flags == ModeFlags(o) && p.specs[i].frozen == Some(o.frozen) &&
        !p.specs[i].initialize && p.specs[i].backup.None? && p.specs[i].source.None?
    // the default path
    ensures p.RegisteredExtensions? ==> p.databases == TargetDatabases(o, configured) && !Given(o.extension)
  {
    if o.clientOnly && o.databaseOnly then MakeUpYourMind
    else if Given(o.backup) && Given(o.source) then BackupAndSource
    else if InitializeReady(o) then Initialize(InitializeSpec(o, cwd))
    else if o.initialize || Given(o.backup) || Given(o.source) then InitializeUsage
    else if Given(o.extension) then ExplicitExtension(ExtensionSpecs(TargetDatabases(o, configured), o, cwd), o.unregister)
    else RegisteredExtensions(TargetDatabases(o, configured))
  }

  /** With an absolute working directory, every path the planner puts into a
      build specification from the options is absolute, except the literal
      `foundation-database` marker of an initialize request. */
  lemma PlannedPathsAbsolute(o: Options, cwd: string, configured: seq<string>)
    requires IsAbsolute(cwd)
    ensures var p := PlanRequest(o, cwd, configured);
      (p.Initialize? ==> (p.spec.backup.Some? ==> IsAbsolute(p.spec.backup.value)) &&
                         (p.spec.source.Some? ==> IsAbsolute(p.spec.source.value))) &&
      (p.ExplicitExtension? ==> forall s :: s in p.specs ==> IsAbsolute(s.extensions[0]))
  {
  }
}
