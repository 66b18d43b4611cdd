/** `exports.build(options, callback)`: load the configuration, adapt the
    credentials, dispatch the request and run it — an immediate usage error,
    the pipeline on one initialize spec, the unregister utility or the
    pipeline on the explicit-extension specs, or registry discovery on every
    target database followed by the pipeline. */
module BuildCommand {
  import opened Paths
  import opened Specs
  import opened Planner
  import opened Discovery
  import opened Pipeline

  /** What the build's collaborators answer: the configuration file loaded
      from a path, the registry of each database, the pipeline's builders,
      and the reply of the unregister utility. */
  datatype Collaborators = Collaborators(
    config: string -> Config,
    registry: string -> Registry,
    builders: Builders,
    unregister: Reply)

  /** The outcome of discovery over a list of databases: the specs found up
      to the first failure, that failure if any, and the queries made. */
  datatype Discoveries = Discoveries(specs: seq<BuildSpec>, failure: Option<Error>, trace: seq<Event>)

  /** The `async.map` of `getRegisteredExtensions` over the databases, one
      database after the other, stopping at the first failure. */
  function DiscoverEach(databases: seq<string>, creds: Credentials, flags: Flags, registry: string -> Registry): Discoveries
    decreases |databases|
  {
    if databases == [] then Discoveries([], None, [])
    else
      var db := databases[0];
      var t := DiscoveryTrace(db, creds, registry(db));
      match DiscoveryOf(db, flags, registry(db))
      case DiscoveryFailed(e) => Discoveries([], Some(e), t)
      case Discovered(spec) =>
        var rest := DiscoverEach(databases[1..], creds, flags, registry);
        Discoveries([spec] + rest.specs, rest.failure, t + rest.trace)
  }

  /** Discovery succeeds exactly when it succeeds for every database, and then
      yields one spec per database, in database order. */
  lemma {:induction false} DiscoverEachSpecs(databases: seq<string>, creds: Credentials, flags: Flags, registry: string -> Registry)
    ensures var found := DiscoverEach(databases, creds, flags, registry);
      found.failure.None? <==>
        forall i :: 0 <= i < |databases| ==> DiscoveryOf(databases[i], flags, registry(databases[i])).Discovered?
    ensures var found := DiscoverEach(databases, creds, flags, registry);
      found.failure.None? ==>
        |found.specs| == |databases| &&
        forall i :: 0 <= i < |databases| ==> found.specs[i] == DiscoveryOf(databases[i], flags, registry(databases[i])).spec
    decreases |databases|
  {
    if databases != [] {
      var tail := databases[1..];
      DiscoverEachSpecs(tail, creds, flags, registry);
      var found := DiscoverEach(databases, creds, flags, registry);
      var d := DiscoveryOf(databases[0], flags, registry(databases[0]));
      var rest := DiscoverEach(tail, creds, flags, registry);
      if d.Discovered? {
        assert found.failure == rest.failure && found.specs == [d.spec] + rest.specs;
        forall i | 1 <= i < |databases|
          ensures DiscoveryOf(databases[i], flags, registry(databases[i])) == DiscoveryOf(tail[i - 1], flags, registry(tail[i - 1]))
        {
          assert databases[i] == tail[i - 1];
        }
      } else {
        assert found.failure.Some?;
      }
    }
  }

  /** A failure of discovery is the failure of the first database whose
      discovery fails. */
  lemma {:induction false} DiscoverEachFirstFailure(databases: seq<string>, creds: Credentials, flags: Flags, registry: string -> Registry)
    ensures var found := DiscoverEach(databases, creds, flags, registry);
      found.failure.Some? ==>
        exists i :: 0 <= i < |databases| &&
          DiscoveryOf(databases[i], flags, registry(databases[i])) == DiscoveryFailed(found.failure.value) &&
          forall j :: 0 <= j < i ==> DiscoveryOf(databases[j], flags, registry(databases[j])).Discovered?
    decreases |databases|
  {
    if databases != [] {
      var tail := databases[1..];
      var found := DiscoverEach(databases, creds, flags, registry);
      var d := DiscoveryOf(databases[0], flags, registry(databases[0]));
      if d.Discovered? {
        var rest := DiscoverEach(tail, creds, flags, registry);
        assert found.failure == rest.failure;
        if rest.failure.Some? {
          DiscoverEachFirstFailure(tail, creds, flags, registry);
          var k :| 0 <= k < |tail| &&
            DiscoveryOf(tail[k], flags, registry(tail[k])) == DiscoveryFailed(rest.failure.value) &&
            forall j :: 0 <= j < k ==> DiscoveryOf(tail[j], flags, registry(tail[j])).Discovered?;
          assert databases[k + 1] == tail[k];
          forall j | 0 <= j < k + 1
            ensures DiscoveryOf(databases[j], flags, registry(databases[j])).Discovered?
          {
            if j > 0 {
              assert databases[j] == tail[j - 1];
            }
          }
        }
      } else {
        assert found.failure == Some(d.err);
      }
    }
  }

  /** Discovery only ever queries the databases. */
  lemma {:induction false} DiscoverEachQueriesOnly(databases: seq<string>, creds: Credentials, flags: Flags, registry: string -> Registry)
    ensures forall e :: e in DiscoverEach(databases, creds, flags, registry).trace ==> e.QueryExists? || e.QueryRegistry?
    decreases |databases|
  {
    if databases != [] {
      DiscoverEachQueriesOnly(databases[1..], creds, flags, registry);
    }
  }

  /** Discoveries gathered so far, followed by those of the remaining databases. */
  function Joined(specs: seq<BuildSpec>, trace: seq<Event>, rest: Discoveries): Discoveries {
    Discoveries(specs + rest.specs, rest.failure, trace + rest.trace)
  }

  /** One database's discovery, and what remains after it. */
  lemma DiscoverUnfold(specs: seq<BuildSpec>, trace: seq<Event>, databases: seq<string>, i: nat,
                       creds: Credentials, flags: Flags, registry: string -> Registry)
    requires i < |databases|
    requires Joined(specs, trace, DiscoverEach(databases[i..], creds, flags, registry)) == DiscoverEach(databases, creds, flags, registry)
    ensures var db := databases[i];
      var t := DiscoveryTrace(db, creds, registry(db));
      match DiscoveryOf(db, flags, registry(db))
      case DiscoveryFailed(e) =>
        Discoveries(specs, Some(e), trace + t) == DiscoverEach(databases, creds, flags, registry)
      case Discovered(spec) =>
        Joined(specs + [spec], trace + t, DiscoverEach(databases[i + 1..], creds, flags, registry)) ==
          DiscoverEach(databases, creds, flags, registry)
  {
    var suffix := databases[i..];
    assert suffix[0] == databases[i] && suffix[1..] == databases[i + 1..];
    var db := databases[i];
    var t := DiscoveryTrace(db, creds, registry(db));
    match DiscoveryOf(db, flags, registry(db)) {
      case DiscoveryFailed(e) =>
        assert DiscoverEach(suffix, creds, flags, registry) == Discoveries([], Some(e), t);
        assert specs + [] == specs;
      case Discovered(spec) =>
        var rest := DiscoverEach(databases[i + 1..], creds, flags, registry);
        assert DiscoverEach(suffix, creds, flags, registry) == Discoveries([spec] + rest.specs, rest.failure, t + rest.trace);
        assert specs + ([spec] + rest.specs) == (specs + [spec]) + rest.specs;
        assert trace + (t + rest.trace) == (trace + t) + rest.trace;
    }
  }

  /** Discovery over the target databases, each in turn, up to the first
      failure. */
  method DiscoverAll(databases: seq<string>, creds: Credentials, flags: Flags, registry: string -> Registry)
    returns (found: Discoveries)
    ensures found == DiscoverEach(databases, creds, flags, registry)
  {
    var specs := [];
    var trace := [];
    var i := 0;
    while i < |databases|
      invariant 0 <= i <= |databases|
      invariant Joined(specs, trace, DiscoverEach(databases[i..], creds, flags, registry)) == DiscoverEach(databases, creds, flags, registry)
    {
      var d, t := GetRegisteredExtensions(databases[i], creds, flags, registry(databases[i]));
      DiscoverUnfold(specs, trace, databases, i, creds, flags, registry);
      trace := trace + t;
      match d {
        case DiscoveryFailed(e) =>
          found := Discoveries(specs, Some(e), trace);
          return;
        case Discovered(spec) =>
          specs := specs + [spec];
      }
      i := i + 1;
    }
    assert specs + [] == specs && trace + [] == trace;
    found := Discoveries(specs, None, trace);
  }

  /** The default path as written: the error of `async.map` is never looked
      at, so a failed discovery hands the pipeline a result list with a hole,
      and reading the extensions of the missing spec throws before any
      callback runs. */
  function RegisteredRun(databases: seq<string>, creds: Credentials, flags: Flags, env: Collaborators): Run {
    var found := DiscoverEach(databases, creds, flags, env.registry);
    if found.failure.Some? then Run(Uncaught, found.trace)
    else
      var r := PipelineRun(found.specs, creds, env.builders);
      Run(r.reply, found.trace + r.trace)
  }

  /** The default path as evidently intended: a failed discovery is reported
      to the caller, and nothing is built. */
  function RegisteredRunChecked(databases: seq<string>, creds: Credentials, flags: Flags, env: Collaborators): Run {
    var found := DiscoverEach(databases, creds, flags, env.registry);
    if found.failure.Some? then Run(Failure(found.failure.value), found.trace)
    else
      var r := PipelineRun(found.specs, creds, env.builders);
      Run(r.reply, found.trace + r.trace)
  }

  /** A database whose registry lookup fails: on the default path as written
      the caller never hears back. */
  lemma DiscoveryErrorIsLost()
    ensures var creds := Credentials("localhost", 5432, "admin", "secret", "localhost", "admin", "key", None);
      var registry := (db: string) => Registry(QueryFailed("connection refused"), QueryFailed("connection refused"));
      var builders := Builders(Done, (name: string) => Done, Done, Done);
      var env := Collaborators((path: string) => Config(ServerBlock("localhost", 5432, "admin", "secret"), ["demo"], "key"),
                               registry, builders, Success(""));
      var flags := Flags(false, false, false, false, false);
      RegisteredRun(["demo"], creds, flags, env).reply == Uncaught &&
      RegisteredRunChecked(["demo"], creds, flags, env).reply == Failure("connection refused")
  {
    var creds := Credentials("localhost", 5432, "admin", "secret", "localhost", "admin", "key", None);
    var registry := (db: string) => Registry(QueryFailed("connection refused"), QueryFailed("connection refused"));
    var flags := Flags(false, false, false, false, false);
    assert DiscoveryOf("demo", flags, registry("demo")) == DiscoveryFailed("connection refused");
    assert ["demo"][1..] == [];
  }

  /** The corrected default path always answers: with the first discovery
      error and no build at all, or with the pipeline's reply after querying
      every database. Where discovery succeeds it agrees with the code as
      written. */
  lemma RegisteredRunCheckedAnswers(databases: seq<string>, creds: Credentials, flags: Flags, env: Collaborators)
    ensures var found := DiscoverEach(databases, creds, flags, env.registry);
      var r := RegisteredRunChecked(databases, creds, flags, env);
      !r.reply.Uncaught? &&
      (found.failure.Some? ==> r.reply == Failure(found.failure.value) && forall e :: e in r.trace ==> Stage(e) == 0) &&
      (found.failure.None? ==>
        r == RegisteredRun(databases, creds, flags, env) && r.reply == PipelineRun(found.specs, creds, env.builders).reply)
  {
    var found := DiscoverEach(databases, creds, flags, env.registry);
    DiscoverEachQueriesOnly(databases, creds, flags, env.registry);
    if found.failure.None? {
      FirstErrorStops(found.specs, creds, env.builders);
    }
  }

  /** The run of a planned request: a usage error is answered at once; the
      other requests call the unregister utility, the pipeline, or discovery
      followed by the pipeline. */
  function RunPlan(plan: Plan, creds: Credentials, flags: Flags, env: Collaborators): Run {
    if plan.IsRejection() then Run(Failure(plan.Message()), [])
    else match plan
      case Initialize(spec) => PipelineRun([spec], creds, env.builders)
      case ExplicitExtension(specs, unregister) =>
        if unregister then Run(env.unregister, [Unregister(specs, creds)])
        else PipelineRun(specs, creds, env.builders)
      case RegisteredExtensions(databases) => RegisteredRunChecked(databases, creds, flags, env)
  }

  /** The whole build: configuration, credentials, dispatch, and the run of
      the chosen request. */
  function BuildRun(o: Options, cwd: string, env: Collaborators): Run {
    var config := env.config(ConfigPath(o, cwd));
    RunPlan(PlanRequest(o, cwd, config.databases), AdaptCredentials(config), ModeFlags(o), env)
  }

  /** `exports.build`, branch by branch in the order the source checks them. */
  method Build(o: Options, cwd: string, env: Collaborators) returns (reply: Reply, trace: seq<Event>)
    ensures Run(reply, trace) == BuildRun(o, cwd, env)
  {
    var config := env.config(ConfigPath(o, cwd));
    var creds := AdaptCredentials(config);
    var databases := TargetDatabases(o, config.databases);
    if o.clientOnly && o.databaseOnly {
      reply, trace := Failure(MakeUpYourMindMessage), [];
    } else if Given(o.backup) && Given(o.source) {
      reply, trace := Failure(BackupAndSourceMessage), [];
    } else if InitializeReady(o) {
      reply, trace := BuildAll([InitializeSpec(o, cwd)], creds, env.builders);
    } else if o.initialize || Given(o.backup) || Given(o.source) {
      reply, trace := Failure(InitializeUsageMessage), [];
    } else if Given(o.extension) {
      var specs := ExtensionSpecs(databases, o, cwd);
      if o.unregister {
        reply, trace := env.unregister, [Unregister(specs, creds)];
      } else {
        reply, trace := BuildAll(specs, creds, env.builders);
      }
    } else {
      var found := DiscoverAll(databases, creds, ModeFlags(o), env.registry);
      if found.failure.Some? {
        reply, trace := Failure(found.failure.value), found.trace;
      } else {
        var steps;
        reply, steps := BuildAll(found.specs, creds, env.builders);
        trace := found.trace + steps;
      }
    }
  }

  /** A usage error is answered at once, with its message, and calls nothing;
      every other request calls at least one collaborator. */
  lemma RejectionsCallNothing(plan: Plan, creds: Credentials, flags: Flags, env: Collaborators)
    ensures plan.IsRejection() ==> RunPlan(plan, creds, flags, env).trace == []
    ensures !plan.IsRejection() ==> exists e :: e in RunPlan(plan, creds, flags, env).trace && e != SeriesDone
    ensures plan == MakeUpYourMind ==> RunPlan(plan, creds, flags, env).reply == Failure("Make up your mind.")
    ensures plan == BackupAndSource ==>
      RunPlan(plan, creds, flags, env).reply == Failure("You can build from backup or from source but not both.")
    ensures plan == InitializeUsage ==> RunPlan(plan, creds, flags, env).reply == Failure(InitializeUsageMessage)
  {
    var t := RunPlan(plan, creds, flags, env).trace;
    match plan {
      case Initialize(spec) =>
        PipelineCallsCollaborator([spec], creds, env.builders);
      case ExplicitExtension(specs, unregister) =>
        if unregister {
          assert t[0] in t;
        } else {
          PipelineCallsCollaborator(specs, creds, env.builders);
        }
      case RegisteredExtensions(databases) =>
        var found := DiscoverEach(databases, creds, flags, env.registry);
        if databases != [] {
          assert found.trace[0] == DiscoveryTrace(databases[0], creds, env.registry(databases[0]))[0];
          assert t[0] in t;
        } else {
          var r := PipelineRun(found.specs, creds, env.builders);
          PipelineCallsCollaborator(found.specs, creds, env.builders);
          var e :| e in r.trace && 1 <= Stage(e) <= 3;
          assert found.trace == [] && t == [] + r.trace;
          assert e in t;
        }
      case _ =>
    }
  }

  /** The pipeline always calls a collaborator of one of its three steps:
      npm, the client build or the database build. */
  lemma PipelineCallsCollaborator(specs: seq<BuildSpec>, creds: Credentials, b: Builders)
    ensures exists e :: e in PipelineRun(specs, creds, b).trace && 1 <= Stage(e) <= 3
  {
    var paths := NpmPaths(specs);
    var steps := InstallStepTrace(paths, b);
    var t := PipelineRun(specs, creds, b).trace;
    InstallStepShape(paths, b);
    if steps != [] {
      assert t[0] == steps[0];
      assert t[0] in t;
    } else {
      assert InstallStep(paths, b) == Done;
      assert t[0] == BuildClient(specs);
      assert t[0] in t;
    }
  }

  /** The unregister utility is called exactly for an explicit-extension
      request with the unregister option, and then it is the only call. */
  lemma UnregisterRouting(plan: Plan, creds: Credentials, flags: Flags, env: Collaborators)
    ensures var t := RunPlan(plan, creds, flags, env).trace;
      (exists e :: e in t && e.Unregister?) <==> plan.ExplicitExtension? && plan.unregister
    ensures plan.ExplicitExtension? && plan.unregister ==>
      RunPlan(plan, creds, flags, env) == Run(env.unregister, [Unregister(plan.specs, creds)])
  {
    var t := RunPlan(plan, creds, flags, env).trace;
    match plan {
      case Initialize(spec) =>
        PipelineNeverUnregisters([spec], creds, env.builders);
      case ExplicitExtension(specs, unregister) =>
        if !unregister {
          PipelineNeverUnregisters(specs, creds, env.builders);
        } else {
          assert t[0].Unregister?;
        }
      case RegisteredExtensions(databases) =>
        var found := DiscoverEach(databases, creds, flags, env.registry);
        DiscoverEachQueriesOnly(databases, creds, flags, env.registry);
        if found.failure.None? {
          var r := PipelineRun(found.specs, creds, env.builders);
          PipelineNeverUnregisters(found.specs, creds, env.builders);
          assert t == found.trace + r.trace;
        }
      case _ =>
    }
  }

  /** The pipeline never calls the unregister utility. */
  lemma PipelineNeverUnregisters(specs: seq<BuildSpec>, creds: Credentials, b: Builders)
    ensures forall e :: e in PipelineRun(specs, creds, b).trace ==> !e.Unregister?
  {
    var t := PipelineRun(specs, creds, b).trace;
    StepsInOrder(specs, creds, b);
    forall e | e in t
      ensures !e.Unregister?
    {
      var i :| 0 <= i < |t| && t[i] == e;
      assert 1 <= Stage(t[i]);
    }
  }

  /** A database without a registry gets the same extension list as an
      initialize request that names no extension. */
  lemma DefaultsMatchInitialize()
    ensures Infrastructure + MappedPaths(DefaultRows()) == InitializeExtensions
  {
    var rows := DefaultRows();
    MappedPathsAllKnown(rows);
    var mapped := MappedPaths(rows);
    var core := InitializeExtensions[3..];
    assert |mapped| == |core| == 6;
    forall i | 0 <= i < 6
      ensures mapped[i] == core[i]
    {
      assert LocationPath(rows[i]) == Some(Join(CoreExtensionsDir, rows[i].name));
    }
    assert mapped == core;
    assert InitializeExtensions == Infrastructure + core;
  }

  /** A registry row that names an npm package is installed by that name when
      its database is built. */
  lemma NpmRowIsInstalled(database: string, rows: seq<Row>, flags: Flags, k: nat)
    requires k < |rows| && rows[k].location == "npm" && '/' !in rows[k].name
    ensures rows[k].name in Basenames(NpmPaths([DiscoveredSpec(database, rows, flags)]))
  {
    var spec := DiscoveredSpec(database, rows, flags);
    var p := Join(NodeModulesDir, rows[k].name);
    NpmPackagePath(rows[k].name);
    MappedPathsRows(rows);
    assert LocationPath(rows[k]) == Some(p);
    assert p in spec.extensions;
    NpmPathsMembers([spec]);
    assert p in NpmPaths([spec]);
    var paths := NpmPaths([spec]);
    var i :| 0 <= i < |paths| && paths[i] == p;
    BasenamesAt(paths);
  }
}
