/** The pipeline of `buildAll`: `async.series` over three steps (install the
    npm extensions, build the client, build the database), stopping at the
    first error, and the summary message handed back on success. */
module Pipeline {
  import opened Paths
  import opened Specs

  /** The answers of the pipeline's collaborators: loading npm, installing one
      package by name, the client build and the database build. */
  datatype Builders = Builders(npmLoad: Outcome, install: string -> Outcome, buildClient: Outcome, buildDatabase: Outcome)

  /** Every extension path of every spec, spec by spec (the `_.reduce` that
      pushes and flattens). */
  function AllExtensions(specs: seq<BuildSpec>): seq<string> {
    if specs == [] then [] else specs[0].extensions + AllExtensions(specs[1..])
  }

  lemma {:induction false} AllExtensionsMembers(specs: seq<BuildSpec>)
    ensures forall p :: p in AllExtensions(specs) <==> exists k :: 0 <= k < |specs| && p in specs[k].extensions
  {
    if specs != [] {
      AllExtensionsMembers(specs[1..]);
      forall p | exists k :: 0 <= k < |specs| && p in specs[k].extensions
        ensures p in AllExtensions(specs)
      {
        var k :| 0 <= k < |specs| && p in specs[k].extensions;
        if k > 0 {
          assert specs[1..][k - 1] == specs[k];
        }
      }
    }
  }

  /** The `_.filter` that keeps the paths containing "node_modules", in order. */
  function NpmOnly(paths: seq<string>): (r: seq<string>)
    ensures |r| <= |paths|
  {
    if paths == [] then []
    else (if Contains(paths[0], NpmMarker) then [paths[0]] else []) + NpmOnly(paths[1..])
  }

  lemma {:induction false} NpmOnlyMembers(paths: seq<string>)
    ensures forall p :: p in NpmOnly(paths) <==> p in paths && Contains(p, NpmMarker)
  {
    if paths != [] {
      NpmOnlyMembers(paths[1..]);
      assert paths == [paths[0]] + paths[1..];
    }
  }

  /** Without a path under node_modules the filter keeps nothing. */
  lemma {:induction false} NpmOnlyNone(paths: seq<string>)
    requires forall p :: p in paths ==> !Contains(p, NpmMarker)
    ensures NpmOnly(paths) == []
  {
    if paths != [] {
      assert paths[0] in paths;
      assert forall p :: p in paths[1..] ==> p in paths;
      NpmOnlyNone(paths[1..]);
    }
  }

  /** The extension paths the install step looks at. */
  function NpmPaths(specs: seq<BuildSpec>): seq<string> {
    NpmOnly(AllExtensions(specs))
  }

  /** The install step selects exactly the extension paths of the specs that
      contain the npm marker. */
  lemma NpmPathsMembers(specs: seq<BuildSpec>)
    ensures forall p :: p in NpmPaths(specs) <==>
      Contains(p, NpmMarker) && exists k :: 0 <= k < |specs| && p in specs[k].extensions
  {
    AllExtensionsMembers(specs);
    NpmOnlyMembers(AllExtensions(specs));
  }

  /** The package names requested: the last component of each npm path. */
  function Basenames(paths: seq<string>): (names: seq<string>)
    ensures |names| == |paths|
  {
    if paths == [] then [] else [Basename(paths[0])] + Basenames(paths[1..])
  }

  lemma {:induction false} BasenamesAt(paths: seq<string>)
    ensures forall i :: 0 <= i < |paths| ==> Basenames(paths)[i] == Basename(paths[i])
  {
    if paths != [] {
      BasenamesAt(paths[1..]);
    }
  }

  /** The joint result of the installs, taken one after the other: the first
      failure, or success when every install succeeds. */
  function InstallOutcome(names: seq<string>, install: string -> Outcome): Outcome {
    if names == [] then Done
    else if install(names[0]).Failed? then install(names[0])
    else InstallOutcome(names[1..], install)
  }

  /** The install requests made, up to and including the first that fails. */
  function InstallTrace(names: seq<string>, install: string -> Outcome): seq<Event> {
    if names == [] then []
    else [NpmInstall(names[0])] + (if install(names[0]).Failed? then [] else InstallTrace(names[1..], install))
  }

  /** Installs are requested in order and stop at the first failure: the
      requests form a prefix of the names; all succeed exactly when every
      name was requested and none failed; a failure is the last request's. */
  lemma {:induction false} InstallFailFast(names: seq<string>, install: string -> Outcome)
    ensures var t := InstallTrace(names, install);
      |t| <= |names| &&
      (forall i :: 0 <= i < |t| ==> t[i] == NpmInstall(names[i])) &&
      (forall i :: 0 <= i < |t| - 1 ==> install(names[i]) == Done) &&
      (InstallOutcome(names, install) == Done <==> forall i :: 0 <= i < |names| ==> install(names[i]) == Done) &&
      (InstallOutcome(names, install) == Done ==> |t| == |names|) &&
      (InstallOutcome(names, install).Failed? ==> |t| > 0 && install(names[|t| - 1]) == InstallOutcome(names, install))
  {
    if names != [] {
      InstallFailFast(names[1..], install);
      var rest := InstallTrace(names[1..], install);
      if install(names[0]).Done? {
        assert InstallTrace(names, install) == [NpmInstall(names[0])] + rest;
        assert forall i :: 1 <= i < |names| ==> names[1..][i - 1] == names[i];
        if forall i :: 0 <= i < |names| ==> install(names[i]) == Done {
          assert forall i :: 0 <= i < |names| - 1 ==> install(names[1..][i]) == Done;
        }
      }
    }
  }

  /** Every request of the installs is an install request. */
  lemma {:induction false} InstallTraceRequests(names: seq<string>, install: string -> Outcome)
    ensures forall e :: e in InstallTrace(names, install) ==> e.NpmInstall?
  {
    if names != [] {
      InstallTraceRequests(names[1..], install);
    }
  }

  /** The install step on the npm paths of the specs: nothing to do without
      any; otherwise load npm and install every package. */
  function InstallStep(paths: seq<string>, b: Builders): Outcome {
    if paths == [] then Done
    else if b.npmLoad.Failed? then b.npmLoad
    else InstallOutcome(Basenames(paths), b.install)
  }

  function InstallStepTrace(paths: seq<string>, b: Builders): seq<Event> {
    if paths == [] then []
    else [NpmLoad] + (if b.npmLoad.Failed? then [] else InstallTrace(Basenames(paths), b.install))
  }

  /** The summary line of one extension directory. */
  function Line(extension: string): string {
    "  " + extension + "\n"
  }

  /** The directory lines of one spec. */
  function Lines(extensions: seq<string>): string {
    if extensions == [] then "" else Line(extensions[0]) + Lines(extensions[1..])
  }

  lemma {:induction false} LinesAppend(a: seq<string>, b: seq<string>)
    ensures Lines(a + b) == Lines(a) + Lines(b)
  {
    if a == [] {
      assert a + b == b;
    } else {
      assert (a + b)[1..] == a[1..] + b;
      LinesAppend(a[1..], b);
    }
  }

  /** The heading of the block that describes one spec. */
  function Header(database: string): string {
    "Database: " + database + "\nDirectories:\n"
  }

  /** The block of the summary that describes one spec. */
  function Block(spec: BuildSpec): string {
    Header(spec.database) + Lines(spec.extensions)
  }

  function Blocks(specs: seq<BuildSpec>): string {
    if specs == [] then "" else Block(specs[0]) + Blocks(specs[1..])
  }

  /** One block per spec, in spec order. */
  lemma {:induction false} BlocksAppend(a: seq<BuildSpec>, b: seq<BuildSpec>)
    ensures Blocks(a + b) == Blocks(a) + Blocks(b)
  {
    if a == [] {
      assert a + b == b;
    } else {
      assert (a + b)[1..] == a[1..] + b;
      BlocksAppend(a[1..], b);
    }
  }

  /** The message of a successful build. */
  function SuccessMessage(specs: seq<BuildSpec>): string {
    "Build succeeded." + ("\n" + Blocks(specs))
  }

  lemma BlocksSnoc(specs: seq<BuildSpec>, i: nat)
    requires i < |specs|
    ensures Blocks(specs[..i + 1]) == Blocks(specs[..i]) + Block(specs[i])
  {
    BlocksAppend(specs[..i], [specs[i]]);
    assert specs[..i + 1] == specs[..i] + [specs[i]];
    assert [specs[i]][1..] == [];
  }

  lemma BlockStep(before: string, spec: BuildSpec)
    ensures ("\n" + before + Header(spec.database)) + Lines(spec.extensions) == "\n" + (before + Block(spec))
  {
    assert ("\n" + before + Header(spec.database)) + Lines(spec.extensions)
      == "\n" + (before + (Header(spec.database) + Lines(spec.extensions)));
  }

  /** The inner loop of the summary: one line per extension directory. */
  method AppendLines(message: string, extensions: seq<string>) returns (m: string)
    ensures m == message + Lines(extensions)
  {
    m := message;
    var j := 0;
    while j < |extensions|
      invariant 0 <= j <= |extensions|
      invariant m == message + Lines(extensions[..j])
    {
      LinesAppend(extensions[..j], [extensions[j]]);
      assert extensions[..j + 1] == extensions[..j] + [extensions[j]];
      m := m + Line(extensions[j]);
      j := j + 1;
    }
    assert extensions[..j] == extensions;
  }

  /** The summary as the source assembles it: a heading and the directory
      lines for each spec in turn. */
  method ReturnMessage(specs: seq<BuildSpec>) returns (message: string)
    ensures message == SuccessMessage(specs)
  {
    var returnMessage := "\n";
    var i := 0;
    while i < |specs|
      invariant 0 <= i <= |specs|
      invariant returnMessage == "\n" + Blocks(specs[..i])
    {
      var spec := specs[i];
      ghost var before := Blocks(specs[..i]);
      returnMessage := AppendLines(returnMessage + Header(spec.database), spec.extensions);
      BlockStep(before, spec);
      BlocksSnoc(specs, i);
      i := i + 1;
    }
    assert specs[..i] == specs;
    message := "Build succeeded." + returnMessage;
  }

  /** One install request, and what remains of the step after it. */
  lemma InstallUnfold(requests: seq<Event>, names: seq<string>, i: nat, install: string -> Outcome)
    requires i < |names|
    requires requests + InstallTrace(names[i..], install) == InstallTrace(names, install)
    requires InstallOutcome(names[i..], install) == InstallOutcome(names, install)
    ensures install(names[i]).Failed? ==>
      requests + [NpmInstall(names[i])] == InstallTrace(names, install) &&
      install(names[i]) == InstallOutcome(names, install)
    ensures install(names[i]).Done? ==>
      (requests + [NpmInstall(names[i])]) + InstallTrace(names[i + 1..], install) == InstallTrace(names, install) &&
      InstallOutcome(names[i + 1..], install) == InstallOutcome(names, install)
  {
    assert names[i..][1..] == names[i + 1..];
    if install(names[i]).Failed? {
      assert InstallTrace(names[i..], install) == [NpmInstall(names[i])];
    } else {
      var rest := InstallTrace(names[i + 1..], install);
      assert InstallTrace(names[i..], install) == [NpmInstall(names[i])] + rest;
      assert requests + ([NpmInstall(names[i])] + rest) == (requests + [NpmInstall(names[i])]) + rest;
    }
  }

  /** The installs of step 1, one package after the other, stopping at the
      first failure. */
  method InstallPackages(names: seq<string>, install: string -> Outcome) returns (outcome: Outcome, requests: seq<Event>)
    ensures outcome == InstallOutcome(names, install)
    ensures requests == InstallTrace(names, install)
  {
    requests := [];
    var i := 0;
    while i < |names|
      invariant 0 <= i <= |names|
      invariant requests + InstallTrace(names[i..], install) == InstallTrace(names, install)
      invariant InstallOutcome(names[i..], install) == InstallOutcome(names, install)
    {
      var result := install(names[i]);
      InstallUnfold(requests, names, i, install);
      requests := requests + [NpmInstall(names[i])];
      if result.Failed? {
        outcome := result;
        return;
      }
      i := i + 1;
    }
    assert requests + [] == requests;
    outcome := Done;
  }

  /** The reply and the calls of `buildAll`. The series' own final callback
      (SeriesDone) is skipped when the database build fails: that error goes
      to the caller directly. */
  function PipelineRun(specs: seq<BuildSpec>, creds: Credentials, b: Builders): Run {
    var paths := NpmPaths(specs);
    var installed := InstallStep(paths, b);
    var steps := InstallStepTrace(paths, b);
    if installed.Failed? then
      Run(Failure(installed.err), steps + [SeriesDone])
    else if b.buildClient.Failed? then
      Run(Failure(b.buildClient.err), steps + [BuildClient(specs), SeriesDone])
    else if b.buildDatabase.Failed? then
      Run(Failure(b.buildDatabase.err), steps + [BuildClient(specs), BuildDatabase(specs, creds)])
    else
      Run(Success(SuccessMessage(specs)), steps + [BuildClient(specs), BuildDatabase(specs, creds), SeriesDone])
  }

  /** Step 1 of the series: nothing to do without npm paths; otherwise load
      npm and install the packages. */
  method InstallNpmPackages(paths: seq<string>, b: Builders) returns (outcome: Outcome, requests: seq<Event>)
    ensures outcome == InstallStep(paths, b)
    ensures requests == InstallStepTrace(paths, b)
  {
    if paths == [] {
      return Done, [];
    }
    requests := [NpmLoad];
    if b.npmLoad.Failed? {
      outcome := b.npmLoad;
    } else {
      var installs;
      outcome, installs := InstallPackages(Basenames(paths), b.install);
      requests := requests + installs;
    }
  }

  /** `buildAll`: the three steps of the series, one after the other. */
  method BuildAll(specs: seq<BuildSpec>, creds: Credentials, b: Builders) returns (reply: Reply, trace: seq<Event>)
    ensures Run(reply, trace) == PipelineRun(specs, creds, b)
  {
    // step 1: npm install the extensions that live in node_modules
    var installed;
    installed, trace := InstallNpmPackages(NpmPaths(specs), b);
    if installed.Failed? {
      reply, trace := Failure(installed.err), trace + [SeriesDone];
      return;
    }
    // step 2: build the client
    trace := trace + [BuildClient(specs)];
    if b.buildClient.Failed? {
      reply, trace := Failure(b.buildClient.err), trace + [SeriesDone];
      return;
    }
    // step 3: build the database; its error goes straight to the caller
    trace := trace + [BuildDatabase(specs, creds)];
    if b.buildDatabase.Failed? {
      reply := Failure(b.buildDatabase.err);
      return;
    }
    var message := ReturnMessage(specs);
    reply, trace := Success(message), trace + [SeriesDone];
  }

  /** Where an event belongs in the series: 1 install, 2 client, 3 database,
      4 completion of the series; 0 for calls outside the pipeline. */
  function Stage(e: Event): nat {
    match e
    case NpmLoad => 1
    case NpmInstall(_) => 1
    case BuildClient(_) => 2
    case BuildDatabase(_, _) => 3
    case SeriesDone => 4
    case _ => 0
  }

  /** The events belong to the pipeline and no event of a later step comes
      before one of an earlier step. */
  predicate InOrder(t: seq<Event>) {
    (forall i :: 0 <= i < |t| ==> 1 <= Stage(t[i])) &&
    (forall i, j :: 0 <= i < j < |t| ==> Stage(t[i]) <= Stage(t[j]))
  }

  /** Step 1 calls npm only, loading it before any install, and calls
      nothing at all without npm paths. */
  lemma InstallStepShape(paths: seq<string>, b: Builders)
    ensures var t := InstallStepTrace(paths, b);
      (forall i :: 0 <= i < |t| ==> Stage(t[i]) == 1) &&
      (t == [] <==> paths == []) &&
      (t != [] ==> t[0] == NpmLoad)
  {
    InstallTraceRequests(Basenames(paths), b.install);
  }

  lemma InOrderAppend(steps: seq<Event>, rest: seq<Event>)
    requires forall i :: 0 <= i < |steps| ==> Stage(steps[i]) == 1
    requires InOrder(rest)
    ensures InOrder(steps + rest)
  {
    var t := steps + rest;
    forall i | 0 <= i < |t|
      ensures 1 <= Stage(t[i])
    {
      if i >= |steps| {
        assert t[i] == rest[i - |steps|];
      } else {
        assert t[i] == steps[i];
      }
    }
    forall i, j | 0 <= i < j < |t|
      ensures Stage(t[i]) <= Stage(t[j])
    {
      if j >= |steps| {
        assert t[j] == rest[j - |steps|];
        if i >= |steps| {
          assert t[i] == rest[i - |steps|];
        } else {
          assert t[i] == steps[i];
        }
      } else {
        assert t[i] == steps[i] && t[j] == steps[j];
      }
    }
  }

  /** What can follow step 1 is in order. */
  lemma LaterStepsInOrder(specs: seq<BuildSpec>, creds: Credentials)
    ensures InOrder([SeriesDone])
    ensures InOrder([BuildClient(specs), SeriesDone])
    ensures InOrder([BuildClient(specs), BuildDatabase(specs, creds)])
    ensures InOrder([BuildClient(specs), BuildDatabase(specs, creds), SeriesDone])
  {
  }

  /** The steps run in order: install, client, database, completion. */
  lemma StepsInOrder(specs: seq<BuildSpec>, creds: Credentials, b: Builders)
    ensures InOrder(PipelineRun(specs, creds, b).trace)
  {
    var paths := NpmPaths(specs);
    var steps := InstallStepTrace(paths, b);
    InstallStepShape(paths, b);
    LaterStepsInOrder(specs, creds);
    if InstallStep(paths, b).Failed? {
      InOrderAppend(steps, [SeriesDone]);
    } else if b.buildClient.Failed? {
      InOrderAppend(steps, [BuildClient(specs), SeriesDone]);
    } else if b.buildDatabase.Failed? {
      InOrderAppend(steps, [BuildClient(specs), BuildDatabase(specs, creds)]);
    } else {
      InOrderAppend(steps, [BuildClient(specs), BuildDatabase(specs, creds), SeriesDone]);
    }
  }

  /** The first error stops every later step and is what the caller gets;
      the caller gets the summary exactly when all three steps succeed. A
      database-build error reaches the caller without the series completing. */
  lemma FirstErrorStops(specs: seq<BuildSpec>, creds: Credentials, b: Builders)
    ensures var r := PipelineRun(specs, creds, b);
      var installed := InstallStep(NpmPaths(specs), b);
      (installed.Failed? ==>
        r.reply == Failure(installed.err) && forall e :: e in r.trace ==> Stage(e) != 2 && Stage(e) != 3) &&
      (installed.Done? && b.buildClient.Failed? ==>
        r.reply == Failure(b.buildClient.err) && forall e :: e in r.trace ==> Stage(e) != 3) &&
      (installed.Done? && b.buildClient.Done? && b.buildDatabase.Failed? ==>
        r.reply == Failure(b.buildDatabase.err) && SeriesDone !in r.trace &&
        r.trace[|r.trace| - 1] == BuildDatabase(specs, creds)) &&
      (r.reply.Success? <==> installed.Done? && b.buildClient.Done? && b.buildDatabase.Done?) &&
      (r.reply.Success? ==> r.reply.message == SuccessMessage(specs)) &&
      !r.reply.Uncaught?
  {
    var paths := NpmPaths(specs);
    var steps := InstallStepTrace(paths, b);
    var t := PipelineRun(specs, creds, b).trace;
    InstallStepStages(paths, b);
    if InstallStep(paths, b).Failed? {
      assert t == steps + [SeriesDone];
      forall e | e in t
        ensures Stage(e) != 2 && Stage(e) != 3
      {
        assert e in steps || e == SeriesDone;
      }
    } else if b.buildClient.Failed? {
      assert t == steps + [BuildClient(specs), SeriesDone];
      forall e | e in t
        ensures Stage(e) != 3
      {
        assert e in steps || e == BuildClient(specs) || e == SeriesDone;
      }
    } else if b.buildDatabase.Failed? {
      assert t == steps + [BuildClient(specs), BuildDatabase(specs, creds)];
      assert SeriesDone !in steps;
    }
  }

  /** Every call of step 1 is an npm call. */
  lemma InstallStepStages(paths: seq<string>, b: Builders)
    ensures forall e :: e in InstallStepTrace(paths, b) ==> Stage(e) == 1
  {
    var steps := InstallStepTrace(paths, b);
    InstallStepShape(paths, b);
    forall e | e in steps
      ensures Stage(e) == 1
    {
      var i :| 0 <= i < |steps| && steps[i] == e;
    }
  }

  /** When no extension path of any spec lies under node_modules, step 1
      calls nothing and succeeds. */
  lemma NoNpmPathsNoInstall(specs: seq<BuildSpec>, b: Builders)
    requires forall k, p :: 0 <= k < |specs| && p in specs[k].extensions ==> !Contains(p, NpmMarker)
    ensures InstallStep(NpmPaths(specs), b) == Done && InstallStepTrace(NpmPaths(specs), b) == []
  {
    AllExtensionsMembers(specs);
    NpmOnlyNone(AllExtensions(specs));
  }

  /** Once npm is loaded, the packages are requested by name in path order,
      each one only after the one before it succeeded; the step succeeds
      exactly when every install does, and then every package was requested. */
  lemma InstallStepCalls(paths: seq<string>, b: Builders)
    requires paths != [] && b.npmLoad.Done?
    ensures InstallStepTrace(paths, b)[0] == NpmLoad
    ensures |InstallStepTrace(paths, b)| <= |Basenames(paths)| + 1
    ensures forall i :: 1 <= i < |InstallStepTrace(paths, b)| ==>
      InstallStepTrace(paths, b)[i] == NpmInstall(Basenames(paths)[i - 1])
    ensures InstallStep(paths, b) == Done <==> forall i :: 0 <= i < |paths| ==> b.install(Basenames(paths)[i]) == Done
    ensures InstallStep(paths, b) == Done ==> |InstallStepTrace(paths, b)| == |paths| + 1
  {
    var names := Basenames(paths);
    InstallFailFast(names, b.install);
    var requests := InstallTrace(names, b.install);
    var t := InstallStepTrace(paths, b);
    assert t == [NpmLoad] + requests;
    assert InstallStep(paths, b) == InstallOutcome(names, b.install);
    forall i | 1 <= i < |t|
      ensures t[i] == NpmInstall(names[i - 1])
    {
      assert t[i] == requests[i - 1];
    }
  }
}
