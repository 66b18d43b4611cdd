# Build entry point of the xTuple build scripts, modelled in Dafny

This project models `scripts/lib/build_all.js`. That file holds `exports.build(options, callback)`, the entry point behind the build command line and programmatic builds. It has four parts:

- It loads a configuration file and adapts its database-server block into credentials.
- It decides what the request means (the planner).
- For the default request, it asks each database which extensions are registered (`getRegisteredExtensions` with `adaptExtensions`).
- It runs the build pipeline `buildAll`. The pipeline installs the npm-hosted extensions, builds the client, builds the database, and on success returns a summary message.

The model is written as Dafny modules, one per part:

- `Paths`: the path rule, `path.join` and `path.basename`, the `indexOf("node_modules")` test, and the fixed directories of the checkout.
- `Specs`: the options record, build specifications, configuration, credentials, collaborator outcomes and replies, and the events that record collaborator calls.
- `Planner`: the dispatch of `exports.build` as a pure function from options to one of six request kinds.
- `Discovery`: registry discovery for one database. `AdaptExtensions` and `GetRegisteredExtensions` are methods, proved equal to the specification functions `DiscoveredSpec`, `DiscoveryOf` and `DiscoveryTrace`.
- `Pipeline`: `buildAll`.
  - The methods `BuildAll`, `InstallNpmPackages`, `InstallPackages`, `ReturnMessage` and `AppendLines` follow the source's sequencing and its nested message loops.
  - They are proved equal to the specification functions `PipelineRun`, `InstallStep`, `InstallOutcome`, `InstallTrace` and `SuccessMessage`.
- `BuildCommand`: the whole entry point. The method `Build` is proved equal to `BuildRun`; discovery over many databases is `DiscoverAll` / `DiscoverEach`.

Collaborators are not called. Their answers are inputs:

- the configuration loaded from a path;
- each database's answers to the two registry queries;
- npm loading and installing;
- the client build, the database build, and the unregister utility.

Every call the build makes is recorded, in order, as an `Event`. A run is the reply that reaches the callback together with that trace. The reply is `Failure(err)`, `Success(message)`, or `Uncaught` when an exception escapes before any callback runs.

Two facts about the code shape the extension lists:

- **Registry discovery prepends three directories.** They are foundation-database, lib/orm and enyo-client, in that order (`scripts/lib/build_all.js:81-83`). So a database without a registry gets nine entries: those three, then the six core extensions. `DefaultsMatchInitialize` proves that this is exactly the list of an initialize request that names no extension.
- **An extension named on the initialize path is kept as given.** Line 225 copies it unresolved (`foundation-database`). Only the explicit-extension path resolves its extension against the working directory (lines 248-250).

## Model

| member | source | states |
|---|---|---|
| `Paths.Resolve` | scripts/lib/build_all.js:207-215 | A path starting with `/` is returned unchanged. Any other path becomes the working directory, a slash, then the path, or the path alone when the working directory is empty. The result is absolute whenever the working directory is |
| `Paths.ResolveIdempotent` | scripts/lib/build_all.js:248-250 | With an absolute working directory, resolving an already resolved path changes nothing |
| `Specs.ConfigPath` | scripts/lib/build_all.js:168-175 | The configuration loaded is the `config` option under the path rule, or the checkout's default configuration when `config` is unset or empty; it is absolute whenever the working directory is |
| `Specs.AdaptCredentials` | scripts/lib/build_all.js:176-179 | The credentials are the server block with `host` equal to `hostname`, `username` equal to `user`, and the datasource's key file added |
| `Paths.BasenameSuffix` | scripts/lib/build_all.js:137 | The basename is a slash-free suffix of the path, preceded by a slash whenever it is not the whole path |
| `Paths.BasenameOfJoin` | scripts/lib/build_all.js:137 | The basename of a directory joined with a slash-free name is that name |
| `Paths.ContainsInside` | scripts/lib/build_all.js:121 | The marker test finds an occurrence whatever text surrounds it |
| `Paths.NpmPackagePath` | scripts/lib/build_all.js:75-76 | The path given to an `npm` row is selected by the node_modules test, and its basename is the package name |
| `Planner.TargetDatabases` | scripts/lib/build_all.js:181-187 | The databases are `[database]` when that option is set, otherwise the configured list in its own order |
| `Planner.PlanRequest` | scripts/lib/build_all.js:189-275 | The checks apply in priority order. "Make up your mind." is the answer exactly when both client-only and database-only are set. The not-both error is the answer exactly when, otherwise, both backup and source are set. The initialize path is taken exactly when `initialize`, one of backup/source, and `database` are set and the extension is unset or `foundation-database`. In that case there is one spec with `initialize`, exactly one of backup/source resolved, and extensions either the named extension or the nine-entry list. The initialize-usage error is the answer exactly when neither earlier error applies, one of `initialize`/backup/source is set, and the initialize conditions do not all hold. An extension gives one spec per target database, in order, with the resolved extension, the five flags and `frozen`, plus the unregister choice. Anything else is the registered-extensions path over the target databases |
| `Planner.PlannedPathsAbsolute` | scripts/lib/build_all.js:205-216 | With an absolute working directory, the planner's backup, source and explicit extension paths are absolute |
| `Discovery.LocationPath` | scripts/lib/build_all.js:64-79 | A row has a path exactly when its location is one of the four known locations |
| `Discovery.LocateAt` | scripts/lib/build_all.js:64-79 | The i-th located path is the i-th row's location-table entry |
| `Discovery.LocateAppend` | scripts/lib/build_all.js:64-79 | Mapping rows keeps their order |
| `Discovery.CompactAppend` | scripts/lib/build_all.js:85 | `_.compact` keeps order: compacting a concatenation is concatenating the compacted parts |
| `Discovery.CompactMembers` | scripts/lib/build_all.js:85 | `_.compact` keeps exactly the present paths |
| `Discovery.MappedPathsAppend` | scripts/lib/build_all.js:64-85 | The paths of two runs of rows are the first run's paths followed by the second's |
| `Discovery.MappedPathsRows` | scripts/lib/build_all.js:64-85 | A path is in the mapped list exactly when some row's location maps to it; unknown locations contribute nothing |
| `Discovery.MappedPathsAllKnown` | scripts/lib/build_all.js:64-85 | When every location is known, the i-th path is the i-th row's and none is dropped |
| `Discovery.AdaptExtensions` | scripts/lib/build_all.js:58-93 | Mapping, three unshifts and compaction give the infrastructure (foundation-database, lib/orm, enyo-client) followed by the rows' paths in row order, with the database and the five flags |
| `Discovery.DiscoveryOfCases` | scripts/lib/build_all.js:58-108 | Discovery fails exactly when the table lookup fails, or the table exists and the registry query fails, with that query's error. Otherwise the spec names the database, carries the five flags and no `frozen`, is not an initialize spec, and starts with the three infrastructure paths |
| `Discovery.DiscoveryTrace` | scripts/lib/build_all.js:95-106 | The table lookup always runs on a clone naming the database; the registry query runs on that clone exactly when the lookup found the table |
| `Discovery.GetRegisteredExtensions` | scripts/lib/build_all.js:43-109 | The method's answer and queries are those of `DiscoveryOf` and `DiscoveryTrace` |
| `Discovery.NoRegistryUsesDefaults` | scripts/lib/build_all.js:50-57 | Without a registry table the registry answer plays no part, and the extensions are the infrastructure followed by crm, project, sales, billing, purchasing, oauth2 under the core extensions directory |
| `Pipeline.AllExtensionsMembers` | scripts/lib/build_all.js:116-119 | The flattened list holds exactly the extension paths of all specs |
| `Pipeline.NpmOnlyMembers` | scripts/lib/build_all.js:120-122 | The filter keeps exactly the paths containing `node_modules` |
| `Pipeline.NpmOnlyNone` | scripts/lib/build_all.js:120-123 | Without any path containing `node_modules` the filter keeps nothing |
| `Pipeline.NpmPathsMembers` | scripts/lib/build_all.js:116-122 | Step 1 looks at exactly the extension paths of the specs that contain `node_modules` |
| `Pipeline.BasenamesAt` | scripts/lib/build_all.js:137 | The i-th package requested is the basename of the i-th npm path |
| `Pipeline.InstallFailFast` | scripts/lib/build_all.js:136-138 | Installs are requested in path order, each only after the previous one succeeded. All succeed exactly when every install does, and then all were requested. A failure is the last request's |
| `Pipeline.InstallTraceRequests` | scripts/lib/build_all.js:136-138 | The installs make install requests only |
| `Pipeline.InstallPackages` | scripts/lib/build_all.js:136-138 | The install loop's outcome and requests are those of `InstallOutcome` and `InstallTrace` |
| `Pipeline.InstallNpmPackages` | scripts/lib/build_all.js:112-140 | Step 1's outcome and calls are those of `InstallStep` and `InstallStepTrace` |
| `Pipeline.InstallStepShape` | scripts/lib/build_all.js:123-139 | Step 1 calls npm only; it calls nothing exactly when there is no npm path, and otherwise loads npm first |
| `Pipeline.InstallStepCalls` | scripts/lib/build_all.js:127-139 | Once npm loads, the calls after the load are the install requests, by basename, in path order. The step succeeds exactly when every install does, and then every package was requested |
| `Pipeline.NoNpmPathsNoInstall` | scripts/lib/build_all.js:116-126 | When no extension path of any spec contains `node_modules`, step 1 calls nothing and succeeds |
| `Pipeline.LinesAppend` | scripts/lib/build_all.js:155-157 | The directory lines of two lists are the lines of the first followed by those of the second |
| `Pipeline.BlocksAppend` | scripts/lib/build_all.js:153-158 | The summary has one block per spec, in spec order |
| `Pipeline.BlocksSnoc` | scripts/lib/build_all.js:153-158 | Adding a spec adds its block at the end |
| `Pipeline.AppendLines` | scripts/lib/build_all.js:155-157 | The inner loop appends one `"  " + ext + "\n"` line per extension, in order |
| `Pipeline.ReturnMessage` | scripts/lib/build_all.js:152-159 | The nested loops produce "Build succeeded.", a newline, then per spec `"Database: " + db + "\nDirectories:\n"` followed by its lines |
| `Pipeline.BuildAll` | scripts/lib/build_all.js:110-164 | The series' reply and calls are those of `PipelineRun` |
| `Pipeline.InOrderAppend` | scripts/lib/build_all.js:111-164 | Install calls followed by calls in step order are in step order |
| `Pipeline.InstallStepStages` | scripts/lib/build_all.js:116-141 | Every call of step 1 is an npm load or an npm install |
| `Pipeline.StepsInOrder` | scripts/lib/build_all.js:111-164 | Every pipeline call belongs to a step, and no call of a later step precedes a call of an earlier one: install, client, database, completion |
| `Pipeline.FirstErrorStops` | scripts/lib/build_all.js:141-163 | An install error stops the client and database builds, and a client error stops the database build. Each error is passed on unchanged. A database error reaches the caller directly, with the series never completing. The summary is returned exactly when all three steps succeed. The pipeline never throws |
| `BuildCommand.DiscoverEachSpecs` | scripts/lib/build_all.js:271-273 | Discovery over the databases succeeds exactly when every database's discovery does, and then yields one spec per database, in database order |
| `BuildCommand.DiscoverEachFirstFailure` | scripts/lib/build_all.js:271 | A discovery failure is that of the first database whose discovery fails |
| `BuildCommand.DiscoverEachQueriesOnly` | scripts/lib/build_all.js:96-106 | Discovery only queries the databases |
| `BuildCommand.DiscoverAll` | scripts/lib/build_all.js:271 | The discovery loop's specs, failure and queries are those of `DiscoverEach` |
| `BuildCommand.DiscoveryErrorIsLost` | scripts/lib/build_all.js:271-273 | With one database whose table lookup fails, the default path as written never calls back; the corrected one replies with the lookup's error |
| `BuildCommand.RegisteredRunCheckedAnswers` | scripts/lib/build_all.js:271-274 | The corrected default path always calls back. A discovery failure is reported before any pipeline step. Without a failure it is the code as written: discovery queries, then the pipeline on the discovered specs |
| `BuildCommand.Build` | scripts/lib/build_all.js:35-276 | The entry point's reply and calls are those of `BuildRun`: configuration, credentials, plan, then the run of the chosen request. On the default path a discovery failure is answered with `Failure` of that error, before any build step. This is the corrected behaviour of the finding below; the source never calls back |
| `BuildCommand.RejectionsCallNothing` | scripts/lib/build_all.js:189-241 | Each usage error is answered with its own message ("Make up your mind.", the not-both message, the initialize-usage message) and calls no collaborator. Every other request calls at least one collaborator: a query, npm, a builder or the unregister utility |
| `BuildCommand.PipelineCallsCollaborator` | scripts/lib/build_all.js:110-164 | The pipeline always calls a collaborator of one of its three steps: npm, the client build or the database build |
| `BuildCommand.UnregisterRouting` | scripts/lib/build_all.js:263-268 | The unregister utility is called exactly for an explicit-extension request with `unregister` set; then it is the only call, gets the specs and credentials, and its reply is the build's |
| `BuildCommand.PipelineNeverUnregisters` | scripts/lib/build_all.js:110-164 | No call of the pipeline is a call of the unregister utility |
| `BuildCommand.DefaultsMatchInitialize` | scripts/lib/build_all.js:225-235 | A database without a registry gets exactly the nine-entry extension list of an initialize request that names no extension |
| `BuildCommand.NpmRowIsInstalled` | scripts/lib/build_all.js:116-137 | A registry row with location `npm` is installed under its own name when its database is built |

## Findings

| source | as written | input that shows it | evidently intended | confidence | as-written member | corrected member |
|---|---|---|---|---|---|---|
| scripts/lib/build_all.js:271-273 | The default path ignores the error argument of `async.map` and calls `buildAll(results, …)` anyway. The result slot of the failed database is empty, so step 1's `spec.extensions` throws a TypeError inside a query callback, and the caller's callback never runs | No `database` option and no `extension`; a configured database `demo` whose registry-table lookup fails (for example, connection refused) | Report the discovery error to the callback and build nothing | medium (depends on the `async` version passing partial results); not executed | `BuildCommand.RegisteredRun` (exhibited by `BuildCommand.DiscoveryErrorIsLost`) | `BuildCommand.RegisteredRunChecked` (proved by `BuildCommand.RegisteredRunCheckedAnswers`; used by `BuildCommand.BuildRun`) |

## Left out

- Loading the configuration with `require` is an input function from path to configuration. A configuration that fails to load is not modelled.
- The shared module-level `creds` object is mutated in place. The model computes a fresh credentials value per call, so sharing it between concurrent builds is not captured.
- The per-database credential clone is `JSON.parse(JSON.stringify(creds))` with `database` set. It is modelled as a record update.
- The SQL text, including the corrective `oauth2` location update sent with the registry query, is left out. So is everything `dataSource.query` does: each query is one recorded event with a supplied answer.
- `_.compact(res.rows)` drops falsy rows. Every row is a record here, so that filter is not modelled.
- npm's log subscription and its `console.log` output are left out.
- `npm.commands.install` is a supplied outcome per package name.
- `async.map` runs installs and discoveries concurrently. The model runs them one after the other and stops at the first failure in list order. The order in which concurrent failures arrive, and calls still in flight after a failure, are not captured.
- `buildClient`, `buildDatabase.buildDatabase` and `unregister` live in other files. They are not part of this model and appear as supplied outcomes. For `unregister`, the supplied reply is passed through.
- The second argument the series hands to the callback on an error (`results && results[results.length - 1]`) is left out. Only the error is modelled.
- `path.join` is modelled as joining with a single slash, without normalisation. `path.basename` is modelled for paths without a trailing slash.
- `__dirname` and the checkout location are fixed symbolic directories (`/src/xtuple`).
- Boolean options are `bool`, so an unset boolean and `false` are the same. String options follow JavaScript truthiness: unset or empty counts as not given.
- Errors are tested by truthiness in the source (`if (err)`, and inside `async`). An `Error` is therefore a non-empty string. A collaborator that answers with a falsy error has succeeded and is modelled as `Done`; falsy values other than the empty string are not distinguished.
- `Paths.NpmPackagePath` and `BuildCommand.NpmRowIsInstalled` are stated for package names without a slash. For a scoped name such as `@scope/pkg`, `path.basename` gives `pkg`, so the source would request a different package. That case is not modelled.
