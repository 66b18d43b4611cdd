/** The values the build entry point passes around: the options record, the
    build specifications handed to the builders, the configuration and the
    credentials derived from it, and the record of collaborator calls and
    replies that the model uses in place of callbacks. */
module Specs {
  import opened Paths

  datatype Option<T> = None | Some(value: T)

  /** Errors are strings for the validation messages and opaque values passed
      through unchanged for collaborator failures; both are strings here. The
      source tests an error by truthiness, so an error is never empty: a
      collaborator answering with an empty error has succeeded. */
  type Error = e: string | e != "" witness "error"

  /** JavaScript truthiness of an optional string option: set and not empty. */
  predicate Given(o: Option<string>) {
    o.Some? && o.value != ""
  }

  /** The options record of `build(options, callback)`. An unset boolean is false. */
  datatype Options = Options(
    database: Option<string>,
    extension: Option<string>,
    backup: Option<string>,
    source: Option<string>,
    config: Option<string>,
    initialize: bool,
    keepSql: bool,
    populateData: bool,
    wipeViews: bool,
    clientOnly: bool,
    databaseOnly: bool,
    frozen: bool,
    unregister: bool)

  /** The five build-mode flags every build specification carries. */
  datatype Flags = Flags(keepSql: bool, populateData: bool, wipeViews: bool, clientOnly: bool, databaseOnly: bool)

  function ModeFlags(o: Options): Flags {
    Flags(o.keepSql, o.populateData, o.wipeViews, o.clientOnly, o.databaseOnly)
  }

  /** One build job. `frozen` is None where the source does not copy it;
      `initialize`, `backup` and `source` are only set on the initialize path. */
  datatype BuildSpec = BuildSpec(
    database: string,
    extensions: seq<string>,
    flags: Flags,
    frozen: Option<bool>,
    initialize: bool,
    backup: Option<string>,
    source: Option<string>)

  /** The `databaseServer` block of the configuration file. */
  datatype ServerBlock = ServerBlock(hostname: string, port: nat, user: string, password: string)

  /** What the build reads from the configuration file. */
  datatype Config = Config(databaseServer: ServerBlock, databases: seq<string>, encryptionKeyFile: string)

  /** The server block after the build has adapted it for its two consumers;
      `database` is set only on the per-database clones used for queries. */
  datatype Credentials = Credentials(
    hostname: string,
    port: nat,
    user: string,
    password: string,
    host: string,
    username: string,
    encryptionKeyFile: string,
    database: Option<string>)

  /** Which configuration file is loaded: the `config` option under the
      path rule, or the default configuration of the checkout. */
  function ConfigPath(o: Options, cwd: string): (path: string)
    ensures !Given(o.config) ==> path == DefaultConfigPath
    ensures Given(o.config) ==> path == Resolve(cwd, o.config.value)
    ensures IsAbsolute(cwd) ==> IsAbsolute(path)
  {
    if Given(o.config) then Resolve(cwd, o.config.value) else DefaultConfigPath
  }

  /** The credentials: the server block with `host` aliasing `hostname`,
      `username` aliasing `user`, and the datasource's key file added. */
  function AdaptCredentials(config: Config): (c: Credentials)
    ensures c.host == c.hostname == config.databaseServer.hostname
    ensures c.username == c.user == config.databaseServer.user
    ensures c.password == config.databaseServer.password && c.port == config.databaseServer.port
    ensures c.encryptionKeyFile == config.encryptionKeyFile && c.database.None?
  {
    var server := config.databaseServer;
    Credentials(server.hostname, server.port, server.user, server.password,
                server.hostname, server.user, config.encryptionKeyFile, None)
  }

  /** The clone of the credentials used to query one database. */
  function ForDatabase(c: Credentials, database: string): Credentials {
    c.(database := Some(database))
  }

  /** The result a collaborator hands to its callback. */
  datatype Outcome = Done | Failed(err: Error)

  /** What reaches the caller's callback: an error, a success message, or
      nothing at all because an exception escaped before the callback ran. */
  datatype Reply = Failure(err: Error) | Success(message: string) | Uncaught

  /** One call the build makes to a collaborator, or the completion of its
      step sequence. */
  datatype Event =
    | QueryExists(creds: Credentials)
    | QueryRegistry(creds: Credentials)
    | NpmLoad
    | NpmInstall(name: string)
    | BuildClient(specs: seq<BuildSpec>)
    | BuildDatabase(specs: seq<BuildSpec>, creds: Credentials)
    | Unregister(specs: seq<BuildSpec>, creds: Credentials)
    | SeriesDone

  /** The reply together with every collaborator call, in call order. */
  datatype Run = Run(reply: Reply, trace: seq<Event>)
}
