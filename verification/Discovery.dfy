/** Registered-extension discovery (`getRegisteredExtensions` with its
    `adaptExtensions`): for one database, the registry rows (or the defaults of
    a database without a registry) become the database's build specification. */
module Discovery {
  import opened Paths
  import opened Specs

  /** One row of the extension registry, already in load order. */
  datatype Row = Row(location: string, name: string)

  /** The rows used for a database that has no registry table. */
  function DefaultRows(): seq<Row> {
    var names := ["crm", "project", "sales", "billing", "purchasing", "oauth2"];
    seq(6, i requires 0 <= i < 6 => Row("/core-extensions", names[i]))
  }

  /** The fixed location table; any other location has no path. */
  function LocationPath(row: Row): (path: Option<string>)
    ensures path.Some? <==>
      row.location in ["/core-extensions", "/xtuple-extensions", "/private-extensions", "npm"]
  {
    if row.location == "/core-extensions" then Some(Join(CoreExtensionsDir, row.name))
    else if row.location == "/xtuple-extensions" then Some(Join(XtupleExtensionsDir, row.name))
    else if row.location == "/private-extensions" then Some(Join(PrivateExtensionsDir, row.name))
    else if row.location == "npm" then Some(Join(NodeModulesDir, row.name))
    else None
  }

  /** The `_.map` of the rows through the location table. */
  function Locate(rows: seq<Row>): (paths: seq<Option<string>>)
    ensures |paths| == |rows|
  {
    if rows == [] then [] else [LocationPath(rows[0])] + Locate(rows[1..])
  }

  /** The i-th path is the i-th row's. */
  lemma {:induction false} LocateAt(rows: seq<Row>)
    ensures forall i :: 0 <= i < |rows| ==> Locate(rows)[i] == LocationPath(rows[i])
  {
    if rows != [] {
      LocateAt(rows[1..]);
    }
  }

  lemma {:induction false} LocateAppend(a: seq<Row>, b: seq<Row>)
    ensures Locate(a + b) == Locate(a) + Locate(b)
  {
    if a == [] {
      assert a + b == b;
    } else {
      assert (a + b)[1..] == a[1..] + b;
      LocateAppend(a[1..], b);
    }
  }

  /** `_.compact`: the paths that are present, in order. */
  function Compact(paths: seq<Option<string>>): (r: seq<string>)
    ensures |r| <= |paths|
  {
    if paths == [] then []
    else (if paths[0].Some? then [paths[0].value] else []) + Compact(paths[1..])
  }

  lemma {:induction false} CompactAppend(a: seq<Option<string>>, b: seq<Option<string>>)
    ensures Compact(a + b) == Compact(a) + Compact(b)
  {
    if a == [] {
      assert a + b == b;
    } else {
      var head := if a[0].Some? then [a[0].value] else [];
      assert (a + b)[0] == a[0] && (a + b)[1..] == a[1..] + b;
      CompactAppend(a[1..], b);
      assert Compact(a + b) == head + Compact(a[1..] + b);
      assert head + (Compact(a[1..]) + Compact(b)) == (head + Compact(a[1..])) + Compact(b);
    }
  }

  /** The paths of the rows whose location is known, in row order. */
  function MappedPaths(rows: seq<Row>): seq<string> {
    Compact(Locate(rows))
  }

  /** Mapping keeps the row order: the paths of two runs of rows are the
      paths of the first run followed by those of the second. */
  lemma MappedPathsAppend(a: seq<Row>, b: seq<Row>)
    ensures MappedPaths(a + b) == MappedPaths(a) + MappedPaths(b)
  {
    LocateAppend(a, b);
    CompactAppend(Locate(a), Locate(b));
  }

  /** `_.compact` keeps exactly the paths that are present. */
  lemma {:induction false} CompactMembers(paths: seq<Option<string>>)
    ensures forall p :: p in Compact(paths) <==> Some(p) in paths
  {
    if paths != [] {
      CompactMembers(paths[1..]);
      assert paths == [paths[0]] + paths[1..];
    }
  }

  /** Every mapped path comes from a row, and every row with a known location
      contributes its path. */
  lemma MappedPathsRows(rows: seq<Row>)
    ensures forall p :: p in MappedPaths(rows) <==> exists i :: 0 <= i < |rows| && LocationPath(rows[i]) == Some(p)
  {
    var located := Locate(rows);
    CompactMembers(located);
    LocateAt(rows);
    forall p
      ensures p in MappedPaths(rows) <==> exists i :: 0 <= i < |rows| && LocationPath(rows[i]) == Some(p)
    {
      if p in MappedPaths(rows) {
        var i :| 0 <= i < |located| && located[i] == Some(p);
        assert LocationPath(rows[i]) == Some(p);
      }
    }
  }

  /** When every location is known, nothing is dropped and the i-th path is
      the i-th row's. */
  lemma {:induction false} MappedPathsAllKnown(rows: seq<Row>)
    requires forall i :: 0 <= i < |rows| ==> LocationPath(rows[i]).Some?
    ensures |MappedPaths(rows)| == |rows|
    ensures forall i :: 0 <= i < |rows| ==> MappedPaths(rows)[i] == LocationPath(rows[i]).value
  {
    if rows != [] {
      MappedPathsAllKnown(rows[1..]);
      assert rows == [rows[0]] + rows[1..];
      MappedPathsAppend([rows[0]], rows[1..]);
      assert MappedPaths([rows[0]]) == [LocationPath(rows[0]).value];
    }
  }

  /** The build specification of a database with the given registry rows:
      the infrastructure first, then the extensions in row order. */
  function DiscoveredSpec(database: string, rows: seq<Row>, flags: Flags): BuildSpec {
    BuildSpec(database, Infrastructure + MappedPaths(rows), flags, None, false, None, None)
  }

  /** `adaptExtensions` on a query answer: map the rows, unshift the three
      infrastructure paths one by one, drop what has no path. */
  method AdaptExtensions(database: string, rows: seq<Row>, flags: Flags) returns (spec: BuildSpec)
    ensures spec == DiscoveredSpec(database, rows, flags)
  {
    var paths := Locate(rows);
    paths := [Some(ClientDir)] + paths;      // core path
    paths := [Some(OrmDir)] + paths;         // lib path
    paths := [Some(FoundationDir)] + paths;  // foundation path
    var prefix := [Some(FoundationDir), Some(OrmDir), Some(ClientDir)];
    assert paths == prefix + Locate(rows);
    CompactAppend(prefix, Locate(rows));
    assert Compact(prefix[2..]) == [ClientDir];
    assert Compact(prefix[1..]) == [OrmDir, ClientDir];
    assert Compact(prefix) == Infrastructure;
    spec := BuildSpec(database, Compact(paths), flags, None, false, None, None);
  }

  /** The answer of a query: an error, or a value. */
  datatype Query<T> = QueryFailed(err: Error) | Answered(value: T)

  /** What the database answers to the two discovery queries: the row count
      of the lookup for the registry table, and the registry rows ordered by
      load order (the corrective update runs in the same batch). */
  datatype Registry = Registry(tableCount: Query<nat>, rows: Query<seq<Row>>)

  datatype Discovery = Discovered(spec: BuildSpec) | DiscoveryFailed(err: Error)

  /** What discovery hands to its callback for one database. */
  function DiscoveryOf(database: string, flags: Flags, reg: Registry): Discovery {
    match reg.tableCount
    case QueryFailed(e) => DiscoveryFailed(e)
    case Answered(count) =>
      if count == 0 then Discovered(DiscoveredSpec(database, DefaultRows(), flags))
      else match reg.rows
        case QueryFailed(e) => DiscoveryFailed(e)
        case Answered(rows) => Discovered(DiscoveredSpec(database, rows, flags))
  }

  /** Discovery fails exactly when one of the queries it needs fails, with
      that query's error; otherwise the spec names the database, carries the
      five flags and no `frozen`, and lists the infrastructure first. */
  lemma DiscoveryOfCases(database: string, flags: Flags, reg: Registry)
    ensures var d := DiscoveryOf(database, flags, reg);
      d.DiscoveryFailed? <==>
        reg.tableCount.QueryFailed? || (reg.tableCount.value != 0 && reg.rows.QueryFailed?)
    ensures var d := DiscoveryOf(database, flags, reg);
      d.DiscoveryFailed? ==>
        d.err == (if reg.tableCount.QueryFailed? then reg.tableCount.err else reg.rows.err)
    ensures var d := DiscoveryOf(database, flags, reg);
      d.Discovered? ==>
        d.spec.database == database && d.spec.flags == flags && d.spec.frozen.None? &&
        !d.spec.initialize && d.spec.backup.None? && d.spec.source.None? &&
        |d.spec.extensions| >= 3 && d.spec.extensions[..3] == Infrastructure
  {
    var d := DiscoveryOf(database, flags, reg);
    if d.Discovered? {
      assert d.spec.extensions[..3] == Infrastructure;
    }
  }

  /** The queries discovery runs for one database, each on a clone of the
      credentials naming that database. */
  function DiscoveryTrace(database: string, creds: Credentials, reg: Registry): (t: seq<Event>)
    ensures 1 <= |t| <= 2 && t[0] == QueryExists(ForDatabase(creds, database))
    ensures |t| == 2 <==> reg.tableCount.Answered? && reg.tableCount.value != 0
    ensures |t| == 2 ==> t[1] == QueryRegistry(ForDatabase(creds, database))
  {
    var clone := ForDatabase(creds, database);
    [QueryExists(clone)] +
      (if reg.tableCount.Answered? && reg.tableCount.value != 0 then [QueryRegistry(clone)] else [])
  }

  /** `getRegisteredExtensions`, with the database's answers supplied. */
  method GetRegisteredExtensions(database: string, creds: Credentials, flags: Flags, reg: Registry)
    returns (d: Discovery, trace: seq<Event>)
    ensures d == DiscoveryOf(database, flags, reg)
    ensures trace == DiscoveryTrace(database, creds, reg)
  {
    var clone := ForDatabase(creds, database);
    trace := [QueryExists(clone)];
    match reg.tableCount {
      case QueryFailed(e) =>
        d := DiscoveryFailed(e);
      case Answered(count) =>
        if count == 0 {
          // no registry table: probably a brand-new database
          var spec := AdaptExtensions(database, DefaultRows(), flags);
          d := Discovered(spec);
        } else {
          trace := trace + [QueryRegistry(clone)];
          match reg.rows {
            case QueryFailed(e) =>
              d := DiscoveryFailed(e);
            case Answered(rows) =>
              var spec := AdaptExtensions(database, rows, flags);
              d := Discovered(spec);
          }
        }
    }
  }

  /** Without a registry table the answer to the registry query plays no part:
      the database gets the infrastructure and the six default extensions. */
  lemma NoRegistryUsesDefaults(database: string, flags: Flags, reg: Registry)
    requires reg.tableCount == Answered(0)
    ensures DiscoveryOf(database, flags, reg) == DiscoveryOf(database, flags, reg.(rows := QueryFailed("error")))
    ensures DiscoveryOf(database, flags, reg).spec.extensions ==
      Infrastructure + seq(6, i requires 0 <= i < 6 => Join(CoreExtensionsDir, DefaultRows()[i].name))
  {
    MappedPathsAllKnown(DefaultRows());
  }
}
