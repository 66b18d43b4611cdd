/** Paths as the build entry point handles them: the rule that decides whether
    a path given on the command line is taken as it is or joined onto the
    working directory, the last component of a path, the substring test that
    singles out npm packages, and the fixed directories of the checkout.

    `path.join` is modelled without its normalisation (no `..` folding), and
    the location of the checkout is a symbolic constant. */
module Paths {

  /** A path counts as absolute when its first character is a slash. */
  predicate IsAbsolute(p: string) {
    |p| > 0 && p[0] == '/'
  }

  /** `path.join(base, p)` without normalisation. */
  function Join(base: string, p: string): string {
    if base == "" then p else base + "/" + p
  }

  /** The rule applied to `config`, `backup`, `source` and `extension`:
      a path starting with a slash is kept, any other is joined onto `cwd`. */
  function Resolve(cwd: string, p: string): (r: string)
    ensures IsAbsolute(p) ==> r == p
    ensures !IsAbsolute(p) && cwd != "" ==>
      |r| == |cwd| + 1 + |p| && r[..|cwd|] == cwd && r[|cwd|] == '/' && r[|cwd| + 1..] == p
    ensures !IsAbsolute(p) && cwd == "" ==> r == p
    ensures IsAbsolute(cwd) ==> IsAbsolute(r)
  {
    if IsAbsolute(p) then p else Join(cwd, p)
  }

  /** With an absolute working directory, resolving a second time changes nothing. */
  lemma ResolveIdempotent(cwd: string, p: string)
    requires IsAbsolute(cwd)
    ensures Resolve(cwd, Resolve(cwd, p)) == Resolve(cwd, p)
  {
  }

  /** `path.basename` for a path without a trailing slash: the longest
      slash-free suffix. */
  function Basename(p: string): (r: string)
    ensures |r| <= |p|
  {
    if p == [] || p[|p| - 1] == '/' then [] else Basename(p[..|p| - 1]) + [p[|p| - 1]]
  }

  /** The basename is a suffix without a slash, and whatever comes before it
      ends in a slash. */
  lemma {:induction false} BasenameSuffix(p: string)
    ensures var r := Basename(p);
      '/' !in r && r == p[|p| - |r|..] && (|r| < |p| ==> p[|p| - |r| - 1] == '/')
  {
    if p != [] && p[|p| - 1] != '/' {
      var q := p[..|p| - 1];
      BasenameSuffix(q);
      var r := Basename(q);
      assert p[|p| - |r| - 1..] == q[|q| - |r|..] + [p[|p| - 1]];
    }
  }

  /** The last component of a joined path is the name that was joined on. */
  lemma BasenameOfJoin(dir: string, name: string)
    requires dir != "" && '/' !in name
    ensures Basename(Join(dir, name)) == name
  {
    var p := Join(dir, name);
    BasenameSuffix(p);
    var r := Basename(p);
    assert p == dir + "/" + name;
    assert p[|dir|] == '/';
    assert |r| == |name|;
    assert p[|p| - |name|..] == name;
  }

  /** `s.indexOf(m) >= 0`: `m` occurs somewhere in `s`. */
  predicate Contains(s: string, m: string)
    decreases |s|
  {
    |m| <= |s| && (s[..|m|] == m || Contains(s[1..], m))
  }

  /** An occurrence survives any text put before or after it. */
  lemma {:induction false} ContainsInside(a: string, m: string, b: string)
    ensures Contains(a + m + b, m)
    decreases |a|
  {
    var s := a + m + b;
    if a == [] {
      assert s[..|m|] == m;
    } else {
      assert s[1..] == a[1..] + m + b;
      ContainsInside(a[1..], m, b);
    }
  }

  /** The marker that identifies a package installed with npm. */
  const NpmMarker := "node_modules"

  /** Directory holding the checkout, and the checkout itself (symbolic). */
  const ParentDir := "/src"
  const RepoRoot := ParentDir + "/xtuple"

  const FoundationDir := RepoRoot + "/foundation-database"
  const OrmDir := RepoRoot + "/lib/orm"
  const ClientDir := RepoRoot + "/enyo-client"
  const CoreExtensionsDir := ClientDir + "/extensions/source"
  const XtupleExtensionsDir := ParentDir + "/xtuple-extensions/source"
  const PrivateExtensionsDir := ParentDir + "/private-extensions/source"
  const NodeModulesDir := RepoRoot + "/" + NpmMarker
  const DefaultConfigPath := RepoRoot + "/node-datasource/config.js"

  /** The three directories every extension list starts with, in load order. */
  const Infrastructure := [FoundationDir, OrmDir, ClientDir]

  /** A package path under node_modules is recognised as an npm package, and
      its last component is the package name. */
  lemma NpmPackagePath(name: string)
    requires '/' !in name
    ensures Contains(Join(NodeModulesDir, name), NpmMarker)
    ensures Basename(Join(NodeModulesDir, name)) == name
  {
    assert Join(NodeModulesDir, name) == RepoRoot + "/" + NpmMarker + ("/" + name);
    ContainsInside(RepoRoot + "/", NpmMarker, "/" + name);
    BasenameOfJoin(NodeModulesDir, name);
  }
}
