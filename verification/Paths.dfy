/**
  Absolute slash-separated paths: what a path string names once doubled and
  trailing slashes, "." and ".." are resolved lexically, as a container's file
  system without symbolic links resolves them. Go's path.Split, path.Join and
  path.Clean are given for the forms lxdk uses.
 */
module Paths {
  import opened Text

  /** A name a directory entry can have. */
  predicate ProperName(s: string) {
    s != "" && s != "." && s != ".." && '/' !in s
  }

  /** A component of a path: a proper name, "." or "..". */
  predicate Filled(s: string) {
    s != "" && '/' !in s
  }

  function NonEmpty(parts: seq<string>): seq<string> {
    if parts == [] then []
    else
      var front := NonEmpty(parts[..|parts| - 1]);
      if parts[|parts| - 1] == "" then front else front + [parts[|parts| - 1]]
  }

  /** The components of a path, empty ones dropped. */
  function Parts(path: string): seq<string> {
    NonEmpty(Split(path, "/"))
  }

  /** The component that leads back to the parent. */
  predicate Up(s: string) {
    s == ".."
  }

  /** No component leads back to a parent. */
  predicate NoUp(parts: seq<string>) {
    forall i | 0 <= i < |parts| :: !Up(parts[i])
  }

  /** Where following the components one after the other ends, starting at the root. */
  function Resolve(parts: seq<string>): seq<string> {
    if parts == [] then []
    else
      var front, last := Resolve(parts[..|parts| - 1]), parts[|parts| - 1];
      if last == "." then front
      else if Up(last) then (if front == [] then [] else front[..|front| - 1])
      else front + [last]
  }

  /** The node of the tree an absolute path names. */
  function Locate(path: string): seq<string> {
    Resolve(Parts(path))
  }

  /** path.Clean on an absolute path. */
  function CleanAbs(path: string): string {
    "/" + (if Locate(path) == [] then "" else Join(Locate(path), "/"))
  }

  /** path.Join(dir, file) for an absolute directory. */
  function JoinPath(dir: string, file: string): string {
    CleanAbs(dir + "/" + file)
  }

  /** path.Split: everything up to the last slash, and the rest. */
  function SplitPath(path: string): (r: (string, string))
    ensures r.0 + r.1 == path && '/' !in r.1
    ensures r.0 != "" ==> r.0[|r.0| - 1] == '/'
  {
    if path == "" || path[|path| - 1] == '/' then (path, "")
    else
      var r := SplitPath(path[..|path| - 1]);
      (r.0, r.1 + [path[|path| - 1]])
  }

  /** The file name path.Split finds. */
  function BaseName(path: string): string {
    SplitPath(path).1
  }

  predicate Absolute(path: string) {
    path != "" && path[0] == '/'
  }

  // ---- components ----

  lemma {:induction false} NonEmptyConcat(a: seq<string>, b: seq<string>)
    ensures NonEmpty(a + b) == NonEmpty(a) + NonEmpty(b)
  {
    if b == [] {
      assert a + b == a;
    } else {
      NonEmptyConcat(a, b[..|b| - 1]);
      assert (a + b)[..|a + b| - 1] == a + b[..|b| - 1];
    }
  }

  lemma {:induction false} NonEmptyClean(parts: seq<string>)
    requires forall p | p in parts :: Filled(p)
    ensures NonEmpty(parts) == parts
  {
    if parts != [] {
      FrontAndLast(parts);
      NonEmptyClean(parts[..|parts| - 1]);
    }
  }

  lemma NonEmptySingle(x: string)
    ensures NonEmpty([x]) == if x == "" then [] else [x]
  {
  }

  /** A leading slash adds no component. */
  lemma PartsRooted(s: string)
    ensures Parts("/" + s) == Parts(s)
  {
    assert "/" + s == "" + ['/'] + s;
    SplitCons("", '/', s);
    NonEmptySingle("");
    NonEmptyConcat([""], Split(s, "/"));
  }

  /** A trailing slash adds no component. */
  lemma PartsTrailing(s: string)
    ensures Parts(s + "/") == Parts(s)
  {
    SplitTrailing(s, '/');
    NonEmptySingle("");
    NonEmptyConcat(Split(s, "/"), [""]);
  }

  /** The components of joined slash-free parts. */
  lemma PartsJoined(parts: seq<string>)
    requires |parts| >= 1 && forall p | p in parts :: '/' !in p
    ensures Parts("/" + Join(parts, "/")) == NonEmpty(parts)
  {
    PartsRooted(Join(parts, "/"));
    SplitJoin(parts, '/');
  }

  /** The components of a directory followed by one slash-free name. */
  lemma PartsUnder(dir: string, name: string)
    requires '/' !in name && name != ""
    ensures Parts(dir + "/" + name) == Parts(dir) + [name]
  {
    JoinSplit(dir, '/');
    var parts := Split(dir, "/");
    JoinSnoc(parts, name, "/");
    SplitJoin(parts + [name], '/');
    NonEmptySingle(name);
    NonEmptyConcat(parts, [name]);
  }

  lemma ResolveSnoc(parts: seq<string>, name: string)
    requires ProperName(name)
    ensures Resolve(parts + [name]) == Resolve(parts) + [name]
  {
  }

  lemma {:induction false} ResolveProper(parts: seq<string>)
    requires forall p | p in parts :: ProperName(p)
    ensures Resolve(parts) == parts
  {
    if parts != [] {
      FrontAndLast(parts);
      ResolveProper(parts[..|parts| - 1]);
    }
  }

  lemma {:induction false} ResolveIsProper(parts: seq<string>)
    requires forall p | p in parts :: Filled(p)
    ensures forall p | p in Resolve(parts) :: ProperName(p)
  {
    if parts != [] {
      FrontAndLast(parts);
      ResolveIsProper(parts[..|parts| - 1]);
    }
  }

  lemma {:induction false} NonEmptyMembers(parts: seq<string>)
    ensures forall p | p in NonEmpty(parts) :: p != "" && p in parts
  {
    if parts != [] {
      NonEmptyMembers(parts[..|parts| - 1]);
    }
  }

  /** Cleaning a path does not change what it names. */
  lemma CleanLocates(path: string)
    ensures Locate(CleanAbs(path)) == Locate(path)
    ensures Absolute(CleanAbs(path))
  {
    var l := Locate(path);
    JoinSplit(path, '/');
    NonEmptyMembers(Split(path, "/"));
    ResolveIsProper(Parts(path));
    if l == [] {
      assert "/" + "" == "/";
      PartsRooted("");
      SplitSingle("", '/');
      NonEmptySingle("");
    } else {
      PartsJoined(l);
      NonEmptyClean(l);
      ResolveProper(l);
    }
  }

  /** Joining a directory and a proper name names the entry of that directory. */
  lemma JoinLocates(dir: string, name: string)
    requires ProperName(name)
    ensures Locate(JoinPath(dir, name)) == Locate(dir) + [name]
    ensures Absolute(JoinPath(dir, name))
  {
    CleanLocates(dir + "/" + name);
    PartsUnder(dir, name);
    ResolveSnoc(Parts(dir), name);
  }

  /** A directory written with its trailing slash, followed by a proper name. */
  lemma LocateUnder(dir: string, name: string)
    requires ProperName(name) && dir != "" && dir[|dir| - 1] == '/'
    ensures Locate(dir + name) == Locate(dir) + [name]
  {
    var d := dir[..|dir| - 1];
    assert dir == d + "/";
    PartsTrailing(d);
    PartsUnder(d, name);
    assert dir + name == d + "/" + name;
    ResolveSnoc(Parts(d), name);
  }

  /** path.Split on a path whose last component is given. */
  lemma {:induction false} SplitPathAt(dir: string, name: string)
    requires '/' !in name && (dir == "" || dir[|dir| - 1] == '/')
    ensures SplitPath(dir + name) == (dir, name)
  {
    if name == "" {
      assert dir + name == dir;
    } else {
      var n := name[..|name| - 1];
      SplitPathAt(dir, n);
      var s := dir + name;
      assert s[|s| - 1] == name[|name| - 1];
      assert s[..|s| - 1] == dir + n;
      assert n + [name[|name| - 1]] == name;
    }
  }
}
