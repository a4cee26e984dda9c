/** Making directories and pushing files in an instance: RecursiveMkdir, UploadFile and UploadFiles. */
module Upload {
  import opened Text
  import opened Paths
  import opened Trees
  import opened Rooms
  import opened Names
  import opened Worlds
  import opened Lxd

  /** Only this instance changed, and only its tree. */
  ghost predicate OnlyTree(m: map<string, Instance>, m': map<string, Instance>, name: string) {
    name in m && name in m' && m' == m[name := m[name].(tree := m'[name].tree)]
  }

  /** `u` is `t` with every directory along the components made, none of them being in the way. */
  ghost predicate Made(t: Nodes, u: Nodes, parts: seq<string>) {
    Clear(t, parts) && u == MakeAll(t, parts)
  }

  ghost predicate BlockedAt(t: Nodes, u: Nodes, front: seq<string>, last: string) {
    Made(t, u, front) && !Free(t, Resolve(front + [last]))
  }

  /**
    What RecursiveMkdir promises of the trees before and after it, having got
    as far as `k` components. `clean` says that no request met a transport
    error: then it succeeds exactly if nothing is in the way, and otherwise
    stops at the first place that is no directory.
   */
  ghost predicate MkdirTo(t: Nodes, u: Nodes, parts: seq<string>, r: Push, clean: bool, k: int) {
    && r != NoParent
    && 0 <= k <= |parts| && Made(t, u, parts[..k])
    && (r == Pushed ==> Made(t, u, parts))
    && (clean && Clear(t, parts) ==> r == Pushed)
    && (clean && !Clear(t, parts) ==> r == NotDirectory && k < |parts| && BlockedAt(t, u, parts[..k], parts[k]))
  }

  ghost predicate Mkdir(t: Nodes, u: Nodes, parts: seq<string>, r: Push, clean: bool) {
    exists k :: MkdirTo(t, u, parts, r, clean, k)
  }

  /** `parts` is `front`, perhaps with one component more. */
  predicate Extends(parts: seq<string>, front: seq<string>) {
    parts == front || (parts != [] && parts[..|parts| - 1] == front)
  }

  /** A clean run that fails leaves the tree as it was, unless the path holds "..". */
  lemma FailedMkdirUnchanged(t: Nodes, u: Nodes, parts: seq<string>, r: Push)
    requires WfTree(t) && Mkdir(t, u, parts, r, true) && r != Pushed && NoUp(parts)
    ensures u == t
  {
    var k :| MkdirTo(t, u, parts, r, true, k);
    NoUpFront(parts, k);
    BlockedAtUnchanged(t, u, parts[..k], parts[k]);
  }

  /** Whatever the path holds, a clean run that fails leaves the tree as it was exactly if it met nothing to make on its way. */
  lemma FailedMkdirExactly(t: Nodes, u: Nodes, parts: seq<string>, r: Push)
    requires WfTree(t) && Mkdir(t, u, parts, r, true) && r != Pushed
    ensures u == t <==> NothingToMakeFirst(t, parts)
  {
    var k :| MkdirTo(t, u, parts, r, true, k);
    BlockedAtExactly(t, u, parts, k);
  }

  lemma BlockedAtExactly(t: Nodes, u: Nodes, parts: seq<string>, k: nat)
    requires WfTree(t) && k < |parts| && BlockedAt(t, u, parts[..k], parts[k])
    ensures u == t <==> NothingToMakeFirst(t, parts)
  {
    assert parts[..k + 1] == parts[..k] + [parts[k]];
    BlockedExactly(t, parts, k);
  }

  lemma OnePart(x: string)
    requires Filled(x)
    ensures Parts("/" + x) == [x]
  {
    PartsRooted(x);
    SplitSingle(x, '/');
    NonEmptySingle(x);
  }

  lemma ThreeParts(x: string, y: string, z: string)
    requires Filled(x) && Filled(y) && Filled(z)
    ensures Parts("/" + x + "/" + y + "/" + z) == [x, y] + [z]
  {
    OnePart(x);
    var one := "/" + x;
    PartsUnder(one, y);
    var two := one + "/" + y;
    PartsUnder(two, z);
  }

  /** x/../f, where f is a file: a run without transport errors fails and leaves x. */
  lemma MkdirThereAndBack(x: string, f: string, u: Nodes, r: Push)
    requires ProperName(x) && ProperName(f) && x != f
    ensures Mkdir(OneFile(f), u, [x, ".."] + [f], r, true) <==> r == NotDirectory && u == OneFile(f)[[x] := Dir]
  {
    var t, back, parts := OneFile(f), [x, ".."], [x, ".."] + [f];
    BlockedAfterDotDot(x, f);
    assert parts[..2] == back && parts[2] == f && parts[..|parts|] == parts;
    assert !Clear(t, parts) by {
      assert Place(parts, |parts|) == Resolve(parts);
    }
    if r == NotDirectory && u == t[[x] := Dir] {
      assert MkdirTo(t, u, parts, r, true, 2);
    }
    if Mkdir(t, u, parts, r, true) {
      var k :| MkdirTo(t, u, parts, r, true, k);
      assert k == 2;
    }
  }

  /**
    With ".." a run that fails can leave a new directory behind: on x/../f,
    where f is a file, every run without transport errors fails and leaves x.
   */
  lemma DotDotLeavesDirectory(x: string, up: string, f: string, u: Nodes, r: Push)
    requires ProperName(x) && Up(up) && ProperName(f) && x != f
    ensures OneFile(f)[[x] := Dir] != OneFile(f)
    ensures Mkdir(OneFile(f), u, Parts("/" + x + "/" + up + "/" + f), r, true) <==> r == NotDirectory && u == OneFile(f)[[x] := Dir]
  {
    ThreeParts(x, up, f);
    BlockedAfterDotDot(x, f);
    MkdirThereAndBack(x, f, u, r);
  }

  lemma NoUpFront(parts: seq<string>, k: nat)
    requires k < |parts| && NoUp(parts)
    ensures NoUp(parts[..k]) && !Up(parts[k])
  {
  }

  lemma BlockedAtUnchanged(t: Nodes, u: Nodes, front: seq<string>, last: string)
    requires WfTree(t) && NoUp(front) && !Up(last) && BlockedAt(t, u, front, last)
    ensures u == t
  {
    BlockedUnchanged(t, front, last);
  }

  lemma ClearExtends(t: Nodes, parts: seq<string>, front: seq<string>)
    requires Extends(parts, front) && Clear(t, parts)
    ensures Clear(t, front)
  {
    if parts != front {
      ClearFront(t, parts);
    }
  }

  /** A recursion that failed is a failure of the whole. */
  lemma RecursionFailed(t: Nodes, u: Nodes, parts: seq<string>, front: seq<string>, r: Push, clean: bool)
    requires Extends(parts, front) && Mkdir(t, u, front, r, clean) && r != Pushed
    ensures Mkdir(t, u, parts, r, clean)
  {
    var k :| MkdirTo(t, u, front, r, clean, k);
    assert front[..k] == parts[..k];
    if Clear(t, parts) {
      ClearExtends(t, parts, front);
    }
    assert k < |front| ==> front[k] == parts[k];
    assert MkdirTo(t, u, parts, r, clean, k);
  }

  /** What is left to do once the front has been made: one directory, if its place is free. */
  lemma LastStep(t: Nodes, u: Nodes, parts: seq<string>, front: seq<string>)
    requires WfTree(t) && Extends(parts, front) && Made(t, u, front)
    ensures Free(u, Resolve(parts)) <==> Clear(t, parts)
    ensures Free(u, Resolve(parts)) <==> Free(t, Resolve(parts))
    ensures Clear(t, parts) ==> AddDir(u, Resolve(parts)) == MakeAll(t, parts)
  {
    MakeAllAdds(t, front);
    if parts == front {
      MadeFront(t, front);
    } else {
      ClearFront(t, parts);
    }
  }

  /** The last directory along the components is there once all have been made. */
  lemma MadeFront(t: Nodes, front: seq<string>)
    requires WfTree(t) && Clear(t, front)
    ensures WfTree(MakeAll(t, front)) && IsDir(MakeAll(t, front), Resolve(front)) && Free(t, Resolve(front))
  {
    MakeAllWf(t, front);
    MakeAllDirs(t, front);
    assert front[..|front|] == front;
    assert Place(front, |front|) == Resolve(front);
    assert Free(t, Place(front, |front|));
  }

  /** The directory the last one is made in exists. */
  lemma LastParent(t: Nodes, u: Nodes, parts: seq<string>, front: seq<string>)
    requires WfTree(t) && Extends(parts, front) && Made(t, u, front)
    ensures Resolve(parts) == [] || Resolve(parts) in u || IsDir(u, Resolve(parts)[..|Resolve(parts)| - 1])
  {
    MadeFront(t, front);
    assert HasParent(u, Resolve(front));
    if parts != front {
      ResolveParent(parts);
    }
  }

  lemma InPlaceParent(u: Nodes, p: seq<string>)
    requires WfTree(u) && p in u && p != []
    ensures IsDir(u, p[..|p| - 1])
  {
    assert HasParent(u, p);
  }

  /** How the last request may end. */
  ghost predicate LastEnd(u: Nodes, v: Nodes, p: seq<string>, r: Push, clean: bool) {
    && r != NoParent
    && (v == u || (Free(u, p) && v == AddDir(u, p)))
    && (r == Pushed ==> Free(u, p) && v == AddDir(u, p))
    && (clean ==> if Free(u, p) then r == Pushed else v == u && r == NotDirectory)
  }

  lemma MkdirEnds(t: Nodes, u: Nodes, v: Nodes, parts: seq<string>, front: seq<string>, r: Push, clean: bool)
    requires WfTree(t) && Extends(parts, front) && Made(t, u, front)
    requires LastEnd(u, v, Resolve(parts), r, clean)
    ensures Mkdir(t, v, parts, r, clean)
  {
    LastStep(t, u, parts, front);
    PartsUpTo(parts, front);
    if v == u {
      assert MkdirTo(t, v, parts, r, clean, |front|);
    } else {
      assert MkdirTo(t, v, parts, r, clean, |parts|);
    }
  }

  lemma PartsUpTo(parts: seq<string>, front: seq<string>)
    requires Extends(parts, front)
    ensures |front| <= |parts| && parts[..|front|] == front && parts[..|parts|] == parts
    ensures parts != front ==> |front| < |parts| && front + [parts[|front|]] == parts
  {
  }

  /** The components of a path minus the last, as RecursiveMkdir recurses on them. */
  lemma ParentParts(dir: string, split: seq<string>)
    requires Absolute(dir) && split == Split(dir[1..], "/")
    ensures Extends(Parts(dir), NonEmpty(split[..|split| - 1]))
    ensures |split| == 1 ==> NonEmpty(split[..|split| - 1]) == []
  {
    assert dir == "/" + dir[1..];
    PartsRooted(dir[1..]);
    var front, last := split[..|split| - 1], split[|split| - 1];
    assert Parts(dir) == NonEmpty(split);
    assert NonEmpty(split) == if last == "" then NonEmpty(front) else NonEmpty(front) + [last];
  }

  lemma ParentPath(dir: string, split: seq<string>)
    requires Absolute(dir) && split == Split(dir[1..], "/") && |split| > 1
    ensures Parts("/" + Join(split[..|split| - 1], "/")) == NonEmpty(split[..|split| - 1])
    ensures |"/" + Join(split[..|split| - 1], "/")| < |dir|
  {
    JoinSplit(dir[1..], '/');
    var front, last := split[..|split| - 1], split[|split| - 1];
    FrontAndLast(split);
    PartsJoined(front);
    JoinSnoc(front, last, "/");
  }

  /** Where there is nothing to make, the tree stays. */
  lemma NothingToMake(m: map<string, Instance>, container: string)
    requires container in m
    ensures OnlyTree(m, m, container)
    ensures Made(m[container].tree, m[container].tree, [])
    ensures Parts("/") == [] && Mkdir(m[container].tree, m[container].tree, [], Pushed, true)
  {
    var none: seq<string> := [];
    assert m == m[container := m[container].(tree := m[container].tree)];
    assert none[..0] == [];
    assert MkdirTo(m[container].tree, m[container].tree, none, Pushed, true, 0);
    assert "/" == "/" + "";
    PartsRooted("");
    SplitSingle("", '/');
    NonEmptySingle("");
  }

  lemma StripSlash(dir: string)
    requires Absolute(dir) && HasSuffix(dir, "/") && |dir| > 1
    ensures Parts(dir) == Parts(dir[..|dir| - 1])
  {
    assert dir == dir[..|dir| - 1] + "/";
    PartsTrailing(dir[..|dir| - 1]);
  }

  lemma OnlyTreeTwice(m0: map<string, Instance>, m1: map<string, Instance>, m2: map<string, Instance>, name: string)
    requires OnlyTree(m0, m1, name) && OnlyTree(m1, m2, name)
    ensures OnlyTree(m0, m2, name)
  {
  }

  /** RecursiveMkdir's promise for one instance of many. */
  ghost predicate MkdirIn(m: map<string, Instance>, m': map<string, Instance>, name: string, parts: seq<string>, r: Push, clean: bool) {
    OnlyTree(m, m', name) && Mkdir(m[name].tree, m'[name].tree, parts, r, clean)
  }

  lemma RecursionFailedIn(m: map<string, Instance>, m': map<string, Instance>, name: string,
                          parts: seq<string>, front: seq<string>, r: Push, clean: bool)
    requires Extends(parts, front) && MkdirIn(m, m', name, front, r, clean) && r != Pushed
    ensures MkdirIn(m, m', name, parts, r, clean)
  {
    RecursionFailed(m[name].tree, m'[name].tree, parts, front, r, clean);
  }

  /** After the recursion the last directory can be made where it belongs. */
  ghost predicate CanMakeAt(m: map<string, Instance>, name: string, p: seq<string>) {
    name in m ==> p == [] || p in m[name].tree || IsDir(m[name].tree, p[..|p| - 1])
  }

  lemma RecursionDone(m: map<string, Instance>, m': map<string, Instance>, name: string,
                      parts: seq<string>, front: seq<string>, clean: bool)
    requires Extends(parts, front) && MkdirIn(m, m', name, front, Pushed, clean)
    ensures CanMakeAt(m', name, Resolve(parts))
  {
    LastParent(m[name].tree, m'[name].tree, parts, front);
  }

  lemma MkdirEndsIn(m: map<string, Instance>, m1: map<string, Instance>, m2: map<string, Instance>, name: string,
                    parts: seq<string>, front: seq<string>, r: Push, clean1: bool, clean: bool)
    requires Extends(parts, front) && MkdirIn(m, m1, name, front, Pushed, clean1)
    requires LastIn(m1, m2, name, Resolve(parts), r, clean)
    ensures MkdirIn(m, m2, name, parts, r, clean)
  {
    OnlyTreeTwice(m, m1, m2, name);
    MkdirEnds(m[name].tree, m1[name].tree, m2[name].tree, parts, front, r, clean);
  }

  /** RecursiveMkdir: make every missing directory on the way to `dir`, outermost first. */
  method RecursiveMkdir(lxd: Server, container: string, dir: string) returns (r: Push)
    requires Absolute(dir)
    modifies lxd`instances, lxd`faults
    ensures lxd.faults >= old(lxd.faults)
    ensures container !in old(lxd.instances) ==> lxd.instances == old(lxd.instances)
    ensures container in old(lxd.instances) ==>
              MkdirIn(old(lxd.instances), lxd.instances, container, Parts(dir), r, lxd.faults == old(lxd.faults))
    decreases |dir|, 1
  {
    if dir == "/" {
      if container in lxd.instances {
        NothingToMake(lxd.instances, container);
      }
      return Pushed;
    }
    var d := dir;
    if HasSuffix(dir, "/") {
      StripSlash(dir);
      d := dir[..|dir| - 1];
    }
    r := MakeBelow(lxd, container, d);
  }

  /** RecursiveMkdir once a trailing slash is gone: the parent first, then the directory itself. */
  method MakeBelow(lxd: Server, container: string, d: string) returns (r: Push)
    requires Absolute(d)
    modifies lxd`instances, lxd`faults
    ensures lxd.faults >= old(lxd.faults)
    ensures container !in old(lxd.instances) ==> lxd.instances == old(lxd.instances)
    ensures container in old(lxd.instances) ==>
              MkdirIn(old(lxd.instances), lxd.instances, container, Parts(d), r, lxd.faults == old(lxd.faults))
    decreases |d|, 0
  {
    ghost var m, faults, there := lxd.instances, lxd.faults, container in lxd.instances;
    var split := Split(d[1..], "/");
    ParentParts(d, split);
    ghost var front := NonEmpty(split[..|split| - 1]);
    r := Pushed;
    if |split| > 1 {
      ParentPath(d, split);
      r := RecursiveMkdir(lxd, container, "/" + Join(split[..|split| - 1], "/"));
    } else if there {
      NothingToMake(m, container);
    }
    ghost var m1, clean1 := lxd.instances, lxd.faults == faults;
    if r != Pushed {
      if there {
        RecursionFailedIn(m, m1, container, Parts(d), front, r, clean1);
      }
    } else {
      if there {
        RecursionDone(m, m1, container, Parts(d), front, clean1);
      }
      r := MakeOne(lxd, container, d);
      if there {
        MkdirEndsIn(m, m1, lxd.instances, container, Parts(d), front, r, clean1, lxd.faults == faults);
      }
    }
  }

  /** The last request left the directory, made it, or found it in the way, in one instance of many. */
  ghost predicate LastIn(m: map<string, Instance>, m': map<string, Instance>, name: string, p: seq<string>, r: Push, clean: bool) {
    OnlyTree(m, m', name) && LastEnd(m[name].tree, m'[name].tree, p, r, clean)
  }

  /** The last level of RecursiveMkdir: look whether the directory is there, and if nothing is found create it. */
  method MakeOne(lxd: Server, container: string, dir: string) returns (r: Push)
    requires CanMakeAt(lxd.instances, container, Locate(dir))
    modifies lxd`instances, lxd`faults
    ensures lxd.faults >= old(lxd.faults)
    ensures container !in old(lxd.instances) ==> lxd.instances == old(lxd.instances)
    ensures container in old(lxd.instances) ==>
              LastIn(old(lxd.instances), lxd.instances, container, Locate(dir), r, lxd.faults == old(lxd.faults))
  {
    var ok, kind := lxd.GetInstanceFile(container, dir);
    if ok {
      SameTree(lxd.instances, container);
      return if kind == Directory then Pushed else NotDirectory;
    }
    if container in lxd.instances && Locate(dir) != [] && Locate(dir) in lxd.instances[container].tree {
      InPlaceParent(lxd.instances[container].tree, Locate(dir));
    }
    r := lxd.CreateDirectory(container, dir);
  }

  lemma SameTree(m: map<string, Instance>, name: string)
    requires name in m
    ensures OnlyTree(m, m, name)
  {
  }

  /** What a successful RecursiveMkdir means, whatever doubled slashes, "." or ".." the path holds. */
  lemma MadeMeans(t: Nodes, u: Nodes, parts: seq<string>)
    requires WfTree(t) && Made(t, u, parts)
    ensures WfTree(u)
    ensures forall k | 0 <= k <= |parts| :: IsDir(u, Place(parts, k))
    ensures forall p | p in t :: p in u && u[p] == t[p]
    ensures forall p | p in u && p !in t :: Along(parts, p)
    ensures forall v, r, clean :: Mkdir(u, v, parts, r, clean) && r == Pushed ==> v == u
  {
    MakeAllWf(t, parts);
    MakeAllDirs(t, parts);
    MakeAllAdds(t, parts);
    MakeAllTwice(t, parts);
  }

  // ---- files ----

  lemma MadeKeeps(t: Nodes, u: Nodes, parts: seq<string>, target: seq<string>, r: Push, clean: bool)
    requires WfTree(t) && Mkdir(t, u, parts, r, clean)
    ensures Keeps(t, u) && Touches(t, u, parts, target)
  {
    var k :| MkdirTo(t, u, parts, r, clean, k);
    MakeAllAdds(t, parts[..k]);
    forall p | Along(parts[..k], p)
      ensures Along(parts, p)
    {
      AlongPrefix(parts, k, p);
    }
  }

  lemma AlongPrefix(parts: seq<string>, k: nat, p: seq<string>)
    requires k <= |parts| && Along(parts[..k], p)
    ensures Along(parts, p)
  {
    var j :| 0 <= j <= k && p == Place(parts[..k], j);
    assert parts[..k][..j] == parts[..j];
    assert p == Place(parts, j);
  }

  /** What a push may have done to the tree: directories along `parts`, then the target. */
  ghost predicate Pushes(t: Nodes, u: Nodes, parts: seq<string>, target: seq<string>) {
    Keeps(t, u) && Touches(t, u, parts, target)
  }

  lemma PutPushes(t: Nodes, u: Nodes, v: Nodes, parts: seq<string>, target: seq<string>, data: string)
    requires Pushes(t, u, parts, target)
    requires v == u || (CanPut(u, target) && v == u[target := File(data)])
    ensures Pushes(t, v, parts, target)
  {
  }

  /**
    The tree-level effect of the two halves of UploadFile: make the directory,
    then write the file.
   */
  ghost predicate Uploaded(t: Nodes, u: Nodes, parts: seq<string>, target: seq<string>, data: string) {
    Clear(t, parts) && CanPut(MakeAll(t, parts), target) && u == MakeAll(t, parts)[target := File(data)]
  }

  /** The directory can be made, and then the file put. */
  ghost predicate HasRoom(t: Nodes, parts: seq<string>, target: seq<string>) {
    Clear(t, parts) && CanPut(MakeAll(t, parts), target)
  }

  /** A clean run of RecursiveMkdir on a path with nothing in the way has made it. */
  lemma CleanMkdir(t: Nodes, u: Nodes, parts: seq<string>, r: Push)
    requires Mkdir(t, u, parts, r, true) && Clear(t, parts)
    ensures r == Pushed && u == MakeAll(t, parts)
  {
    var k :| MkdirTo(t, u, parts, r, true, k);
  }

  /** Of the nodes in `t` only `target` may differ. */
  ghost predicate OnlyNode(t: Nodes, u: Nodes, target: seq<string>) {
    forall p | p in t && p != target :: p in u && u[p] == t[p]
  }

  /** Make the directory `dir` and write `data` to `path`. */
  method PushFile(lxd: Server, container: string, dir: string, path: string, data: string) returns (ok: bool)
    requires Absolute(dir)
    modifies lxd`instances, lxd`faults
    ensures container !in old(lxd.instances) ==> lxd.instances == old(lxd.instances) && !ok
    ensures container in old(lxd.instances) ==>
              && OnlyTree(old(lxd.instances), lxd.instances, container)
              && Pushes(old(lxd.instances)[container].tree, lxd.instances[container].tree, Parts(dir), Locate(path))
              && (ok ==> Uploaded(old(lxd.instances)[container].tree, lxd.instances[container].tree,
                                  Parts(dir), Locate(path), data))
    ensures lxd.faults >= old(lxd.faults)
    ensures container in old(lxd.instances) && lxd.faults == old(lxd.faults) && !ok ==>
              !HasRoom(old(lxd.instances)[container].tree, Parts(dir), Locate(path))
  {
    ghost var m, there, faults := lxd.instances, container in lxd.instances, lxd.faults;
    var r := RecursiveMkdir(lxd, container, dir);
    ghost var m1 := lxd.instances;
    if there {
      MadeKeeps(m[container].tree, m1[container].tree, Parts(dir), Locate(path), r, lxd.faults == faults);
      if lxd.faults == faults && Clear(m[container].tree, Parts(dir)) {
        CleanMkdir(m[container].tree, m1[container].tree, Parts(dir), r);
      }
    }
    if r != Pushed {
      return false;
    }
    r := lxd.CreateFile(container, path, data);
    if there {
      PutPushes(m[container].tree, m1[container].tree, lxd.instances[container].tree, Parts(dir), Locate(path), data);
      OnlyTreeTwice(m, m1, lxd.instances, container);
    }
    ok := r == Pushed;
  }

  /**
    UploadFile. Without data, `from` is a local file and `to` the directory it
    is pushed to; with data, `to` is the file to write.
   */
  method UploadFile(lxd: Server, local: map<string, string>, data: string, from: string, to: string, container: string)
    returns (r: Outcome)
    requires Absolute(to)
    modifies lxd`instances, lxd`faults
    ensures r != Refused
    ensures r.Missing? <==> data == "" && from !in local
    ensures r.Missing? ==> r.file == from
    ensures r.Missing? || container !in old(lxd.instances) ==> lxd.instances == old(lxd.instances) && r != Done
    ensures container in old(lxd.instances) ==>
              && OnlyTree(old(lxd.instances), lxd.instances, container)
              && Keeps(old(lxd.instances)[container].tree, lxd.instances[container].tree)
    ensures r == Done && data == "" ==> ProperName(BaseName(from))
    ensures container in old(lxd.instances) && data != "" ==>
              OnlyNode(old(lxd.instances)[container].tree, lxd.instances[container].tree, Locate(to))
    ensures container in old(lxd.instances) && r.Missing? ==> lxd.instances == old(lxd.instances)
    ensures container in old(lxd.instances) && ProperName(BaseName(from)) && data == "" ==>
              Touches(old(lxd.instances)[container].tree, lxd.instances[container].tree, Parts(to), Target(Locate(to), from))
    ensures container in old(lxd.instances) && data != "" ==>
              Touches(old(lxd.instances)[container].tree, lxd.instances[container].tree, Parts(SplitPath(to).0), Locate(to))
    ensures lxd.faults >= old(lxd.faults)
    ensures container in old(lxd.instances) && lxd.faults == old(lxd.faults) && r == Failed ==>
              if data != "" then !HasRoom(old(lxd.instances)[container].tree, Parts(SplitPath(to).0), Locate(to))
              else !ProperName(BaseName(from)) ||
                   !HasRoom(old(lxd.instances)[container].tree, Parts(to), Target(Locate(to), from))
    ensures container in old(lxd.instances) && r == Done && data == "" ==>
              Uploaded(old(lxd.instances)[container].tree, lxd.instances[container].tree,
                       Parts(to), Target(Locate(to), from), local[from])
    ensures container in old(lxd.instances) && r == Done && data != "" ==>
              Uploaded(old(lxd.instances)[container].tree, lxd.instances[container].tree,
                       Parts(SplitPath(to).0), Locate(to), data)
  {
    if container in lxd.instances {
      SameTree(lxd.instances, container);
    }
    var dir, path, bytes := SplitPath(to).0, to, data;
    if data == "" {
      if from !in local {
        return Missing(from);
      }
      if !ProperName(BaseName(from)) {
        return Failed; // not a regular file
      }
      JoinLocates(to, BaseName(from));
      dir, path, bytes := to, JoinPath(to, BaseName(from)), local[from];
    } else {
      DirAbsolute(to);
    }
    var ok := PushFile(lxd, container, dir, path, bytes);
    r := if ok then Done else Failed;
  }

  lemma {:induction false} DirAbsolute(to: string)
    requires Absolute(to)
    ensures Absolute(SplitPath(to).0)
  {
  }

  /** What UploadFiles leaves: every listed file in the directory, one pushed after the other. */
  ghost predicate UploadedAll(t: Nodes, u: Nodes, to: string, froms: seq<string>, local: map<string, string>) {
    && (forall f | f in froms :: f in local && ProperName(BaseName(f)))
    && (froms == [] ==> u == t)
    && (froms != [] ==> Clear(t, Parts(to)) && u == Deposits(MakeAll(t, Parts(to)), Locate(to), froms, local))
  }

  /** Once the directory has been made, pushing files does not take it away. */
  lemma {:induction false} DepositsStay(t: Nodes, dir: seq<string>, froms: seq<string>, local: map<string, string>)
    requires forall f | f in froms :: f in local
    ensures t.Keys <= Deposits(t, dir, froms, local).Keys
  {
    if froms != [] {
      var n := |froms| - 1;
      FrontAndLast(froms);
      DepositsStay(t, dir, froms[..n], local);
    }
  }

  /** After the first file, making the directory again changes nothing. */
  lemma DirStays(t: Nodes, to: string, froms: seq<string>, local: map<string, string>)
    requires WfTree(t) && Clear(t, Parts(to)) && forall f | f in froms :: f in local
    ensures var u := Deposits(MakeAll(t, Parts(to)), Locate(to), froms, local); MakeAll(u, Parts(to)) == u
  {
    var parts, made := Parts(to), MakeAll(t, Parts(to));
    var u := Deposits(made, Locate(to), froms, local);
    DepositsStay(made, Locate(to), froms, local);
    MakeAllDirs(t, parts);
    forall k | 0 <= k <= |parts|
      ensures Place(parts, k) in u
    {
      assert IsDir(made, Place(parts, k));
    }
    MakeAllPresent(u, parts);
  }

  lemma DepositsSnoc(t: Nodes, dir: seq<string>, froms: seq<string>, last: string, local: map<string, string>)
    requires last in local && forall f | f in froms :: f in local
    ensures forall f | f in froms + [last] :: f in local
    ensures Deposits(t, dir, froms + [last], local) ==
            Deposits(t, dir, froms, local)[Target(dir, last) := File(local[last])]
  {
  }

  lemma OneMoreFile(t: Nodes, u: Nodes, v: Nodes, to: string, froms: seq<string>, last: string, local: map<string, string>)
    requires WfTree(t) && last in local && ProperName(BaseName(last))
    requires UploadedAll(t, u, to, froms, local)
    requires Uploaded(u, v, Parts(to), Target(Locate(to), last), local[last])
    ensures UploadedAll(t, v, to, froms + [last], local)
  {
    if froms != [] {
      DirStays(t, to, froms, local);
    } else {
      assert Deposits(MakeAll(t, Parts(to)), Locate(to), froms, local) == MakeAll(t, Parts(to));
    }
    DepositsSnoc(MakeAll(t, Parts(to)), Locate(to), froms, last, local);
  }

  /** The instance's tree changed, and no file or directory of it went away. */
  ghost predicate OnlyGrows(m: map<string, Instance>, m': map<string, Instance>, name: string) {
    OnlyTree(m, m', name) && Keeps(m[name].tree, m'[name].tree)
  }

  lemma OnlyGrowsTwice(m0: map<string, Instance>, m1: map<string, Instance>, m2: map<string, Instance>, name: string)
    requires OnlyGrows(m0, m1, name) && OnlyGrows(m1, m2, name)
    ensures OnlyGrows(m0, m2, name)
  {
  }

  /** The files go to a directory lxdk pushes into, under names it uses. */
  ghost predicate GoesToRoom(to: string, froms: seq<string>) {
    PushDir(to) && forall f | f in froms :: PushedName(BaseName(f))
  }

  /** One push into a tree with room. */
  lemma RoomyPush(t: Nodes, u: Nodes, to: string, from: string)
    requires WfTree(t) && Roomy(t) && PushDir(to) && PushedName(BaseName(from))
    ensures HasRoom(t, Parts(to), Target(Locate(to), from))
    ensures Touches(t, u, Parts(to), Target(Locate(to), from)) ==> Roomy(u)
  {
    RoomToPut(t, to, BaseName(from));
    if Touches(t, u, Parts(to), Target(Locate(to), from)) {
      RoomStays(t, u, to, BaseName(from));
    }
  }

  /** What one more push does to the trees before it. */
  lemma OneMorePushed(m: map<string, Instance>, m1: map<string, Instance>, m2: map<string, Instance>, container: string, to: string,
                      froms: seq<string>, i: nat, local: map<string, string>, ok: bool)
    requires i < |froms| && OnlyGrows(m, m1, container) && OnlyGrows(m1, m2, container)
    requires UploadedAll(m[container].tree, m1[container].tree, to, froms[..i], local)
    requires Roomy(m[container].tree) && GoesToRoom(to, froms) ==> Roomy(m1[container].tree)
    requires ProperName(BaseName(froms[i])) ==>
               Touches(m1[container].tree, m2[container].tree, Parts(to), Target(Locate(to), froms[i]))
    requires ok ==> froms[i] in local && ProperName(BaseName(froms[i])) &&
                    Uploaded(m1[container].tree, m2[container].tree, Parts(to), Target(Locate(to), froms[i]), local[froms[i]])
    ensures OnlyGrows(m, m2, container)
    ensures ok ==> UploadedAll(m[container].tree, m2[container].tree, to, froms[..i + 1], local)
    ensures Roomy(m[container].tree) && GoesToRoom(to, froms) ==>
              Roomy(m2[container].tree) && ProperName(BaseName(froms[i])) &&
              HasRoom(m1[container].tree, Parts(to), Target(Locate(to), froms[i]))
  {
    OnlyGrowsTwice(m, m1, m2, container);
    TakeNext(froms, i);
    if ok {
      OneMoreFile(m[container].tree, m1[container].tree, m2[container].tree, to, froms[..i], froms[i], local);
    }
    if Roomy(m[container].tree) && GoesToRoom(to, froms) {
      RoomyPush(m1[container].tree, m2[container].tree, to, froms[i]);
    }
  }

  /** What UploadFiles leaves whether or not it gets through. */
  ghost predicate PushedPart(m: map<string, Instance>, m': map<string, Instance>, container: string, to: string, froms: seq<string>) {
    if container !in m then m' == m
    else
      && OnlyGrows(m, m', container)
      && (Roomy(m[container].tree) && GoesToRoom(to, froms) ==> Roomy(m'[container].tree))
  }

  /** The first `i` files have been pushed. */
  ghost predicate PushedUpTo(m: map<string, Instance>, m': map<string, Instance>, container: string, to: string, froms: seq<string>, i: nat,
                             local: map<string, string>)
    requires i <= |froms|
  {
    && PushedPart(m, m', container, to, froms)
    && if container in m then UploadedAll(m[container].tree, m'[container].tree, to, froms[..i], local) else i == 0
  }

  /** One turn of UploadFiles. */
  method UploadNext(lxd: Server, local: map<string, string>, froms: seq<string>, i: nat, to: string, container: string,
                    ghost m: map<string, Instance>)
    returns (r: Outcome)
    requires Absolute(to) && i < |froms| && PushedUpTo(m, lxd.instances, container, to, froms, i, local)
    modifies lxd`instances, lxd`faults
    ensures r != Refused
    ensures r.Missing? ==> r.file == froms[i] && froms[i] !in local
    ensures PushedPart(m, lxd.instances, container, to, froms)
    ensures r == Done ==> PushedUpTo(m, lxd.instances, container, to, froms, i + 1, local)
    ensures lxd.faults >= old(lxd.faults)
    ensures container in m && Roomy(m[container].tree) && GoesToRoom(to, froms) && lxd.faults == old(lxd.faults) ==> r == Done || r.Missing?
  {
    ghost var m1 := lxd.instances;
    r := UploadFile(lxd, local, "", froms[i], to, container);
    if container in m {
      OneMorePushed(m, m1, lxd.instances, container, to, froms, i, local, r == Done);
    }
  }

  method UploadFiles(lxd: Server, local: map<string, string>, froms: seq<string>, to: string, container: string)
    returns (r: Outcome)
    requires Absolute(to)
    modifies lxd`instances, lxd`faults
    ensures r != Refused
    ensures r.Missing? ==> r.file in froms && r.file !in local
    ensures container !in old(lxd.instances) ==> lxd.instances == old(lxd.instances) && (r == Done ==> froms == [])
    ensures container in old(lxd.instances) ==> OnlyGrows(old(lxd.instances), lxd.instances, container)
    ensures container in old(lxd.instances) && r == Done ==>
              UploadedAll(old(lxd.instances)[container].tree, lxd.instances[container].tree, to, froms, local)
    ensures lxd.faults >= old(lxd.faults)
    ensures container in old(lxd.instances) && Roomy(old(lxd.instances)[container].tree) && GoesToRoom(to, froms) ==>
              Roomy(lxd.instances[container].tree) && (lxd.faults == old(lxd.faults) ==> r == Done || r.Missing?)
  {
    ghost var m := lxd.instances;
    if container in m {
      SameTree(m, container);
    }
    var i := 0;
    while i < |froms|
      invariant 0 <= i <= |froms| && PushedUpTo(m, lxd.instances, container, to, froms, i, local)
      invariant lxd.faults >= old(lxd.faults)
    {
      r := UploadNext(lxd, local, froms, i, to, container, m);
      if r != Done {
        return;
      }
      i := i + 1;
    }
    assert froms[..i] == froms;
    r := Done;
  }

  lemma AncestorDir(t: Nodes, p: seq<string>, k: nat)
    requires WfTree(t) && p in t && k < |p|
    ensures IsDir(t, p[..k])
  {
    AncestorIn(t, p, k + 1);
    assert HasParent(t, p[..k + 1]);
    assert p[..k + 1][..k] == p[..k];
  }

  /**
    UploadFiles with distinct base names: every target holds its own source's
    bytes, everything above a target is a directory, no other node changed,
    and besides the targets only directories on the way were added.
   */
  lemma UploadedFilesHold(t: Tree, u: Tree, to: string, froms: seq<string>, local: map<string, string>)
    requires froms != [] && DistinctBases(froms) && UploadedAll(t, u, to, froms, local)
    ensures forall f | f in froms ::
              Target(Locate(to), f) in u && u[Target(Locate(to), f)] == File(local[f])
    ensures forall f, k | f in froms && 0 <= k <= |Locate(to)| :: IsDir(u, Target(Locate(to), f)[..k])
    ensures forall p | p in t && !AmongTargets(Locate(to), froms, p) :: p in u && u[p] == t[p]
    ensures forall p | p in u && p !in t && !AmongTargets(Locate(to), froms, p) :: Along(Parts(to), p)
  {
    var parts, dir := Parts(to), Locate(to);
    var made := MakeAll(t, parts);
    forall f | f in froms
      ensures Target(dir, f) in u && u[Target(dir, f)] == File(local[f])
    {
      var i :| 0 <= i < |froms| && froms[i] == f;
      DepositsHold(made, dir, froms, local, i);
    }
    forall f, k | f in froms && 0 <= k <= |dir|
      ensures IsDir(u, Target(dir, f)[..k])
    {
      AncestorDir(u, Target(dir, f), k);
    }
    MakeAllAdds(t, parts);
    forall p | !AmongTargets(dir, froms, p)
      ensures (p in u <==> p in made) && (p in made ==> u[p] == made[p])
    {
      DepositsKeep(made, dir, froms, local, p);
    }
  }

  lemma {:induction false} DepositsFile(t: Nodes, dir: seq<string>, froms: seq<string>, local: map<string, string>, f: string)
    requires f in froms && forall g | g in froms :: g in local
    ensures IsFile(Deposits(t, dir, froms, local), Target(dir, f))
  {
    var n := |froms| - 1;
    FrontAndLast(froms);
    if f != froms[n] {
      DepositsFile(t, dir, froms[..n], local, f);
    }
  }
}
