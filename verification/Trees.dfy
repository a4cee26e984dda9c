/**
  A container's file tree, and what creating directories and pushing files into
  it means component by component. RecursiveMkdir and UploadFiles are proved
  against the functions of this module.
 */
module Trees {
  import opened Text
  import opened Paths

  datatype Node = Dir | File(data: string)

  /** Nodes by the list of names that leads to them. */
  type Nodes = map<seq<string>, Node>

  /** The root is a directory and every node lies in a directory. */
  predicate WfTree(t: Nodes) {
    && [] in t && t[[]] == Dir
    && forall p {:trigger HasParent(t, p)} | p in t :: HasParent(t, p)
  }

  /** The node above `p` is a directory, or `p` is the root. */
  predicate HasParent(t: Nodes, p: seq<string>) {
    p == [] || IsDir(t, p[..|p| - 1])
  }

  predicate IsDir(t: Nodes, p: seq<string>) {
    p in t && t[p].Dir?
  }

  predicate IsFile(t: Nodes, p: seq<string>) {
    p in t && t[p].File?
  }

  /** A directory stands at `p`, or can be made there. */
  predicate Free(t: Nodes, p: seq<string>) {
    p in t ==> t[p].Dir?
  }

  type Tree = t: Nodes | WfTree(t) witness map[[] := Dir]

  function AddDir(t: Nodes, p: seq<string>): Nodes {
    if p in t then t else t[p := Dir]
  }

  /** Make every directory along the components, outermost first. */
  function MakeAll(t: Nodes, parts: seq<string>): Nodes {
    if parts == [] then t else AddDir(MakeAll(t, parts[..|parts| - 1]), Resolve(parts))
  }

  /** The place the first `k` components lead to. */
  function Place(parts: seq<string>, k: nat): seq<string>
    requires k <= |parts|
  {
    Resolve(parts[..k])
  }

  lemma PlaceFront(parts: seq<string>)
    requires parts != []
    ensures forall k | 0 <= k < |parts| :: Place(parts[..|parts| - 1], k) == Place(parts, k)
    ensures Place(parts, |parts|) == Resolve(parts)
  {
    assert parts[..|parts|] == parts;
    forall k | 0 <= k < |parts|
      ensures Place(parts[..|parts| - 1], k) == Place(parts, k)
    {
      assert parts[..|parts| - 1][..k] == parts[..k];
    }
  }

  /** No place along the components is taken by something other than a directory. */
  ghost predicate Clear(t: Nodes, parts: seq<string>) {
    forall k | 0 <= k <= |parts| :: Free(t, Place(parts, k))
  }

  /** `p` is one of the places along the components. */
  ghost predicate Along(parts: seq<string>, p: seq<string>) {
    exists k | 0 <= k <= |parts| :: p == Place(parts, k)
  }

  lemma AlongFront(parts: seq<string>, p: seq<string>)
    requires parts != []
    ensures Along(parts, p) <==> Along(parts[..|parts| - 1], p) || p == Resolve(parts)
  {
    var front := parts[..|parts| - 1];
    PlaceFront(parts);
    if Along(front, p) {
      var k :| 0 <= k <= |front| && p == Place(front, k);
      assert p == Place(parts, k);
    }
    if Along(parts, p) {
      var k :| 0 <= k <= |parts| && p == Place(parts, k);
      assert k < |parts| ==> p == Place(front, k);
    }
    assert p == Resolve(parts) ==> p == Place(parts, |parts|);
  }

  lemma ClearFront(t: Nodes, parts: seq<string>)
    requires parts != []
    ensures Clear(t, parts) <==> Clear(t, parts[..|parts| - 1]) && Free(t, Resolve(parts))
  {
    PlaceFront(parts);
    var front := parts[..|parts| - 1];
    if Clear(t, front) && Free(t, Resolve(parts)) {
      forall k | 0 <= k <= |parts|
        ensures Free(t, Place(parts, k))
      {
        assert k < |parts| ==> Free(t, Place(front, k));
      }
    }
    if Clear(t, parts) {
      assert Free(t, Place(parts, |parts|));
      forall k | 0 <= k <= |front|
        ensures Free(t, Place(front, k))
      {
        assert Free(t, Place(parts, k));
      }
    }
  }

  /** Making all directories keeps what is there and adds exactly the missing places. */
  lemma {:induction false} MakeAllAdds(t: Nodes, parts: seq<string>)
    requires [] in t
    ensures var m := MakeAll(t, parts);
            && (forall p :: p in m <==> p in t || Along(parts, p))
            && (forall p | p in m :: m[p] == if p in t then t[p] else Dir)
  {
    if parts == [] {
      forall p
        ensures Along(parts, p) <==> p == []
      {
        assert Place(parts, 0) == [];
      }
    } else {
      MakeAllAdds(t, parts[..|parts| - 1]);
      forall p {
        AlongFront(parts, p);
      }
    }
  }

  /** When nothing is in the way, every place along the components ends up a directory. */
  lemma MakeAllDirs(t: Nodes, parts: seq<string>)
    requires [] in t && Clear(t, parts)
    ensures forall k | 0 <= k <= |parts| :: IsDir(MakeAll(t, parts), Place(parts, k))
  {
    MakeAllAdds(t, parts);
    forall k | 0 <= k <= |parts|
      ensures IsDir(MakeAll(t, parts), Place(parts, k))
    {
      assert Along(parts, Place(parts, k));
    }
  }

  /** The directory a next component leads out of. */
  lemma ResolveParent(parts: seq<string>)
    requires parts != []
    ensures var front := Resolve(parts[..|parts| - 1]); var p := Resolve(parts);
            p == front || (front != [] && p == front[..|front| - 1]) || (p != [] && p[..|p| - 1] == front)
  {
  }

  /** The tree stays parent-closed. */
  lemma {:induction false} MakeAllWf(t: Nodes, parts: seq<string>)
    requires WfTree(t) && Clear(t, parts)
    ensures WfTree(MakeAll(t, parts))
  {
    if parts != [] {
      ClearFront(t, parts);
      var front := parts[..|parts| - 1];
      MakeAllWf(t, front);
      MakeAllDirs(t, front);
      assert front[..|front|] == front;
      assert Place(front, |front|) == Resolve(front);
      ResolveParent(parts);
      AddDirWf(MakeAll(t, front), Resolve(front), Resolve(parts));
    }
  }

  lemma AddDirWf(t: Nodes, q: seq<string>, p: seq<string>)
    requires WfTree(t) && IsDir(t, q)
    requires p == q || (q != [] && p == q[..|q| - 1]) || (p != [] && p[..|p| - 1] == q)
    ensures WfTree(AddDir(t, p))
  {
    if p !in t {
      assert HasParent(t, q);
      assert q == p[..|p| - 1];
      var m := AddDir(t, p);
      forall r | r in m
        ensures HasParent(m, r)
      {
        assert r in t ==> HasParent(t, r);
      }
    }
  }

  /** Doing it again changes nothing. */
  lemma {:induction false} MakeAllPresent(t: Nodes, parts: seq<string>)
    requires forall k | 0 <= k <= |parts| :: Place(parts, k) in t
    ensures MakeAll(t, parts) == t
  {
    if parts != [] {
      PlaceFront(parts);
      assert Place(parts, |parts|) in t;
      var front := parts[..|parts| - 1];
      forall k | 0 <= k < |parts|
        ensures Place(front, k) in t
      {
        assert Place(parts, k) in t;
      }
      MakeAllPresent(t, front);
    }
  }

  lemma MakeAllTwice(t: Nodes, parts: seq<string>)
    requires [] in t
    ensures MakeAll(MakeAll(t, parts), parts) == MakeAll(t, parts)
  {
    MakeAllAdds(t, parts);
    forall k | 0 <= k <= |parts|
      ensures Place(parts, k) in MakeAll(t, parts)
    {
      assert Along(parts, Place(parts, k));
    }
    MakeAllPresent(MakeAll(t, parts), parts);
  }

  /** Ancestors of a node of a well-formed tree are in the tree. */
  lemma {:induction false} AncestorIn(t: Nodes, p: seq<string>, k: nat)
    requires WfTree(t) && p in t && k <= |p|
    ensures p[..k] in t
    decreases |p|
  {
    if k == |p| {
      assert p[..k] == p;
    } else {
      var q := p[..|p| - 1];
      assert HasParent(t, p);
      AncestorIn(t, q, k);
      assert q[..k] == p[..k];
    }
  }

  /** Without "..", each place along the components lies below the earlier ones. */
  lemma {:induction false} ResolveBelow(parts: seq<string>, k: nat)
    requires k <= |parts| && NoUp(parts)
    ensures Place(parts, k) <= Resolve(parts)
    decreases |parts|
  {
    if k == |parts| {
      assert parts[..k] == parts;
    } else {
      PlaceFront(parts);
      ResolveBelow(parts[..|parts| - 1], k);
    }
  }

  lemma BlockedParent(t: Nodes, front: seq<string>, last: string)
    requires !Up(last) && Free(t, Resolve(front)) && !Free(t, Resolve(front + [last]))
    ensures Resolve(front + [last]) == Resolve(front) + [last]
  {
  }

  lemma PassedAt(t: Nodes, parts: seq<string>, j: nat)
    requires WfTree(t) && NoUp(parts) && Resolve(parts) in t && j <= |parts|
    ensures Place(parts, j) in t
  {
    var r, q := Resolve(parts), Place(parts, j);
    ResolveBelow(parts, j);
    assert q == r[..|q|];
    AncestorIn(t, r, |q|);
  }

  /** Everything a walk without ".." passes on the way to an existing place exists. */
  lemma PassedExists(t: Nodes, parts: seq<string>)
    requires WfTree(t) && NoUp(parts) && Resolve(parts) in t
    ensures MakeAll(t, parts) == t
  {
    forall j | 0 <= j <= |parts|
      ensures Place(parts, j) in t
    {
      PassedAt(t, parts, j);
    }
    MakeAllPresent(t, parts);
  }

  /** Every place up to the first that is in the way is there already. */
  ghost predicate NothingToMakeFirst(t: Nodes, parts: seq<string>) {
    forall k | 0 <= k <= |parts| && Clear(t, parts[..k]) :: Place(parts, k) in t
  }

  lemma ClearUpTo(t: Nodes, parts: seq<string>, j: nat, k: nat)
    requires j <= k <= |parts|
    ensures Place(parts[..k], j) == Place(parts, j)
    ensures Clear(t, parts[..k]) ==> Clear(t, parts[..j]) && Free(t, Place(parts, j))
  {
    assert parts[..k][..j] == parts[..j];
    if Clear(t, parts[..k]) {
      assert Free(t, Place(parts[..k], j));
      forall i | 0 <= i <= j
        ensures Free(t, Place(parts[..j], i))
      {
        assert parts[..j][..i] == parts[..k][..i];
        assert Free(t, Place(parts[..k], i));
      }
    }
  }

  /** What is made before the first place in the way is nothing exactly if everything up to there exists. */
  lemma BlockedExactly(t: Nodes, parts: seq<string>, k: nat)
    requires WfTree(t) && k < |parts| && Clear(t, parts[..k]) && !Free(t, Place(parts, k + 1))
    ensures MakeAll(t, parts[..k]) == t <==> NothingToMakeFirst(t, parts)
  {
    forall j | 0 <= j <= |parts|
      ensures Clear(t, parts[..j]) <==> j <= k
      ensures j <= k ==> Place(parts[..k], j) == Place(parts, j)
    {
      if j <= k {
        ClearUpTo(t, parts, j, k);
      } else {
        ClearUpTo(t, parts, k + 1, j);
      }
    }
    if NothingToMakeFirst(t, parts) {
      MakeAllPresent(t, parts[..k]);
    }
    if MakeAll(t, parts[..k]) == t {
      MakeAllDirs(t, parts[..k]);
      assert forall j | 0 <= j <= k :: IsDir(t, Place(parts[..k], j));
    }
  }

  /**
    The first place in the way stops the walk; without ".." nothing has been
    made by then, because everything above an existing node exists.
   */
  lemma BlockedUnchanged(t: Nodes, front: seq<string>, last: string)
    requires WfTree(t) && NoUp(front) && !Up(last)
    requires Clear(t, front) && !Free(t, Resolve(front + [last]))
    ensures MakeAll(t, front) == t
  {
    assert front[..|front|] == front;
    assert Free(t, Place(front, |front|));
    BlockedParent(t, front, last);
    AncestorIn(t, Resolve(front + [last]), |Resolve(front)|);
    PassedExists(t, front);
  }

  lemma ThereAndBack(x: string)
    requires ProperName(x)
    ensures Resolve([x]) == [x] && Resolve([x, ".."]) == []
    ensures [x, ".."][..1] == [x] && [x][..0] == []
  {
    var one, two := [x], [x, ".."];
    assert one[..0] == [] && two[..1] == one;
    ResolveSnoc([], x);
    assert [] + [x] == one;
  }

  lemma MakeThereAndBack(t: Nodes, x: string)
    requires ProperName(x) && IsDir(t, [])
    ensures MakeAll(t, [x, ".."]) == AddDir(t, [x])
    ensures Free(t, [x]) ==> Clear(t, [x, ".."])
  {
    ThereAndBack(x);
    var one, two := [x], [x, ".."];
    assert MakeAll(t, one) == AddDir(t, one);
    if Free(t, one) {
      assert one[..|one| - 1] == [] && two[..|two| - 1] == one;
      ClearFront(t, one);
      ClearFront(t, two);
    }
  }

  /** A tree that holds one file below its root. */
  function OneFile(f: string): Nodes {
    map[[] := Dir, [f] := File("")]
  }

  lemma OneFileWf(f: string)
    ensures WfTree(OneFile(f)) && IsDir(OneFile(f), []) && !Free(OneFile(f), [f])
    ensures forall x | x != f :: [x] !in OneFile(f)
  {
    assert forall x | x != f :: [x][0] != [f][0];
    assert [f][..0] == [];
  }

  lemma ThereBackAndOn(x: string, f: string)
    requires ProperName(x) && ProperName(f)
    ensures Resolve([x, ".."] + [f]) == [f]
  {
    ThereAndBack(x);
    ResolveSnoc([x, ".."], f);
    assert [] + [f] == [f];
  }

  /** With ".." a walk that fails can leave a new directory behind: x/../f, where f is a file. */
  lemma BlockedAfterDotDot(x: string, f: string)
    requires ProperName(x) && ProperName(f) && x != f
    ensures WfTree(OneFile(f)) && Clear(OneFile(f), [x, ".."]) && !Free(OneFile(f), Resolve([x, ".."] + [f]))
    ensures MakeAll(OneFile(f), [x, ".."]) == OneFile(f)[[x] := Dir] != OneFile(f)
  {
    OneFileWf(f);
    MakeThereAndBack(OneFile(f), x);
    ThereBackAndOn(x, f);
  }

  // ---- files ----

  /** A file can be put at `p`: its directory exists and `p` is no directory. */
  predicate CanPut(t: Nodes, p: seq<string>) {
    p != [] && IsDir(t, p[..|p| - 1]) && !IsDir(t, p)
  }

  lemma PutWf(t: Nodes, p: seq<string>, data: string)
    requires WfTree(t) && CanPut(t, p)
    ensures WfTree(t[p := File(data)])
  {
    var m := t[p := File(data)];
    forall r | r in m
      ensures HasParent(m, r)
    {
      assert r in t ==> HasParent(t, r);
    }
  }

  /** The tree with a file put in it. */
  function Put(t: Tree, p: seq<string>, data: string): Tree
    requires CanPut(t, p)
  {
    PutWf(t, p, data);
    t[p := File(data)]
  }

  /** The tree with a directory made in it. */
  function Grow(t: Tree, p: seq<string>): Tree
    requires p != [] && IsDir(t, p[..|p| - 1])
  {
    AddDirWf(t, p[..|p| - 1], p);
    AddDir(t, p)
  }

  /** Every file of `t` is still a file in `u`, and every directory a directory. */
  ghost predicate Keeps(t: Nodes, u: Nodes) {
    && (forall p | IsFile(t, p) :: IsFile(u, p))
    && (forall p | IsDir(t, p) :: IsDir(u, p))
  }

  /** Only directories along `parts` were added and only `target` was written, as a file. */
  ghost predicate Touches(t: Nodes, u: Nodes, parts: seq<string>, target: seq<string>) {
    && (forall p | p in t && p != target :: p in u && u[p] == t[p])
    && (forall p | p in u && p !in t && p != target :: Along(parts, p) && u[p] == Dir)
    && (IsDir(u, target) ==> IsDir(t, target) || Along(parts, target))
  }

  /** Where a local file is pushed to in a directory. */
  function Target(dir: seq<string>, from: string): seq<string> {
    dir + [BaseName(from)]
  }

  ghost predicate AmongTargets(dir: seq<string>, froms: seq<string>, p: seq<string>) {
    exists i | 0 <= i < |froms| :: p == Target(dir, froms[i])
  }

  /** The tree after pushing the listed local files into a directory, one after the other. */
  function Deposits(t: Nodes, dir: seq<string>, froms: seq<string>, local: map<string, string>): Nodes
    requires forall f | f in froms :: f in local
  {
    if froms == [] then t
    else
      var last := froms[|froms| - 1];
      Deposits(t, dir, froms[..|froms| - 1], local)[Target(dir, last) := File(local[last])]
  }

  /** Base names differ from file to file. */
  ghost predicate DistinctBases(froms: seq<string>) {
    forall i, j | 0 <= i < j < |froms| :: BaseName(froms[i]) != BaseName(froms[j])
  }

  lemma TargetsApart(dir: seq<string>, a: string, b: string)
    requires BaseName(a) != BaseName(b)
    ensures Target(dir, a) != Target(dir, b)
  {
    assert Target(dir, a)[|dir|] != Target(dir, b)[|dir|];
  }

  /** Pushed files of distinct base names all hold their own bytes. */
  lemma {:induction false} DepositsHold(t: Nodes, dir: seq<string>, froms: seq<string>, local: map<string, string>, i: nat)
    requires forall f | f in froms :: f in local
    requires DistinctBases(froms) && i < |froms|
    ensures var d := Deposits(t, dir, froms, local);
            Target(dir, froms[i]) in d && d[Target(dir, froms[i])] == File(local[froms[i]])
    decreases |froms|
  {
    var n := |froms| - 1;
    if i < n {
      DepositsHold(t, dir, froms[..n], local, i);
      TargetsApart(dir, froms[i], froms[n]);
    }
  }

  /** Pushing changes the targets only. */
  lemma {:induction false} DepositsKeep(t: Nodes, dir: seq<string>, froms: seq<string>, local: map<string, string>, p: seq<string>)
    requires forall f | f in froms :: f in local
    requires !AmongTargets(dir, froms, p)
    ensures var d := Deposits(t, dir, froms, local);
            (p in d <==> p in t) && (p in t ==> d[p] == t[p])
    decreases |froms|
  {
    if froms != [] {
      var n := |froms| - 1;
      forall i | 0 <= i < n
        ensures p != Target(dir, froms[..n][i])
      {
        assert p != Target(dir, froms[i]);
      }
      assert p != Target(dir, froms[n]);
      DepositsKeep(t, dir, froms[..n], local, p);
    }
  }
}
