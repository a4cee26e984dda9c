/**
  The string operations of Go's `strings` package that lxdk builds its names,
  paths and parsers from, with the facts about them the other modules need.
  Strings are sequences of characters; no operation here looks inside a
  multi-byte encoding.
 */
module Text {

  /** `sub` occurs in `s` starting at position `i`. */
  predicate OccursAt(s: string, sub: string, i: int) {
    0 <= i <= |s| - |sub| && s[i..i + |sub|] == sub
  }

  /** strings.Contains */
  predicate Contains(s: string, sub: string) {
    exists i | 0 <= i <= |s| - |sub| :: OccursAt(s, sub, i)
  }

  /** `r` is the first position at which `sub` occurs in `s`, or -1. */
  ghost predicate FirstOccurrence(s: string, sub: string, r: int) {
    if r == -1 then !Contains(s, sub) else OccursAt(s, sub, r) && forall j | 0 <= j < r :: !OccursAt(s, sub, j)
  }

  lemma OccursInTail(s: string, sub: string, j: int)
    requires s != "" && 1 <= j
    ensures OccursAt(s, sub, j) <==> OccursAt(s[1..], sub, j - 1)
  {
  }

  lemma FirstInTail(s: string, sub: string, r: int)
    requires s != "" && !OccursAt(s, sub, 0) && FirstOccurrence(s[1..], sub, r)
    ensures FirstOccurrence(s, sub, if r == -1 then -1 else r + 1)
  {
    forall j: int
      ensures 1 <= j ==> (OccursAt(s, sub, j) <==> OccursAt(s[1..], sub, j - 1))
    {
      if 1 <= j {
        OccursInTail(s, sub, j);
      }
    }
    if r != -1 {
      forall j | 0 <= j < r + 1
        ensures !OccursAt(s, sub, j)
      {
        assert j >= 1 ==> !OccursAt(s[1..], sub, j - 1);
      }
    }
  }

  /** strings.Index */
  function Index(s: string, sub: string): (r: int)
    ensures -1 <= r <= |s| - |sub| || r == -1
    ensures FirstOccurrence(s, sub, r)
  {
    if |s| < |sub| then
      -1
    else if s[..|sub|] == sub then
      assert OccursAt(s, sub, 0);
      0
    else
      var r := Index(s[1..], sub);
      FirstInTail(s, sub, r);
      if r == -1 then -1 else r + 1
  }

  /** strings.Split for a non-empty separator. */
  function Split(s: string, sep: string): (parts: seq<string>)
    requires sep != ""
    ensures |parts| >= 1
    decreases |s|
  {
    var i := Index(s, sep);
    if i == -1 then [s] else [s[..i]] + Split(s[i + |sep|..], sep)
  }

  /** strings.Join for a non-empty list. */
  function Join(parts: seq<string>, sep: string): string
    requires |parts| >= 1
  {
    if |parts| == 1 then parts[0] else parts[0] + sep + Join(parts[1..], sep)
  }

  /** strings.HasPrefix */
  predicate HasPrefix(s: string, prefix: string) {
    prefix <= s
  }

  /** strings.HasSuffix */
  predicate HasSuffix(s: string, suffix: string) {
    |suffix| <= |s| && s[|s| - |suffix|..] == suffix
  }

  /** strings.Count for a one-character substring. */
  function Count(s: string, c: char): nat {
    if s == "" then 0 else (if s[0] == c then 1 else 0) + Count(s[1..], c)
  }

  function LowerChar(c: char): char {
    if 'A' <= c <= 'Z' then (c as int + 32) as char else c
  }

  /** strings.ToLower on ASCII text. */
  function ToLower(s: string): (r: string)
    ensures |r| == |s|
    ensures forall i | 0 <= i < |s| :: r[i] == LowerChar(s[i])
  {
    seq(|s|, i requires 0 <= i < |s| => LowerChar(s[i]))
  }

  /** A lower-cased text has no capital letter, every other character is as it was, and lower-casing it again changes nothing. */
  lemma LowerHasNoUpper(s: string)
    ensures forall i | 0 <= i < |s| :: !('A' <= ToLower(s)[i] <= 'Z')
    ensures forall i | 0 <= i < |s| :: if 'A' <= s[i] <= 'Z' then ToLower(s)[i] as int - s[i] as int == 'a' as int - 'A' as int
                                       else ToLower(s)[i] == s[i]
    ensures ToLower(ToLower(s)) == ToLower(s)
  {
    assert forall i | 0 <= i < |s| :: ToLower(ToLower(s))[i] == ToLower(s)[i];
  }

  /** A non-empty list is its front followed by its last element. */
  lemma FrontAndLast<T>(s: seq<T>)
    requires s != []
    ensures s == s[..|s| - 1] + [s[|s| - 1]]
    ensures s[|s| - 1] in s && forall x | x in s[..|s| - 1] :: x in s
  {
  }

  lemma TakeNext<T>(s: seq<T>, i: nat)
    requires i < |s|
    ensures s[..i + 1] == s[..i] + [s[i]]
  {
  }

  // ---- occurrences ----

  /** A first occurrence is what Index finds. */
  lemma IndexIsFirst(s: string, sub: string, k: nat)
    requires OccursAt(s, sub, k)
    requires forall j | 0 <= j < k :: !OccursAt(s, sub, j)
    ensures Index(s, sub) == k
  {
  }

  /** Splitting at a separator whose first occurrence is right after `a`. */
  lemma SplitAt(a: string, sep: string, b: string)
    requires sep != ""
    requires Index(a + sep + b, sep) == |a|
    ensures Split(a + sep + b, sep) == [a] + Split(b, sep)
  {
    var s := a + sep + b;
    assert s[..|a|] == a;
    assert s[|a| + |sep|..] == b;
  }

  /** A one-character separator first occurs right after separator-free text. */
  lemma IndexAfter(a: string, c: char, b: string)
    requires c !in a
    ensures Index(a + [c] + b, [c]) == |a|
  {
    var s := a + [c] + b;
    assert OccursAt(s, [c], |a|);
    forall j | 0 <= j < |a|
      ensures !OccursAt(s, [c], j)
    {
      assert s[j..j + 1][0] == a[j];
    }
    IndexIsFirst(s, [c], |a|);
  }

  /** A one-character occurrence is the character standing there. */
  lemma OccursChar(s: string, c: char, i: int)
    ensures OccursAt(s, [c], i) <==> 0 <= i < |s| && s[i] == c
  {
  }

  /** Before the first occurrence, or everywhere if there is none, `c` is absent. */
  lemma AbsentBefore(s: string, c: char)
    ensures Index(s, [c]) == -1 ==> c !in s
    ensures Index(s, [c]) != -1 ==> c !in s[..Index(s, [c])] && s[Index(s, [c])] == c
  {
  }

  /** Splitting text whose first part is given. */
  lemma SplitCons(a: string, c: char, b: string)
    requires c !in a
    ensures Split(a + [c] + b, [c]) == [a] + Split(b, [c])
  {
    IndexAfter(a, c, b);
    SplitAt(a, [c], b);
  }

  /** Text without the character is one single part. */
  lemma SplitSingle(a: string, c: char)
    requires c !in a
    ensures Split(a, [c]) == [a]
  {
    OccursChar(a, c, Index(a, [c]));
  }

  /** Splitting off the part before the first separator. */
  lemma SplitFirst(s: string, c: char) returns (a: string, b: string)
    requires Index(s, [c]) != -1
    ensures s == a + [c] + b && c !in a && |b| < |s|
    ensures Split(s, [c]) == [a] + Split(b, [c])
  {
    var i := Index(s, [c]);
    AbsentBefore(s, c);
    a, b := s[..i], s[i + 1..];
  }

  /** strings.Split undoes strings.Join on separator-free parts. */
  lemma {:induction false} SplitJoin(parts: seq<string>, c: char)
    requires |parts| >= 1
    requires forall p | p in parts :: c !in p
    ensures Split(Join(parts, [c]), [c]) == parts
  {
    if |parts| == 1 {
      SplitSingle(parts[0], c);
    } else {
      SplitJoin(parts[1..], c);
      SplitCons(parts[0], c, Join(parts[1..], [c]));
    }
  }

  /** strings.Join undoes strings.Split, and no part holds the separator. */
  lemma {:induction false} JoinSplit(s: string, c: char)
    ensures Join(Split(s, [c]), [c]) == s
    ensures forall p | p in Split(s, [c]) :: c !in p
    decreases |s|
  {
    if Index(s, [c]) == -1 {
      AbsentBefore(s, c);
    } else {
      var a, b := SplitFirst(s, c);
      JoinSplit(b, c);
      assert Split(s, [c])[1..] == Split(b, [c]);
    }
  }

  /** Joining with one more part at the end. */
  lemma {:induction false} JoinSnoc(parts: seq<string>, last: string, sep: string)
    requires |parts| >= 1
    ensures Join(parts + [last], sep) == Join(parts, sep) + sep + last
  {
    if |parts| > 1 {
      JoinSnoc(parts[1..], last, sep);
      assert (parts + [last])[1..] == parts[1..] + [last];
    }
  }

  /** A trailing separator adds one empty part. */
  lemma SplitTrailing(s: string, c: char)
    ensures Split(s + [c], [c]) == Split(s, [c]) + [""]
  {
    JoinSplit(s, c);
    JoinThenTrail(Split(s, [c]), c);
  }

  lemma JoinThenTrail(parts: seq<string>, c: char)
    requires |parts| >= 1
    requires forall p | p in parts :: c !in p
    ensures Split(Join(parts, [c]) + [c], [c]) == parts + [""]
  {
    JoinSnoc(parts, "", [c]);
    SplitJoin(parts + [""], c);
    assert Join(parts, [c]) + [c] + "" == Join(parts, [c]) + [c];
  }

  /** An occurrence in a piece is an occurrence in the whole. */
  lemma ContainsInContext(a: string, b: string, c: string, sub: string)
    requires Contains(b, sub)
    ensures Contains(a + b + c, sub)
  {
    var i :| 0 <= i <= |b| - |sub| && OccursAt(b, sub, i);
    assert (a + b + c)[|a| + i..|a| + i + |sub|] == b[i..i + |sub|];
    assert OccursAt(a + b + c, sub, |a| + i);
  }

  /** A needle without `c` cannot straddle a `c`. */
  lemma ContainsAcross(a: string, c: char, b: string, sub: string)
    requires sub != "" && c !in sub
    ensures Contains(a + [c] + b, sub) <==> Contains(a, sub) || Contains(b, sub)
  {
    var s := a + [c] + b;
    if Contains(s, sub) {
      var i :| 0 <= i <= |s| - |sub| && OccursAt(s, sub, i);
      assert forall k | i <= k < i + |sub| :: s[k] == sub[k - i] != c;
      assert s[|a|] == c;
      assert !(i <= |a| < i + |sub|);
      if i + |sub| <= |a| {
        assert a[i..i + |sub|] == sub;
        assert OccursAt(a, sub, i);
      } else if i > |a| {
        assert b == s[|a| + 1..];
        assert b[i - |a| - 1..i - |a| - 1 + |sub|] == sub;
        assert OccursAt(b, sub, i - |a| - 1);
      }
    }
    if Contains(a, sub) {
      ContainsInContext("", a, [c] + b, sub);
      assert "" + a + ([c] + b) == s;
    }
    if Contains(b, sub) {
      ContainsInContext(a + [c], b, "", sub);
      assert a + [c] + b + "" == s;
    }
  }

  /** No occurrence where the first character of the needle never stands. */
  lemma NoFirstChar(s: string, sub: string)
    requires sub != ""
    requires forall i | 0 <= i <= |s| - |sub| :: s[i] != sub[0]
    ensures !Contains(s, sub)
  {
    forall i | 0 <= i <= |s| - |sub|
      ensures !OccursAt(s, sub, i)
    {
      assert s[i..i + |sub|][0] == s[i];
    }
  }

  lemma {:induction false} CountConcat(a: string, b: string, c: char)
    ensures Count(a + b, c) == Count(a, c) + Count(b, c)
  {
    if a == "" {
      assert a + b == b;
    } else {
      CountConcat(a[1..], b, c);
      assert (a + b)[1..] == a[1..] + b;
    }
  }
}
