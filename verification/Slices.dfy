/**
  Go slices of strings: a backing array and a length; what lies behind the
  length is spare capacity that another slice may share.
 */
module Slices {

  datatype Slice = Slice(backing: array<string>, len: nat)

  ghost predicate Valid(s: Slice) {
    s.len <= s.backing.Length
  }

  ghost function View(s: Slice): seq<string>
    requires Valid(s)
    reads s.backing
  {
    s.backing[..s.len]
  }

  /** A slice as a decoder leaves it, with whatever spare capacity its growth left. */
  method Decode(xs: seq<string>) returns (s: Slice)
    ensures Valid(s) && fresh(s.backing) && View(s) == xs
  {
    var spare: nat :| true;
    var a := new string[|xs| + spare](_ => "");
    for i := 0 to |xs|
      invariant a[..i] == xs[..i]
    {
      a[i] := xs[i];
    }
    assert a[..|xs|] == xs;
    s := Slice(a, |xs|);
  }

  /** append(s, x): in place if there is spare capacity, into a bigger array if not. */
  method Append(s: Slice, x: string) returns (r: Slice)
    requires Valid(s)
    modifies s.backing
    ensures Valid(r) && (r.backing == s.backing || fresh(r.backing))
    ensures View(r) == old(View(s)) + [x]
    ensures View(s) == old(View(s))
  {
    if s.len < s.backing.Length {
      s.backing[s.len] := x;
      return Slice(s.backing, s.len + 1);
    }
    var spare: nat :| true;
    var a := new string[s.len + 1 + spare](_ => "");
    for i := 0 to s.len
      invariant a[..i] == s.backing[..i]
      invariant s.backing[..] == old(s.backing[..])
    {
      a[i] := s.backing[i];
    }
    a[s.len] := x;
    r := Slice(a, s.len + 1);
  }

  /** The elements a loop over the slice visits. */
  method Elements(s: Slice) returns (xs: seq<string>)
    requires Valid(s)
    ensures xs == View(s)
  {
    xs := s.backing[..s.len];
  }
}
