/**
  Choosing a container's address among what LXD reports for its network
  devices, and the text forms of addresses.
 */
module Addresses {
  import opened Text

  datatype Address = Address(family: string, scope: string, text: string)

  datatype Nic = Nic(kind: string, addresses: seq<Address>)

  datatype IpResult = Ip(text: string) | NoAddress | NotAnIp(bad: string)

  // ---- text forms ----

  predicate Digit(c: char) {
    '0' <= c <= '9'
  }

  predicate HexDigit(c: char) {
    Digit(c) || 'a' <= c <= 'f' || 'A' <= c <= 'F'
  }

  function Decimal(s: string): int
    requires forall i | 0 <= i < |s| :: Digit(s[i])
  {
    if s == "" then 0 else 10 * Decimal(s[..|s| - 1]) + (s[|s| - 1] as int - '0' as int)
  }

  predicate Octet(s: string) {
    s != "" && (forall i | 0 <= i < |s| :: Digit(s[i])) && Decimal(s) <= 255
  }

  /** Dotted decimal. */
  predicate IPv4Text(s: string) {
    var parts := Split(s, ".");
    |parts| == 4 && forall i | 0 <= i < 4 :: Octet(parts[i])
  }

  predicate HexGroup(s: string) {
    1 <= |s| <= 4 && forall i | 0 <= i < |s| :: HexDigit(s[i])
  }

  /** Colon-separated groups, the last perhaps in dotted decimal. */
  predicate Groups(parts: seq<string>) {
    && |parts| >= 1
    && (forall i | 0 <= i < |parts| - 1 :: HexGroup(parts[i]))
    && (HexGroup(parts[|parts| - 1]) || IPv4Text(parts[|parts| - 1]))
  }

  /** How many of the eight 16-bit pieces the groups stand for. */
  function Pieces(parts: seq<string>): nat
    requires |parts| >= 1
  {
    if IPv4Text(parts[|parts| - 1]) then |parts| + 1 else |parts|
  }

  /** Nothing, or groups, on one side of "::". */
  predicate Side(s: string) {
    s == "" || Groups(Split(s, ":"))
  }

  function SidePieces(s: string): nat {
    if s == "" then 0 else Pieces(Split(s, ":"))
  }

  /** The three text forms of section 2.2 of RFC 4291. */
  predicate IPv6Text(s: string) {
    || (Groups(Split(s, ":")) && Pieces(Split(s, ":")) == 8)
    || exists i | 0 <= i <= |s| - 2 :: Compressed(s, i)
  }

  predicate Compressed(s: string, i: int) {
    && 0 <= i <= |s| - 2 && s[i..i + 2] == "::"
    && Side(s[..i]) && Side(s[i + 2..]) && !IPv4Text(s[..i])
    && SidePieces(s[..i]) + SidePieces(s[i + 2..]) <= 7
  }

  /** net.ParseIP accepts the text. */
  predicate ParsesAsIp(s: string) {
    IPv4Text(s) || IPv6Text(s)
  }

  lemma {:induction false} CountJoin(parts: seq<string>)
    requires |parts| >= 1
    ensures Count(Join(parts, ":"), ':') >= |parts| - 1
  {
    if |parts| > 1 {
      CountJoin(parts[1..]);
      CountConcat(parts[0] + ":", Join(parts[1..], ":"), ':');
      CountConcat(parts[0], ":", ':');
    }
  }

  /** Every IPv6 text form holds at least two colons. */
  lemma IPv6HasTwoColons(s: string)
    requires IPv6Text(s)
    ensures Count(s, ':') >= 2
  {
    if Groups(Split(s, ":")) && Pieces(Split(s, ":")) == 8 {
      FullHasColons(s, Split(s, ":"));
    } else {
      var i :| 0 <= i <= |s| - 2 && Compressed(s, i);
      TwoColonsAt(s, i);
    }
  }

  lemma FullHasColons(s: string, parts: seq<string>)
    requires parts == Split(s, ":") && Pieces(parts) == 8
    ensures Count(s, ':') >= 2
  {
    CountJoin(parts);
    JoinSplit(s, ':');
  }

  lemma TwoColonsAt(s: string, i: nat)
    requires i + 2 <= |s| && s[i..i + 2] == "::"
    ensures Count(s, ':') >= 2
  {
    var a, b := s[..i], s[i + 2..];
    assert s == a + "::" + b;
    CountConcat(a + "::", b, ':');
    CountConcat(a, "::", ':');
    assert "::"[1..] == ":";
  }

  // ---- the filter ----

  predicate Blacklisted(text: string, blacklist: seq<string>) {
    exists i | 0 <= i < |blacklist| :: Contains(text, blacklist[i])
  }

  /** The address passes every filter on interface, scope, family, form and blacklist. */
  predicate Usable(netName: string, nic: Nic, a: Address, blacklist: seq<string>) {
    && nic.kind != "loopback"
    && a.scope != "link" && a.scope != "local"
    && Contains(a.family, "inet") && netName != "cni0" && netName != "flannel.1"
    && Count(a.text, ':') < 2
    && !Blacklisted(a.text, blacklist)
  }

  /** Some device in `names` has a usable address with this text. */
  ghost predicate Offers(nets: map<string, Nic>, names: set<string>, blacklist: seq<string>, text: string) {
    exists n, i :: OffersAt(nets, names, blacklist, text, n, i)
  }

  ghost predicate OffersAt(nets: map<string, Nic>, names: set<string>, blacklist: seq<string>, text: string, n: string, i: int) {
    && n in names && n in nets && 0 <= i < |nets[n].addresses|
    && nets[n].addresses[i].text == text
    && Usable(n, nets[n], nets[n].addresses[i], blacklist)
  }

  method IsBlacklisted(text: string, blacklist: seq<string>) returns (blacklisted: bool)
    ensures blacklisted <==> Blacklisted(text, blacklist)
  {
    for i := 0 to |blacklist|
      invariant forall j | 0 <= j < i :: !Contains(text, blacklist[j])
    {
      if Contains(text, blacklist[i]) {
        return true;
      }
    }
    blacklisted := false;
  }

  /** Those of the first `n` addresses of a device that pass the filters, in order. */
  function Passing(netName: string, nic: Nic, blacklist: seq<string>, n: nat): seq<string>
    requires n <= |nic.addresses|
  {
    if n == 0 then []
    else
      var a := nic.addresses[n - 1];
      Passing(netName, nic, blacklist, n - 1) + (if Usable(netName, nic, a, blacklist) then [a.text] else [])
  }

  lemma {:induction false} PassingAreUsable(netName: string, nic: Nic, blacklist: seq<string>, n: nat)
    requires n <= |nic.addresses|
    ensures forall t :: t in Passing(netName, nic, blacklist, n) <==>
              exists i :: 0 <= i < n && nic.addresses[i].text == t && Usable(netName, nic, nic.addresses[i], blacklist)
  {
    if n > 0 {
      PassingAreUsable(netName, nic, blacklist, n - 1);
    }
  }

  lemma {:induction false} LoopbackPassesNothing(netName: string, nic: Nic, blacklist: seq<string>, n: nat)
    requires n <= |nic.addresses| && nic.kind == "loopback"
    ensures Passing(netName, nic, blacklist, n) == []
  {
    if n > 0 {
      LoopbackPassesNothing(netName, nic, blacklist, n - 1);
    }
  }

  /** The addresses of one device that pass the filters, in order. */
  method UsableOf(netName: string, nic: Nic, blacklist: seq<string>) returns (ips: seq<string>)
    ensures ips == Passing(netName, nic, blacklist, |nic.addresses|)
  {
    ips := [];
    if nic.kind == "loopback" {
      LoopbackPassesNothing(netName, nic, blacklist, |nic.addresses|);
      return;
    }
    for i := 0 to |nic.addresses|
      invariant ips == Passing(netName, nic, blacklist, i)
    {
      var addr := nic.addresses[i];
      if addr.scope == "link" || addr.scope == "local" {
        continue;
      }
      if Contains(addr.family, "inet") && netName != "cni0" && netName != "flannel.1" {
        var blacklisted := IsBlacklisted(addr.text, blacklist);
        if Count(addr.text, ':') < 2 && !blacklisted {
          ips := ips + [addr.text];
        }
      }
    }
  }

  /** The passing addresses of the devices, one device after the other. */
  function AllPassing(nets: map<string, Nic>, order: seq<string>, blacklist: seq<string>): seq<string>
    requires forall n | n in order :: n in nets
  {
    if order == [] then []
    else
      var n := order[|order| - 1];
      AllPassing(nets, order[..|order| - 1], blacklist) + Passing(n, nets[n], blacklist, |nets[n].addresses|)
  }

  /** What becomes of the addresses found: the first counts. */
  function Decide(ips: seq<string>): IpResult {
    if ips == [] then NoAddress else if ParsesAsIp(ips[0]) then Ip(ips[0]) else NotAnIp(ips[0])
  }

  /** The list holds the devices, each once. */
  ghost predicate Visits(order: seq<string>, nets: map<string, Nic>) {
    && (forall n :: n in order <==> n in nets)
    && forall i, j | 0 <= i < j < |order| :: order[i] != order[j]
  }

  /**
    GetContainerLXDIP once the instance has been fetched. The devices are
    visited in some order, each once; the first address found is the one parsed.
   */
  method ChooseAddress(nets: map<string, Nic>, blacklist: seq<string>) returns (r: IpResult, ghost order: seq<string>)
    ensures Visits(order, nets) && r == Decide(AllPassing(nets, order, blacklist))
    ensures r.Ip? ==> Offers(nets, nets.Keys, blacklist, r.text) && IPv4Text(r.text)
    ensures r.NotAnIp? ==> Offers(nets, nets.Keys, blacklist, r.bad) && !ParsesAsIp(r.bad)
    ensures r.NoAddress? <==> forall t :: !Offers(nets, nets.Keys, blacklist, t)
  {
    var ips: seq<string> := [];
    var left := nets.Keys;
    order := [];
    ghost var visited: set<string> := {};
    while left != {}
      invariant left <= nets.Keys && left !! visited
      invariant visited + left == nets.Keys
      invariant forall n :: n in order <==> n in visited
      invariant forall i, j | 0 <= i < j < |order| :: order[i] != order[j]
      invariant ips == AllPassing(nets, order, blacklist)
      invariant forall t :: t in ips <==> Offers(nets, visited, blacklist, t)
      decreases left
    {
      var netName :| netName in left;
      var more := UsableOf(netName, nets[netName], blacklist);
      PassingAreUsable(netName, nets[netName], blacklist, |nets[netName].addresses|);
      OffersOneMore(nets, visited, netName, blacklist, ips, more);
      left, visited := left - {netName}, visited + {netName};
      ips := ips + more;
      order := order + [netName];
      assert order[..|order| - 1] + [netName] == order;
    }
    assert visited == nets.Keys;
    if ips == [] {
      return NoAddress, order;
    }
    assert ips[0] in ips;
    if !ParsesAsIp(ips[0]) {
      return NotAnIp(ips[0]), order;
    }
    OfferedIsIPv4(nets, nets.Keys, blacklist, ips[0]);
    r := Ip(ips[0]);
  }

  lemma OffersOneMore(nets: map<string, Nic>, names: set<string>, n: string, blacklist: seq<string>, ips: seq<string>, more: seq<string>)
    requires n in nets
    requires forall t :: t in ips <==> Offers(nets, names, blacklist, t)
    requires forall t :: t in more <==>
               exists i :: 0 <= i < |nets[n].addresses| && nets[n].addresses[i].text == t && Usable(n, nets[n], nets[n].addresses[i], blacklist)
    ensures forall t :: t in ips + more <==> Offers(nets, names + {n}, blacklist, t)
  {
    forall t
      ensures t in ips + more <==> Offers(nets, names + {n}, blacklist, t)
    {
      if Offers(nets, names + {n}, blacklist, t) {
        var m, i :| OffersAt(nets, names + {n}, blacklist, t, m, i);
        assert m == n || OffersAt(nets, names, blacklist, t, m, i);
      }
      if t in ips {
        var m, i :| OffersAt(nets, names, blacklist, t, m, i);
        assert OffersAt(nets, names + {n}, blacklist, t, m, i);
      }
      if t in more {
        var i :| 0 <= i < |nets[n].addresses| && nets[n].addresses[i].text == t && Usable(n, nets[n], nets[n].addresses[i], blacklist);
        assert OffersAt(nets, names + {n}, blacklist, t, n, i);
      }
    }
  }

  /** A usable address that parses is IPv4: the colon filter shuts out every IPv6 form. */
  lemma OfferedIsIPv4(nets: map<string, Nic>, names: set<string>, blacklist: seq<string>, text: string)
    requires Offers(nets, names, blacklist, text) && ParsesAsIp(text)
    ensures IPv4Text(text)
  {
    if IPv6Text(text) {
      IPv6HasTwoColons(text);
    }
  }

  /** An empty string in the blacklist shuts out every address of every container. */
  lemma EmptyBlacklistsAll(nets: map<string, Nic>, names: set<string>, blacklist: seq<string>, text: string)
    requires "" in blacklist
    ensures !Offers(nets, names, blacklist, text)
  {
    var i :| 0 <= i < |blacklist| && blacklist[i] == "";
    assert OccursAt(text, "", 0);
    assert Contains(text, blacklist[i]);
  }
}
