/** Handing out addresses from a CIDR (tester/profile/ipalloc.go); an IPv4 address is its 32-bit number. */
module IpAlloc {
  import opened Basics

  /** An address with a prefix length, not necessarily masked. */
  datatype Prefix = Prefix(ip: int, bits: int) {
    predicate Fits() { 0 <= ip < Two32 && 0 <= bits <= 32 }

    /** How many addresses the prefix holds. */
    function Size(): (n: int)
      ensures n >= 1
    {
      Pow2(if bits <= 32 then 32 - bits else 0)
    }

    function Network(): int { ip - ip % Size() }

    /** lastAddr. */
    function Broadcast(): int { Network() + Size() - 1 }

    predicate Contains(a: int) { Network() <= a <= Broadcast() }
  }

  /** Addresses that may be handed out: off the edges of prefixes shorter than /31, and not excluded. */
  predicate Usable(p: Prefix, exclude: set<int>, a: int) {
    p.Contains(a) && (p.bits < 31 ==> a != p.Network() && a != p.Broadcast()) && a !in exclude
  }

  /** All usable addresses from a on, in order. */
  function AllFrom(p: Prefix, exclude: set<int>, a: int): seq<int>
    decreases p.Broadcast() + 1 - a
  {
    if a > p.Broadcast() then []
    else (if Usable(p, exclude, a) then [a] else []) + AllFrom(p, exclude, a + 1)
  }

  lemma {:induction false} AllFromOk(p: Prefix, exclude: set<int>, a: int)
    ensures var l := AllFrom(p, exclude, a);
            Increasing(l) && forall x :: x in l <==> a <= x && Usable(p, exclude, x)
    decreases p.Broadcast() + 1 - a
  {
    hide Prefix.Network, Prefix.Broadcast;
    if a <= p.Broadcast() {
      AllFromOk(p, exclude, a + 1);
      var rest := AllFrom(p, exclude, a + 1);
      forall k | 0 <= k < |rest| ensures a < rest[k] {
        assert rest[k] in rest;
      }
    }
  }

  lemma OneMore(p: Prefix, exclude: set<int>, a: int)
    requires p.Contains(a)
    ensures AllFrom(p, exclude, a) == (if Usable(p, exclude, a) then [a] else []) + AllFrom(p, exclude, a + 1)
    ensures Usable(p, exclude, a) <==>
              !(p.bits < 31 && (a == p.Network() || a == p.Broadcast())) && a !in exclude
  {
    hide Prefix.Network, Prefix.Broadcast;
  }

  lemma NoneFrom(p: Prefix, exclude: set<int>, a: int)
    requires a > p.Broadcast()
    ensures AllFrom(p, exclude, a) == []
  {
  }

  function AsSet(s: seq<int>): set<int> { set a | a in s }

  /** AllocateIPs; None stands for a string that is not an IPv4 CIDR or address. */
  method AllocateIPs(cidr: Option<Prefix>, start: Option<int>, count: int, exclude: seq<int>)
    returns (r: Result<seq<int>>)
    requires (cidr.Some? ==> cidr.value.Fits()) && (start.Some? ==> 0 <= start.value < Two32)
    ensures r.Ok? <==> cidr.Some? && start.Some? && cidr.value.Contains(start.value)
                       && count <= |AllFrom(cidr.value, AsSet(exclude), start.value)|
    ensures r.Ok? ==> r.value == AllFrom(cidr.value, AsSet(exclude), start.value)[..if count < 0 then 0 else count]
  {
    if cidr.None? {
      return Err("not an IPv4 CIDR");
    }
    if start.None? {
      return Err("not an IPv4 address");
    }
    var prefix, first := cidr.value, start.value;
    if !prefix.Contains(first) {
      return Err("start IP is outside the CIDR");
    }
    var out := Collect(prefix, first, count, AsSet(exclude));
    if |out| < count {
      return Err("not enough usable IPs");
    }
    r := Ok(out);
  }

  /** AllocateIPs' loop: usable addresses from first on until there are enough, or none is left. */
  method Collect(prefix: Prefix, first: int, count: int, excluded: set<int>) returns (out: seq<int>)
    requires prefix.Contains(first)
    ensures out <= AllFrom(prefix, excluded, first) && |out| <= Max(count, 0)
    ensures |out| < count ==> out == AllFrom(prefix, excluded, first)
  {
    var network, broadcast := prefix.Network(), prefix.Broadcast();
    var skipEdges := prefix.bits < 31;
    out := [];
    var a := first;
    ghost var all := AllFrom(prefix, excluded, first);
    hide Prefix.Network, Prefix.Broadcast, AllFrom, Usable;
    while prefix.Contains(a) && |out| < count
      invariant first <= a <= broadcast + 1
      invariant out + AllFrom(prefix, excluded, a) == all
      invariant |out| <= Max(count, 0)
      decreases broadcast + 1 - a
    {
      var here := a;
      OneMore(prefix, excluded, a);
      a := a + 1;
      if skipEdges && (here == network || here == broadcast) {
        continue;
      }
      if here in excluded {
        continue;
      }
      out := out + [here];
      if here == broadcast {
        break;
      }
    }
    if |out| < count {
      NoneFrom(prefix, excluded, a);
    }
  }
}
