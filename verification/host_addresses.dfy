/**
 * A host's IPv4 addresses under the kernel's rule for secondaries, and what
 * placing, undoing and removing addresses does to them
 * (tester/netcfg/netcfg.go, tester/run/addr.go).
 */
module HostAddresses {
  import opened Basics

  /** An address with its prefix length on an interface. */
  datatype Addr = Addr(iface: string, ip: nat, bits: nat)

  function Subnet(a: Addr): int {
    a.ip / Pow2(if a.bits <= 32 then 32 - a.bits else 0)
  }

  predicate SameNet(a: Addr, b: Addr) {
    a.iface == b.iface && a.bits == b.bits && Subnet(a) == Subnet(b)
  }

  /** The first address of its subnet on its interface; the later ones are its secondaries. */
  predicate Primary(h: seq<Addr>, k: nat)
    requires k < |h|
  {
    forall j :: 0 <= j < k ==> !SameNet(h[j], h[k])
  }

  predicate NoDup(h: seq<Addr>) {
    forall i, j :: 0 <= i < j < |h| ==> h[i] != h[j]
  }

  ghost predicate HasSecondaries(h: seq<Addr>, a: Addr) {
    exists k, j :: 0 <= k < j < |h| && h[k] == a && Primary(h, k) && SameNet(a, h[j])
  }

  function IndexOf(h: seq<Addr>, a: Addr): (k: nat)
    requires a in h
    ensures k < |h| && h[k] == a
  {
    if h[0] == a then 0 else 1 + IndexOf(h[1..], a)
  }

  /** h without the addresses of a's subnet. */
  function Without(h: seq<Addr>, a: Addr): seq<Addr> {
    if h == [] then [] else (if SameNet(a, h[0]) then [] else [h[0]]) + Without(h[1..], a)
  }

  /** Removing a primary address takes its secondaries with it; removing a missing one changes nothing. */
  function Removed(h: seq<Addr>, a: Addr): seq<Addr> {
    if a !in h then h
    else
      var k := IndexOf(h, a);
      if Primary(h, k) then h[..k] + Without(h[k + 1..], a) else h[..k] + h[k + 1..]
  }

  lemma {:induction false} WithoutNone(h: seq<Addr>, a: Addr)
    requires forall j :: 0 <= j < |h| ==> !SameNet(a, h[j])
    ensures Without(h, a) == h
  {
    if h != [] {
      WithoutNone(h[1..], a);
    }
  }

  lemma {:induction false} WithoutShorter(h: seq<Addr>, a: Addr)
    ensures |Without(h, a)| <= |h|
    ensures (exists j :: 0 <= j < |h| && SameNet(a, h[j])) ==> |Without(h, a)| < |h|
  {
    if h != [] {
      WithoutShorter(h[1..], a);
      if j :| 0 <= j < |h| && SameNet(a, h[j]) {
        if j > 0 {
          assert h[1..][j - 1] == h[j];
        }
      }
    }
  }

  /** Undoing an addition right away gives the very same list back, whatever subnets it joined. */
  lemma RemoveLast(h: seq<Addr>, x: Addr)
    requires x !in h
    ensures Removed(h + [x], x) == h
  {
    var g := h + [x];
    var k := IndexOf(g, x);
    assert forall i :: 0 <= i < |h| ==> g[i] == h[i];
    assert k == |h|;
    assert g[k + 1..] == [] && g[..k] == h;
  }

  /** Where an address without secondaries sits, taking it away leaves the others as they are. */
  lemma RemovedAlone(h: seq<Addr>, a: Addr)
    requires a in h && !HasSecondaries(h, a)
    ensures var k := IndexOf(h, a); Removed(h, a) == h[..k] + h[k + 1..]
  {
    var k := IndexOf(h, a);
    if Primary(h, k) {
      var q := h[k + 1..];
      forall j | 0 <= j < |q| ensures !SameNet(a, q[j]) {
        assert q[j] == h[k + 1 + j];
      }
      WithoutNone(q, a);
    }
  }

  lemma Split(h: seq<Addr>, k: nat)
    requires k < |h|
    ensures h == h[..k] + [h[k]] + h[k + 1..]
    ensures multiset(h) == multiset(h[..k] + h[k + 1..] + [h[k]])
  {
    assert h == h[..k] + [h[k]] + h[k + 1..];
  }

  /** Exactly the addresses without secondaries can be taken off and put back without losing any other. */
  lemma TakenOffAndPutBack(h: seq<Addr>, a: Addr)
    requires NoDup(h) && a in h
    ensures multiset(Removed(h, a) + [a]) == multiset(h) <==> !HasSecondaries(h, a)
  {
    var k := IndexOf(h, a);
    Split(h, k);
    if HasSecondaries(h, a) {
      var i, j :| 0 <= i < j < |h| && h[i] == a && Primary(h, i) && SameNet(a, h[j]);
      assert i == k;
      assert h[k + 1..][j - k - 1] == h[j];
      WithoutShorter(h[k + 1..], a);
      assert |Removed(h, a) + [a]| < |h|;
      assert |multiset(Removed(h, a) + [a])| == |Removed(h, a) + [a]| && |multiset(h)| == |h|;
    } else {
      RemovedAlone(h, a);
    }
  }

  /** The same addresses, with the same ones depending on others. */
  ghost predicate Alike(h: seq<Addr>, g: seq<Addr>) {
    multiset(h) == multiset(g) && forall a :: HasSecondaries(h, a) <==> HasSecondaries(g, a)
  }

  /** Where the address now at i was before the one at k was moved to the end. */
  function Before(k: nat, n: nat, i: nat): nat { if i + 1 == n then k else if i < k then i else i + 1 }

  function After(k: nat, n: nat, i: nat): nat
    requires i < n
  {
    if i == k then n - 1 else if i < k then i else i - 1
  }

  lemma MovedPrimary(h: seq<Addr>, k: nat, i: nat)
    requires k < |h| && !HasSecondaries(h, h[k]) && i + 1 < |h|
    ensures var g := h[..k] + h[k + 1..] + [h[k]]; Primary(g, i) <==> Primary(h, Before(k, |h|, i))
  {
    var g, i2 := h[..k] + h[k + 1..] + [h[k]], Before(k, |h|, i);
    assert forall j :: 0 <= j < k ==> g[j] == h[j];
    if Primary(g, i) {
      assert i2 > k ==> !SameNet(h[k], h[i2]);
      forall j | 0 <= j < i2 ensures !SameNet(h[j], h[i2]) {
        assert h[j] == g[After(k, |h|, j)];
      }
    }
    if Primary(h, i2) {
      forall j | 0 <= j < i ensures !SameNet(g[j], g[i]) {
        assert g[j] == h[Before(k, |h|, j)];
      }
    }
  }

  /** Moving an address without secondaries to the end of the list changes nothing that matters. */
  lemma MovedIsAlike(h: seq<Addr>, a: Addr)
    requires NoDup(h) && a in h && !HasSecondaries(h, a)
    ensures Alike(Removed(h, a) + [a], h) && NoDup(Removed(h, a) + [a])
  {
    var k := IndexOf(h, a);
    var g := h[..k] + h[k + 1..] + [a];
    RemovedAlone(h, a);
    Split(h, k);
    forall x ensures HasSecondaries(g, x) <==> HasSecondaries(h, x) {
      if HasSecondaries(g, x) {
        MovedBack(h, k, x);
      }
      if HasSecondaries(h, x) {
        MovedOn(h, k, x);
      }
    }
    assert Removed(h, a) + [a] == g;
  }

  lemma MovedBack(h: seq<Addr>, k: nat, x: Addr)
    requires k < |h| && !HasSecondaries(h, h[k])
    requires HasSecondaries(h[..k] + h[k + 1..] + [h[k]], x)
    ensures HasSecondaries(h, x)
  {
    var g := h[..k] + h[k + 1..] + [h[k]];
    var i, j :| 0 <= i < j < |g| && g[i] == x && Primary(g, i) && SameNet(x, g[j]);
    var i2, j2 := Before(k, |h|, i), Before(k, |h|, j);
    MovedPrimary(h, k, i);
    assert h[i2] == x && h[j2] == g[j];
    if j + 1 == |g| {
      assert SameNet(h[k], h[i2]);
    }
    assert i2 < j2;
  }

  lemma MovedOn(h: seq<Addr>, k: nat, x: Addr)
    requires k < |h| && !HasSecondaries(h, h[k]) && HasSecondaries(h, x)
    ensures HasSecondaries(h[..k] + h[k + 1..] + [h[k]], x)
  {
    var g := h[..k] + h[k + 1..] + [h[k]];
    var i, j :| 0 <= i < j < |h| && h[i] == x && Primary(h, i) && SameNet(x, h[j]);
    assert i != k;
    var i2, j2 := After(k, |h|, i), After(k, |h|, j);
    MovedPrimary(h, k, i2);
    assert g[i2] == x && g[j2] == h[j] && i2 < j2;
  }

  // ------------------------------------------------------------- addrChange

  /** What placeAddr did: the address it added, and the host's own address it took off first. */
  datatype AddrChange = AddrChange(added: Option<Addr>, replaced: Option<Addr>)

  const NoChange := AddrChange(None, None)

  function Applied(h: seq<Addr>, ch: AddrChange): seq<Addr> {
    (if ch.replaced.Some? then Removed(h, ch.replaced.value) else h) + (if ch.added.Some? then [ch.added.value] else [])
  }

  function Undone(h: seq<Addr>, ch: AddrChange): seq<Addr> {
    (if ch.added.Some? then Removed(h, ch.added.value) else h) + (if ch.replaced.Some? then [ch.replaced.value] else [])
  }

  /** ch is a change placeAddr makes to h for want. */
  ghost predicate Fits(h: seq<Addr>, ch: AddrChange) {
    && ch.added.Some?
    && (ch.replaced.Some? ==>
          ch.replaced.value in h && ch.added.value !in Removed(h, ch.replaced.value)
          && ch.replaced.value.iface == ch.added.value.iface && ch.replaced.value.ip == ch.added.value.ip
          && ch.replaced.value.bits != ch.added.value.bits)
    && (ch.replaced.None? ==> ch.added.value !in h)
  }

  /** The error results of placeAddr: with its rollback, a replaced address may be back, or not at all. */
  ghost predicate PlaceFails(h: seq<Addr>, want: Addr, t: seq<Addr>) {
    || t == h
    || exists a :: a in h && a.iface == want.iface && a.ip == want.ip && a.bits != want.bits
                   && (t == Removed(h, a) || t == Removed(h, a) + [a])
  }

  /**
   * Every result of placeAddr(want): found as wanted, added, or added for the same IP with another
   * prefix on the interface.
   */
  ghost predicate Places(h: seq<Addr>, want: Addr, t: seq<Addr>, ch: AddrChange, ok: bool) {
    if !ok then ch == NoChange && PlaceFails(h, want, t)
    else if ch.added.None? then
      ch == NoChange && t == h && exists a :: a in h && a.ip == want.ip && a.bits == want.bits
    else
      ch.added == Some(want) && Fits(h, ch) && t == Applied(h, ch)
      && (ch.replaced.None? ==> forall a :: a in h ==> a.ip != want.ip)
  }

  /**
   * A successful placeAddr followed by a successful undo: the list is the same, or the replaced
   * address has moved to its end.
   */
  lemma UndoAfterPlace(h: seq<Addr>, ch: AddrChange)
    requires Fits(h, ch)
    ensures Undone(Applied(h, ch), ch) ==
            match ch.replaced { case None => h case Some(a) => Removed(h, a) + [a] }
  {
    RemoveLast(match ch.replaced { case None => h case Some(a) => Removed(h, a) }, ch.added.value);
    assert h + [] == h;
  }

  /** undo restores the host's address set if and only if the address placeAddr replaced had no secondaries. */
  lemma UndoRestores(h: seq<Addr>, ch: AddrChange)
    requires NoDup(h) && Fits(h, ch)
    ensures multiset(Undone(Applied(h, ch), ch)) == multiset(h)
            <==> (ch.replaced.None? || !HasSecondaries(h, ch.replaced.value))
    ensures (ch.replaced.None? || !HasSecondaries(h, ch.replaced.value)) ==>
              Alike(Undone(Applied(h, ch), ch), h)
              && NoDup(Undone(Applied(h, ch), ch))
  {
    UndoAfterPlace(h, ch);
    if ch.replaced.Some? {
      TakenOffAndPutBack(h, ch.replaced.value);
      if !HasSecondaries(h, ch.replaced.value) {
        MovedIsAlike(h, ch.replaced.value);
      }
    }
  }

  /**
   * A host whose own secondary is lost for good: 10.0.0.1/24 is replaced by 10.0.0.1/16 while
   * 10.0.0.2/24 depends on it.
   */
  lemma SecondaryLost()
    ensures var first, second := Addr("n6", 0x0A00_0001, 24), Addr("n6", 0x0A00_0002, 24);
            var sink := Addr("n6", 0x0A00_0001, 16);
            var ch := AddrChange(Some(sink), Some(first));
            Fits([first, second], ch) && Undone(Applied([first, second], ch), ch) == [first]
  {
    var first, second, sink := Addr("n6", 0x0A00_0001, 24), Addr("n6", 0x0A00_0002, 24), Addr("n6", 0x0A00_0001, 16);
    var h, ch := [first, second], AddrChange(Some(sink), Some(first));
    assert Pow2(8) == 256;
    assert SameNet(first, second);
    assert IndexOf(h, first) == 0 && h[1..] == [second] && [second][1..] == [];
    assert Without([second], first) == [];
    assert Removed(h, first) == [];
    UndoAfterPlace(h, ch);
  }

  // ----------------------------------------------- a run's list of changes

  /** The host after a run's changes, oldest first. */
  function Built(base: seq<Addr>, changes: seq<AddrChange>): seq<Addr> {
    if changes == [] then base else Applied(Built(base, changes[..|changes| - 1]), changes[|changes| - 1])
  }

  ghost predicate AllFit(base: seq<Addr>, changes: seq<AddrChange>) {
    changes == [] ||
    (AllFit(base, changes[..|changes| - 1]) && Fits(Built(base, changes[..|changes| - 1]), changes[|changes| - 1]))
  }

  /** Only the sink, which goes on first, may replace an address. */
  predicate SinkFirst(changes: seq<AddrChange>) {
    forall k :: 0 < k < |changes| ==> changes[k].replaced.None?
  }

  /** removeIPs: undo from the last change back. */
  function UndoneAll(h: seq<Addr>, changes: seq<AddrChange>): seq<Addr>
    decreases |changes|
  {
    if changes == [] then h else UndoneAll(Undone(h, changes[|changes| - 1]), changes[..|changes| - 1])
  }

  /** Walking backwards gives the host back, but for the place of an address the sink replaced. */
  lemma {:induction false} UndoAllRestores(base: seq<Addr>, changes: seq<AddrChange>)
    requires AllFit(base, changes) && SinkFirst(changes)
    ensures UndoneAll(Built(base, changes), changes) ==
            if changes != [] && changes[0].replaced.Some?
            then Removed(base, changes[0].replaced.value) + [changes[0].replaced.value]
            else base
  {
    if changes != [] {
      var n := |changes| - 1;
      UndoAfterPlace(Built(base, changes[..n]), changes[n]);
      if n > 0 {
        UndoAllRestores(base, changes[..n]);
      } else {
        assert changes[..n] == [];
      }
    }
  }

  /** So after removeIPs the host has its own addresses again if and only if the sink replaced none with secondaries. */
  lemma RemoveIPsRestores(base: seq<Addr>, changes: seq<AddrChange>)
    requires NoDup(base) && AllFit(base, changes) && SinkFirst(changes)
    ensures multiset(UndoneAll(Built(base, changes), changes)) == multiset(base)
            <==> (changes == [] || changes[0].replaced.None? || !HasSecondaries(base, changes[0].replaced.value))
    ensures (changes == [] || changes[0].replaced.None? || !HasSecondaries(base, changes[0].replaced.value))
            ==> Alike(UndoneAll(Built(base, changes), changes), base) && NoDup(UndoneAll(Built(base, changes), changes))
  {
    UndoAllRestores(base, changes);
    if changes != [] && changes[0].replaced.Some? {
      FirstFits(base, changes);
      UndoAfterPlace(base, changes[0]);
      UndoRestores(base, changes[0]);
    }
  }

  lemma {:induction false} FirstFits(base: seq<Addr>, changes: seq<AddrChange>)
    requires AllFit(base, changes) && changes != []
    ensures Fits(base, changes[0])
  {
    if |changes| > 1 {
      FirstFits(base, changes[..|changes| - 1]);
    } else {
      assert changes[..0] == [];
    }
  }

  /** Why the sink goes on first: replacing an address later takes a gNB's address in its subnet away. */
  lemma SinkLaterLoses()
    ensures var own, gnb, sink := Addr("n6", 0x0A00_0001, 24), Addr("n6", 0x0A00_0002, 24), Addr("n6", 0x0A00_0001, 16);
            Built([own], [AddrChange(Some(gnb), None), AddrChange(Some(sink), Some(own))]) == [sink]
  {
    var own, gnb, sink := Addr("n6", 0x0A00_0001, 24), Addr("n6", 0x0A00_0002, 24), Addr("n6", 0x0A00_0001, 16);
    var c0, c1 := AddrChange(Some(gnb), None), AddrChange(Some(sink), Some(own));
    assert [c0, c1][..1] == [c0] && [c0][..0] == [];
    assert Built([own], [c0]) == [own, gnb];
    assert Pow2(8) == 256;
    assert IndexOf([own, gnb], own) == 0 && [own, gnb][1..] == [gnb] && [gnb][1..] == [];
    assert SameNet(own, gnb) && Without([gnb], own) == [];
    assert Removed([own, gnb], own) == [];
  }
}
