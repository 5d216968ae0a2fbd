/** Expanding a profile into the gNBs and UEs of a run (tester/profile/expand.go). */
module Expand {
  import opened Basics
  import Increment
  import IpAlloc

  /**
   * What Expand reads of a profile, parsed; throughput is Scale.Throughput(),
   * core the addresses of the AMF, of both UPF sides and of the sink.
   */
  datatype Profile = Profile(
    gnbCount: int, ueCount: int, throughput: int,
    namePattern: string, gnbIdStart: string, mcc: string, mnc: string, msinStart: string,
    n2: IpAlloc.Prefix, n2Start: int, n3: IpAlloc.Prefix, n3Start: int, core: seq<int>)
  {
    /** What validateFields concludes. */
    ghost predicate Valid() {
      && gnbCount >= 1 && ueCount >= 1 && 0 <= throughput <= ueCount
      && (exists k :: Increment.IndexAt(namePattern, k))
      && gnbIdStart != "" && |gnbIdStart| % 2 == 0 && Increment.Digits(gnbIdStart, Increment.Hex)
      && msinStart != "" && Increment.Digits(msinStart, Increment.Dec)
      && n2.Fits() && n3.Fits() && 0 <= n2Start < Two32 && 0 <= n3Start < Two32
    }
  }

  datatype GnbSpec = GnbSpec(
    index: int, name: string, gnbId: string, n2Ip: int, n3Ip: int,
    ueCount: int, cpUeCount: int, ueFirst: int, ueLast: int, firstSupi: string, lastSupi: string)

  datatype UeSpec = UeSpec(index: int, gnb: int, msin: string, supi: string, cp: bool)

  datatype Plan = Plan(gnbs: seq<GnbSpec>, ues: seq<UeSpec>, uesPerGnb: int)

  // -------------------------------------------------------- shares of UEs

  /** How many UEs the gNBs before gNB g (from 0) have. */
  function Start(ues: int, perGnb: int, g: nat): int {
    if g == 0 then 0 else Start(ues, perGnb, g - 1) + Min(perGnb, ues - Start(ues, perGnb, g - 1))
  }

  lemma {:induction false} StartIs(ues: int, perGnb: int, g: nat)
    requires ues >= 0 && perGnb >= 0
    ensures Start(ues, perGnb, g) == Min(g * perGnb, ues) && 0 <= Start(ues, perGnb, g)
  {
    if g > 0 {
      StartIs(ues, perGnb, g - 1);
      assert g * perGnb == (g - 1) * perGnb + perGnb;
    }
  }

  /** The last gNB's share ends with the last UE. */
  lemma AllShared(ues: int, count: int)
    requires ues >= 1 && count >= 1
    ensures Start(ues, (ues + count - 1) / count, count) == ues
  {
    var per := (ues + count - 1) / count;
    assert ues + count - 1 == per * count + (ues + count - 1) % count;
    assert count * per >= ues;
    StartIs(ues, per, count);
  }

  lemma StartGrows(ues: int, perGnb: int, g: nat, h: nat)
    requires ues >= 0 && perGnb >= 0 && g <= h
    ensures 0 <= Start(ues, perGnb, g) <= Start(ues, perGnb, h) <= ues
  {
    StartIs(ues, perGnb, g);
    StartIs(ues, perGnb, h);
    MoreGnbs(perGnb, g, h);
    hide Start;
  }

  lemma MoreGnbs(perGnb: int, g: nat, h: nat)
    requires perGnb >= 0 && g <= h
    ensures 0 <= g * perGnb <= h * perGnb
  {
    assert (h - g) * perGnb >= 0;
  }

  // ------------------------------------------------------------- the plan

  function Lower(s: string): (t: string)
    ensures |t| == |s|
  {
    seq(|s|, i requires 0 <= i < |s| => if 'A' <= s[i] <= 'Z' then s[i] - 'A' + 'a' else s[i])
  }

  predicate LowerCase(s: string) { forall k :: 0 <= k < |s| ==> !('A' <= s[k] <= 'Z') }

  function Msin(p: Profile, u: nat): string {
    match Increment.Incremented(p.msinStart, u, Increment.Dec) case None => "" case Some(m) => m
  }

  function Supi(p: Profile, u: nat): string { "imsi-" + p.mcc + p.mnc + Msin(p, u) }

  function GnbId(p: Profile, g: nat): string {
    match Increment.Incremented(p.gnbIdStart, g, Increment.Hex) case None => "" case Some(id) => Lower(id)
  }

  /** r is UE u (from 0): it belongs to the gNB whose share it is in. */
  ghost predicate UeOk(p: Profile, per: int, r: UeSpec, u: nat) {
    && 0 <= r.gnb && Start(p.ueCount, per, r.gnb) <= u < Start(p.ueCount, per, r.gnb + 1)
    && r == UeSpec(u + 1, r.gnb, Msin(p, u), Supi(p, u), u + 1 > p.throughput)
  }

  ghost predicate UesOk(p: Profile, per: int, ues: seq<UeSpec>, gnbs: nat) {
    && |ues| == Start(p.ueCount, per, gnbs)
    && forall u :: 0 <= u < |ues| ==> UeOk(p, per, ues[u], u) && ues[u].gnb < gnbs
  }

  /** How many of the UEs from first to end - 1 are in the control-plane test. */
  function CpIn(p: Profile, first: int, end: int): int { Max(0, end - Max(first, p.throughput)) }

  ghost predicate GnbOk(p: Profile, per: int, n2: seq<int>, n3: seq<int>, r: GnbSpec, g: nat) {
    var first, end := Start(p.ueCount, per, g), Start(p.ueCount, per, g + 1);
    && r.index == g + 1 && r.name == Increment.RenderName(p.namePattern, g + 1) && r.gnbId == GnbId(p, g)
    && g < |n2| && g < |n3| && r.n2Ip == n2[g] && r.n3Ip == n3[g]
    && 0 <= first <= end && r.ueCount == end - first && r.cpUeCount == CpIn(p, first, end)
    && (if first < end then
          r.ueFirst == first + 1 && r.ueLast == end && r.firstSupi == Supi(p, first) && r.lastSupi == Supi(p, end - 1)
        else r.ueFirst == 0 && r.ueLast == 0 && r.firstSupi == "" && r.lastSupi == "")
  }

  ghost predicate GnbsOk(p: Profile, per: int, n2: seq<int>, n3: seq<int>, gnbs: seq<GnbSpec>) {
    forall g :: 0 <= g < |gnbs| ==> GnbOk(p, per, n2, n3, gnbs[g], g)
  }

  ghost predicate PlanOk(p: Profile, n2: seq<int>, n3: seq<int>, plan: Plan)
    requires p.gnbCount >= 1
  {
    && plan.uesPerGnb == (p.ueCount + p.gnbCount - 1) / p.gnbCount
    && |plan.gnbs| == p.gnbCount && |plan.ues| == p.ueCount
    && UesOk(p, plan.uesPerGnb, plan.ues, p.gnbCount)
    && GnbsOk(p, plan.uesPerGnb, n2, n3, plan.gnbs)
  }

  /** The increments of a validated profile that Expand checks once. */
  predicate IncrementsFit(p: Profile)
    requires p.gnbCount >= 1 && p.ueCount >= 1
  {
    && Increment.Incremented(p.gnbIdStart, p.gnbCount - 1, Increment.Hex).Some?
    && Increment.Incremented(p.msinStart, p.ueCount - 1, Increment.Dec).Some?
  }

  /** The N2 addresses: the first usable ones from the start address. */
  ghost predicate N2Ok(p: Profile, hostIPs: seq<int>, n2: seq<int>) {
    var all := IpAlloc.AllFrom(p.n2, IpAlloc.AsSet(p.core + hostIPs), p.n2Start);
    p.n2.Contains(p.n2Start) && 0 <= p.gnbCount <= |all| && n2 == all[..p.gnbCount]
  }

  /** The N3 addresses: the same, with the N2 ones excluded too. */
  ghost predicate N3Ok(p: Profile, hostIPs: seq<int>, n2: seq<int>, n3: seq<int>) {
    var all := IpAlloc.AllFrom(p.n3, IpAlloc.AsSet(p.core + hostIPs + n2), p.n3Start);
    p.n3.Contains(p.n3Start) && 0 <= p.gnbCount <= |all| && n3 == all[..p.gnbCount]
  }

  /** Expand on a profile that passed validateFields; also the addresses it assigned. */
  method ExpandProfile(p: Profile, hostIPs: seq<int>) returns (r: Option<Plan>, n2: seq<int>, n3: seq<int>)
    requires p.Valid()
    ensures r.Some? ==>
              IncrementsFit(p) && N2Ok(p, hostIPs, n2) && N3Ok(p, hostIPs, n2, n3)
              && PlanOk(p, n2, n3, r.value)
    ensures r.None? ==> !(IncrementsFit(p) && exists a, b :: N2Ok(p, hostIPs, a) && N3Ok(p, hostIPs, a, b))
  {
    hide IpAlloc.AllFrom, IpAlloc.AsSet, PlanOk, IncrementsFit, Increment.Digits, Increment.IndexAt,
         IpAlloc.Prefix.Contains;
    r, n2, n3 := None, [], [];
    var exclude := p.core + hostIPs;
    var got2 := IpAlloc.AllocateIPs(Some(p.n2), Some(p.n2Start), p.gnbCount, exclude);
    if got2.Ok? {
      n2 := got2.value;
    }
    var got3 := IpAlloc.AllocateIPs(Some(p.n3), Some(p.n3Start), p.gnbCount, exclude + n2);
    if got3.Ok? {
      n3 := got3.value;
    }
    if got2.Err? || got3.Err? || !IncrementsFit(p) {
      if a, b :| N2Ok(p, hostIPs, a) && N3Ok(p, hostIPs, a, b) {
        assert a == n2;
      }
      return;
    }
    var per := (p.ueCount + p.gnbCount - 1) / p.gnbCount;
    var gnbs, ues := Assign(p, per, n2, n3);
    r := Some(Plan(gnbs, ues, per));
  }

  /** Expand's loops. The increments it does not check cannot fail. */
  method Assign(p: Profile, per: int, n2: seq<int>, n3: seq<int>) returns (gnbs: seq<GnbSpec>, ues: seq<UeSpec>)
    requires p.Valid() && IncrementsFit(p) && per == (p.ueCount + p.gnbCount - 1) / p.gnbCount
    requires |n2| == |n3| == p.gnbCount
    ensures PlanOk(p, n2, n3, Plan(gnbs, ues, per))
  {
    hide GnbOk, UesOk, IncrementsFit, Start, Increment.Digits, Increment.IndexAt;
    AllShared(p.ueCount, p.gnbCount);
    gnbs, ues := [], [];
    NoUes(p, per);
    for i := 0 to p.gnbCount
      invariant |gnbs| == i && UesOk(p, per, ues, i) && GnbsOk(p, per, n2, n3, gnbs)
    {
      StartGrows(p.ueCount, per, i, i + 1);
      UesUpTo(p, per, ues, i);
      var before, cps := |ues|, 0;
      ues, cps := AssignUes(p, per, ues, i);
      UesUpTo(p, per, ues, i + 1);
      var spec := AssignGnb(p, per, n2, n3, ues, i, |ues| - before, cps);
      gnbs := gnbs + [spec];
    }
    UesUpTo(p, per, ues, p.gnbCount);
  }

  lemma NoUes(p: Profile, per: int)
    ensures UesOk(p, per, [], 0)
  {
  }

  lemma UesUpTo(p: Profile, per: int, ues: seq<UeSpec>, gnbs: nat)
    requires UesOk(p, per, ues, gnbs)
    ensures |ues| == Start(p.ueCount, per, gnbs)
    ensures forall u :: 0 <= u < |ues| ==> ues[u].supi == Supi(p, u)
  {
  }

  lemma MoreUes(p: Profile, per: int, done: seq<UeSpec>, ues: seq<UeSpec>, i: nat)
    requires UesOk(p, per, done, i) && done <= ues && |ues| == Start(p.ueCount, per, i + 1)
    requires forall u :: |done| <= u < |ues| ==> UeOk(p, per, ues[u], u) && ues[u].gnb == i
    ensures UesOk(p, per, ues, i + 1)
  {
    hide UeOk;
  }

  /** The UEs of one gNB. */
  method AssignUes(p: Profile, per: int, done: seq<UeSpec>, i: nat) returns (ues: seq<UeSpec>, cps: int)
    requires p.Valid() && IncrementsFit(p) && UesOk(p, per, done, i)
    requires 0 <= Start(p.ueCount, per, i) <= Start(p.ueCount, per, i + 1) <= p.ueCount
    ensures UesOk(p, per, ues, i + 1)
    ensures cps == CpIn(p, Start(p.ueCount, per, i), Start(p.ueCount, per, i + 1))
  {
    hide UesOk, Increment.Incremented, Increment.Digits, Increment.IndexAt, IpAlloc.Prefix.Fits;
    UesUpTo(p, per, done, i);
    ghost var first, end := Start(p.ueCount, per, i), Start(p.ueCount, per, i + 1);
    var nextUe := |done| + 1;
    var n := Min(per, p.ueCount - nextUe + 1);
    ues, cps := done, 0;
    for k := 0 to n
      invariant |ues| == first + k && nextUe == |ues| + 1 && done <= ues
      invariant forall u :: |done| <= u < |ues| ==> UeOk(p, per, ues[u], u) && ues[u].gnb == i
      invariant cps == CpIn(p, first, first + k)
    {
      Increment.AllIncrements(p.msinStart, p.ueCount - 1, Increment.Dec, nextUe - 1, nextUe - 1);
      var msin := Increment.Incremented(p.msinStart, nextUe - 1, Increment.Dec).value;
      var cp := nextUe > p.throughput;
      if cp {
        cps := cps + 1;
      }
      ues := ues + [UeSpec(nextUe, i, msin, "imsi-" + p.mcc + p.mnc + msin, cp)];
      nextUe := nextUe + 1;
    }
    MoreUes(p, per, done, ues, i);
  }

  method AssignGnb(p: Profile, per: int, n2: seq<int>, n3: seq<int>, ues: seq<UeSpec>, i: nat, n: int, cps: int)
    returns (spec: GnbSpec)
    requires p.Valid() && IncrementsFit(p) && i < p.gnbCount && |n2| == |n3| == p.gnbCount
    requires 0 <= Start(p.ueCount, per, i) <= Start(p.ueCount, per, i + 1) == |ues|
    requires forall u :: 0 <= u < |ues| ==> ues[u].supi == Supi(p, u)
    requires n == |ues| - Start(p.ueCount, per, i) && cps == CpIn(p, |ues| - n, |ues|)
    ensures GnbOk(p, per, n2, n3, spec, i)
  {
    hide Increment.Incremented, Start, Supi, Increment.RenderName, Increment.Digits, Increment.IndexAt;
    Increment.AllIncrements(p.gnbIdStart, p.gnbCount - 1, Increment.Hex, i, i);
    var id := Increment.Incremented(p.gnbIdStart, i, Increment.Hex).value;
    var first := |ues| - n;
    spec := GnbSpec(i + 1, Increment.RenderName(p.namePattern, i + 1), Lower(id), n2[i], n3[i], n, cps, 0, 0, "", "");
    if n > 0 {
      spec := spec.(ueFirst := first + 1, ueLast := |ues|, firstSupi := ues[first].supi,
          lastSupi := ues[|ues| - 1].supi);
    }
  }
}
