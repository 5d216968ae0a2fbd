/**
 * What a successful expansion promises about its plan, and that the plan fits the run (tester/profile,
 * tester/run/controller.go).
 */
module PlanProperties {
  import opened Basics
  import opened Expand
  import Increment
  import IpAlloc
  import RunTheorems

  // ------------------------------------------------------------- addresses

  /** The list holds the lowest usable addresses of the prefix that are not below start. */
  predicate FirstUsable(x: IpAlloc.Prefix, exclude: set<int>, start: int, l: seq<int>) {
    forall i :: 0 <= i < |l| ==> start <= l[i] && IpAlloc.Usable(x, exclude, l[i])
  }

  ghost predicate NoneSkipped(x: IpAlloc.Prefix, exclude: set<int>, start: int, l: seq<int>) {
    forall a, i :: start <= a && IpAlloc.Usable(x, exclude, a) && a !in l && 0 <= i < |l| ==> l[i] < a
  }

  lemma FirstOnes(x: IpAlloc.Prefix, exclude: set<int>, start: int, count: nat)
    requires count <= |IpAlloc.AllFrom(x, exclude, start)|
    ensures var l := IpAlloc.AllFrom(x, exclude, start)[..count];
            Distinct(l) && FirstUsable(x, exclude, start, l) && NoneSkipped(x, exclude, start, l)
  {
    hide IpAlloc.Usable;
    IpAlloc.AllFromOk(x, exclude, start);
    var all := IpAlloc.AllFrom(x, exclude, start);
    var l := all[..count];
    forall i | 0 <= i < count ensures l[i] in all && all[i] in l {
      assert l[i] == all[i];
    }
    forall a, i | start <= a && IpAlloc.Usable(x, exclude, a) && a !in l && 0 <= i < count ensures l[i] < a {
      assert a in all;
      var k :| 0 <= k < |all| && all[k] == a;
    }
  }

  /** No gNB gets an address twice, on either side, nor one of the core or the host, nor the edge of its CIDR. */
  lemma AddressesDistinct(p: Profile, hostIPs: seq<int>, n2: seq<int>, n3: seq<int>)
    requires N2Ok(p, hostIPs, n2) && N3Ok(p, hostIPs, n2, n3)
    ensures |n2| == |n3| == p.gnbCount && Distinct(n2 + n3)
    ensures forall a :: a in n2 + n3 ==> a !in p.core && a !in hostIPs
    ensures forall a :: a in n2 ==> IpAlloc.Usable(p.n2, {}, a)
    ensures forall a :: a in n3 ==> IpAlloc.Usable(p.n3, {}, a)
    ensures NoneSkipped(p.n2, IpAlloc.AsSet(p.core + hostIPs), p.n2Start, n2)
    ensures NoneSkipped(p.n3, IpAlloc.AsSet(p.core + hostIPs + n2), p.n3Start, n3)
  {
    hide IpAlloc.Prefix.Contains, IpAlloc.Prefix.Network, IpAlloc.Prefix.Broadcast, NoneSkipped;
    FirstOnes(p.n2, IpAlloc.AsSet(p.core + hostIPs), p.n2Start, p.gnbCount);
    FirstOnes(p.n3, IpAlloc.AsSet(p.core + hostIPs + n2), p.n3Start, p.gnbCount);
    forall a | a in n3 ensures a !in p.core && a !in hostIPs && a !in n2 && IpAlloc.Usable(p.n3, {}, a) {
      assert a !in IpAlloc.AsSet(p.core + hostIPs + n2);
      assert a !in p.core + hostIPs + n2;
    }
    forall a | a in n2 ensures a !in p.core && a !in hostIPs && IpAlloc.Usable(p.n2, {}, a) {
      assert a !in IpAlloc.AsSet(p.core + hostIPs);
      assert a !in p.core + hostIPs;
    }
    var both := n2 + n3;
    forall i, j | 0 <= i < j < |both| ensures both[i] != both[j] {
      if j < |n2| {
        assert both[i] == n2[i] && both[j] == n2[j];
      } else if i >= |n2| {
        assert both[i] == n3[i - |n2|] && both[j] == n3[j - |n2|];
      } else {
        assert both[i] in n2 && both[j] in n3;
      }
    }
  }

  // ------------------------------------------------------------------- UEs

  /** A gNB's range in the plan holds exactly its UEs. */
  lemma RangesAreShares(p: Profile, n2: seq<int>, n3: seq<int>, plan: Plan, g: nat, u: nat)
    requires p.Valid() && PlanOk(p, n2, n3, plan) && g < |plan.gnbs| && u < |plan.ues|
    ensures plan.ues[u].gnb == g <==> plan.gnbs[g].ueFirst <= plan.ues[u].index <= plan.gnbs[g].ueLast
  {
    hide Start, Supi, Msin, GnbId, Increment.RenderName, CpIn, Increment.Digits, Increment.IndexAt, IpAlloc.Prefix.Fits;
    var per, h := plan.uesPerGnb, plan.ues[u].gnb;
    assert UeOk(p, per, plan.ues[u], u);
    assert GnbOk(p, per, n2, n3, plan.gnbs[g], g);
    if h < g {
      StartGrows(p.ueCount, per, h + 1, g);
    } else if g < h {
      StartGrows(p.ueCount, per, g + 1, h);
    }
  }

  function SumUes(gnbs: seq<GnbSpec>): int {
    if gnbs == [] then 0 else SumUes(gnbs[..|gnbs| - 1]) + gnbs[|gnbs| - 1].ueCount
  }

  function SumCps(gnbs: seq<GnbSpec>): int {
    if gnbs == [] then 0 else SumCps(gnbs[..|gnbs| - 1]) + gnbs[|gnbs| - 1].cpUeCount
  }

  lemma {:induction false} Sums(p: Profile, per: int, n2: seq<int>, n3: seq<int>, gnbs: seq<GnbSpec>)
    requires GnbsOk(p, per, n2, n3, gnbs) && p.throughput >= 0
    ensures SumUes(gnbs) == Start(p.ueCount, per, |gnbs|) >= 0
    ensures SumCps(gnbs) == CpIn(p, 0, Start(p.ueCount, per, |gnbs|))
  {
    hide Supi, GnbId, Increment.RenderName;
    if gnbs != [] {
      var n := |gnbs| - 1;
      Sums(p, per, n2, n3, gnbs[..n]);
      assert GnbOk(p, per, n2, n3, gnbs[n], n);
    }
  }

  /** The gNBs' UE counts add up to all the UEs, their control-plane counts to those that carry no traffic. */
  lemma SharesAddUp(p: Profile, n2: seq<int>, n3: seq<int>, plan: Plan)
    requires p.Valid() && PlanOk(p, n2, n3, plan)
    ensures SumUes(plan.gnbs) == p.ueCount && SumCps(plan.gnbs) == p.ueCount - p.throughput
  {
    hide GnbsOk, SumUes, SumCps, Start, Increment.Digits, Increment.IndexAt, IpAlloc.Prefix.Fits;
    Sums(p, plan.uesPerGnb, n2, n3, plan.gnbs);
    AllShared(p.ueCount, p.gnbCount);
  }

  function CountCp(ues: seq<UeSpec>, g: int): nat {
    if ues == [] then 0
    else CountCp(ues[..|ues| - 1], g) + (if ues[|ues| - 1].gnb == g && ues[|ues| - 1].cp then 1 else 0)
  }

  lemma {:induction false} CpOfGnb(p: Profile, n2: seq<int>, n3: seq<int>, plan: Plan, g: nat, n: nat)
    requires p.Valid() && PlanOk(p, n2, n3, plan) && g < |plan.gnbs| && n <= |plan.ues|
    ensures var first, end := Start(p.ueCount, plan.uesPerGnb, g), Start(p.ueCount, plan.uesPerGnb, g + 1);
            CountCp(plan.ues[..n], g) == CpIn(p, first, Min(n, end))
  {
    hide UesOk, GnbsOk, Supi, Msin, Start, Increment.Digits, Increment.IndexAt, IpAlloc.Prefix.Fits;
    if n > 0 {
      CpOfGnb(p, n2, n3, plan, g, n - 1);
      assert plan.ues[..n][..n - 1] == plan.ues[..n - 1];
      InShare(p, n2, n3, plan, g, n - 1);
    }
    StartGrows(p.ueCount, plan.uesPerGnb, g, g + 1);
  }

  lemma InShare(p: Profile, n2: seq<int>, n3: seq<int>, plan: Plan, g: nat, u: nat)
    requires p.Valid() && PlanOk(p, n2, n3, plan) && g < |plan.gnbs| && u < |plan.ues|
    ensures plan.ues[u].gnb == g <==> Start(p.ueCount, plan.uesPerGnb, g) <= u < Start(p.ueCount, plan.uesPerGnb, g + 1)
    ensures plan.ues[u].cp == (u >= p.throughput)
  {
    hide Start, Supi, Msin, GnbId, Increment.RenderName, CpIn, Increment.Digits, Increment.IndexAt, IpAlloc.Prefix.Fits;
    RangesAreShares(p, n2, n3, plan, g, u);
    assert GnbOk(p, plan.uesPerGnb, n2, n3, plan.gnbs[g], g);
    assert UeOk(p, plan.uesPerGnb, plan.ues[u], u);
  }

  /** A gNB's control-plane count is the number of its UEs in the control-plane test. */
  lemma CpCountsAreReal(p: Profile, n2: seq<int>, n3: seq<int>, plan: Plan, g: nat)
    requires p.Valid() && PlanOk(p, n2, n3, plan) && g < |plan.gnbs|
    ensures plan.gnbs[g].cpUeCount == CountCp(plan.ues, g)
  {
    hide Start, Supi, Msin, GnbId, Increment.RenderName, UesOk, CountCp, Increment.Digits, Increment.IndexAt,
         IpAlloc.Prefix.Fits;
    CpOfGnb(p, n2, n3, plan, g, |plan.ues|);
    assert plan.ues[..|plan.ues|] == plan.ues;
    assert GnbOk(p, plan.uesPerGnb, n2, n3, plan.gnbs[g], g);
    StartGrows(p.ueCount, plan.uesPerGnb, g + 1, p.gnbCount);
    AllShared(p.ueCount, p.gnbCount);
  }

  // ------------------------------------------------------- names and numbers

  /** Letter case does not matter to a number. */
  lemma {:induction false} LowerValue(s: string, base: Increment.Base)
    requires Increment.Digits(s, base)
    ensures Increment.Digits(Lower(s), base) && Increment.Value(Lower(s), base) == Increment.Value(s, base)
  {
    if s != "" {
      var n := |s| - 1;
      LowerValue(s[..n], base);
      assert Lower(s)[..n] == Lower(s[..n]);
      assert forall k :: 0 <= k < |s| ==> Increment.CharDigit(Lower(s)[k]) == Increment.CharDigit(s[k]);
    }
  }

  lemma LowerIsLower(s: string)
    ensures LowerCase(Lower(s))
  {
    forall k | 0 <= k < |s| ensures !('A' <= Lower(s)[k] <= 'Z') {
      assert 'A' <= s[k] <= 'Z' ==> Lower(s)[k] == s[k] - 'A' + 'a';
    }
  }

  /** gNB IDs count up from the first one, in its width and in lower case. */
  lemma GnbIdIs(p: Profile, g: nat)
    requires p.Valid() && IncrementsFit(p) && g < p.gnbCount
    ensures var id := GnbId(p, g);
            |id| == |p.gnbIdStart| && LowerCase(id) && Increment.Digits(id, Increment.Hex)
            && Increment.Value(id, Increment.Hex) == Increment.Value(p.gnbIdStart, Increment.Hex) + g
  {
    hide Increment.Value, Increment.Incremented, Increment.IndexAt, Increment.Digits, IpAlloc.Prefix.Fits;
    Increment.AllIncrements(p.gnbIdStart, p.gnbCount - 1, Increment.Hex, g, g);
    Increment.IncrementAdds(p.gnbIdStart, g, Increment.Hex);
    LowerValue(Increment.Incremented(p.gnbIdStart, g, Increment.Hex).value, Increment.Hex);
    LowerIsLower(Increment.Incremented(p.gnbIdStart, g, Increment.Hex).value);
  }

  /** Names, gNB IDs and SUPIs are all different. */
  lemma NamesDiffer(p: Profile, n2: seq<int>, n3: seq<int>, plan: Plan, g: nat, h: nat)
    requires p.Valid() && IncrementsFit(p) && PlanOk(p, n2, n3, plan) && g < h < |plan.gnbs|
    ensures plan.gnbs[g].name != plan.gnbs[h].name && plan.gnbs[g].gnbId != plan.gnbs[h].gnbId
  {
    hide Increment.RenderName, Increment.Value, Increment.Digits, GnbId, Start, Supi, Msin, CpIn, UesOk, IncrementsFit;
    assert GnbOk(p, plan.uesPerGnb, n2, n3, plan.gnbs[g], g);
    assert GnbOk(p, plan.uesPerGnb, n2, n3, plan.gnbs[h], h);
    Increment.HasIndex(p.namePattern);
    Increment.NamesDistinct(p.namePattern, g + 1, h + 1);
    GnbIdIs(p, g);
    GnbIdIs(p, h);
  }

  lemma SupisDiffer(p: Profile, n2: seq<int>, n3: seq<int>, plan: Plan, u: nat, v: nat)
    requires p.Valid() && IncrementsFit(p) && PlanOk(p, n2, n3, plan) && u < v < |plan.ues|
    ensures plan.ues[u].msin != plan.ues[v].msin && plan.ues[u].supi != plan.ues[v].supi
  {
    hide Increment.RenderName, Increment.Incremented, Increment.Digits, Increment.IndexAt, Start, CpIn, GnbsOk;
    assert UeOk(p, plan.uesPerGnb, plan.ues[u], u);
    assert UeOk(p, plan.uesPerGnb, plan.ues[v], v);
    Increment.AllIncrements(p.msinStart, p.ueCount - 1, Increment.Dec, u, v);
    var front := "imsi-" + p.mcc + p.mnc;
    assert (front + Msin(p, u))[|front|..] == Msin(p, u);
    assert (front + Msin(p, v))[|front|..] == Msin(p, v);
  }

  // ------------------------------------------------------------ into the run

  /** What newRun takes of the plan's UEs. */
  function RunPlan(ues: seq<UeSpec>): seq<(nat, bool)> {
    seq(|ues|, u requires 0 <= u < |ues| => (if ues[u].gnb >= 0 then ues[u].gnb else 0, ues[u].cp))
  }

  lemma {:induction false} FirstThroughputs(p: Profile, per: int, ues: seq<UeSpec>)
    requires p.throughput >= 0 && forall u :: 0 <= u < |ues| ==> UeOk(p, per, ues[u], u)
    ensures RunTheorems.Throughputs(RunPlan(ues)) == Min(|ues|, p.throughput)
  {
    hide Start, Msin, Supi;
    if ues != [] {
      var n := |ues| - 1;
      FirstThroughputs(p, per, ues[..n]);
      assert RunPlan(ues)[..n] == RunPlan(ues[..n]);
      assert UeOk(p, per, ues[n], n);
    }
  }

  /**
   * newRun sizes the stages and tpLeft by Scale.Throughput(), not by the plan;
   * the plan has that many UEs that carry traffic, each at a gNB of the plan.
   * This is what the run's theorems require of a plan.
   */
  lemma PlanFitsRun(p: Profile, n2: seq<int>, n3: seq<int>, plan: Plan)
    requires p.Valid() && PlanOk(p, n2, n3, plan)
    ensures RunTheorems.Throughputs(RunPlan(plan.ues)) == p.throughput && |RunPlan(plan.ues)| == |plan.ues|
    ensures forall u :: 0 <= u < |plan.ues| ==> RunPlan(plan.ues)[u].0 == plan.ues[u].gnb < |plan.gnbs|
  {
    hide UeOk, Increment.Digits, Increment.IndexAt, IpAlloc.Prefix.Fits, GnbsOk;
    FirstThroughputs(p, plan.uesPerGnb, plan.ues);
    forall u | 0 <= u < |plan.ues| ensures 0 <= plan.ues[u].gnb {
      GnbKnown(p, plan.uesPerGnb, plan.ues[u], u);
    }
  }

  lemma GnbKnown(p: Profile, per: int, r: UeSpec, u: nat)
    requires UeOk(p, per, r, u)
    ensures r.gnb >= 0
  {
  }
}
