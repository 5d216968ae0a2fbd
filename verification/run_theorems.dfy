/** What a run promises in every state it can reach, whatever the interleaving. */
module RunTheorems {
  import opened MetricsStage
  import opened UeSummaries
  import opened RunModel
  import opened RunInvariant
  import opened RunPreserve
  import opened RunSafety

  // -------------------------------------------------------- the first state

  /** How many of the plan's UEs are throughput UEs. */
  function Throughputs(plan: seq<(nat, bool)>): nat {
    if plan == [] then 0 else Throughputs(plan[..|plan| - 1]) + B(!plan[|plan| - 1].1)
  }

  lemma PlusZero(a: Counters)
    ensures a.Plus(Zero()) == a && Zero().Plus(a) == a
  {
  }

  function FreshLedger(n: nat): Ledger {
    NoLedger().(pduLeft := n, throughput := n)
  }

  lemma NewShare(p: (nat, bool))
    ensures Share(NewUe(p)) == FreshLedger(B(!p.1))
  {
    hide Zero;
  }

  lemma FreshAdds(m: nat, n: nat)
    ensures FreshLedger(m).Plus(FreshLedger(n)) == FreshLedger(m + n)
  {
    PlusZero(Zero());
    hide Zero, Counters.Plus;
  }

  lemma {:induction false} NewTotal(us: seq<Ue>, plan: seq<(nat, bool)>)
    requires |us| == |plan| && forall i :: 0 <= i < |us| ==> us[i] == NewUe(plan[i])
    ensures Total(us) == FreshLedger(Throughputs(plan))
  {
    hide FreshLedger, Ledger.Plus, NewUe, Share;
    if us == [] {
      EmptyTotal();
    } else {
      var n := |us| - 1;
      NewTotal(us[..n], plan[..n]);
      NewShare(plan[n]);
      FreshAdds(Throughputs(plan[..n]), B(!plan[n].1));
    }
  }

  lemma EmptyTotal()
    ensures Total([]) == FreshLedger(0)
  {
  }

  lemma NewCount(us: seq<Ue>, st: UeState)
    requires forall i :: 0 <= i < |us| ==> us[i].state == UePending
    ensures CountIn(us, st) == if st == UePending then |us| else 0
  {
    AllPending(StatesOf(us), st);
  }

  lemma {:induction false} NewGTotal(rs: seq<Gnb>)
    requires forall g :: 0 <= g < |rs| ==> rs[g].n2 == Zero() && rs[g].release == Zero() && !rs[g].fin
    ensures GTotal(rs) == GLedger(Zero(), Zero(), |rs|)
  {
    PlusZero(Zero());
    hide Counters.Plus, Zero;
    if rs != [] {
      var n := |rs| - 1;
      NewGTotal(rs[..n]);
      assert GShare(rs[n]) == GLedger(Zero(), Zero(), 1);
      assert GTotal(rs) == GTotal(rs[..n]).Plus(GShare(rs[n]));
    }
  }

  lemma InitBalanced(c: Config, s: Run, gnbs: nat, plan: seq<(nat, bool)>)
    requires Init(c, s, gnbs, plan) && c.throughput == Throughputs(plan)
    ensures Balanced(c, s)
  {
    assert forall i :: 0 <= i < |s.ues| ==> s.ues[i] == NewUe(plan[i]);
    hide Total, GTotal, CountIn, Throughputs, Zero;
    NewTotal(s.ues, plan);
    NewGTotal(s.gnbs);
    forall st: UeState ensures s.summary.Of(st) == CountIn(s.ues, st) {
      NewCount(s.ues, st);
    }
  }

  lemma ZeroBooked()
    ensures Booked(Zero(), 0, 0, 0) && NoCpCalls(Book(Zero(), Zero(), Zero(), Zero(), Zero(), 0, 0))
  {
  }

  lemma InitUe(c: Config, a: Around, i: nat, p: (nat, bool))
    requires a.co == CoConfig && a.cover == 0
    ensures UeOk(c, a, i, NewUe(p))
  {
    ZeroBooked();
    hide Booked, Zero, NoCpCalls;
    assert NewUe(p).held == multiset{};
  }

  lemma InitGnb(c: Config, a: GAround, g: nat, r: Gnb)
    requires a.co == CoConfig && r == NewGnb()
    ensures GnbOk(c, a, g, r)
  {
    ZeroBooked();
    hide Booked, Zero;
    assert GSpotOf(multiset{GQueued}) == GBy(GQueued);
  }

  lemma InitGates(c: Config, s: Run, gnbs: nat, plan: seq<(nat, bool)>)
    requires Init(c, s, gnbs, plan)
    ensures Gates(s)
  {
    hide Zero;
  }

  /** What Init says about one UE and its gNB. */
  lemma InitPart(c: Config, s: Run, gnbs: nat, plan: seq<(nat, bool)>, i: nat)
    requires Init(c, s, gnbs, plan) && i < |s.ues|
    ensures i < |plan| && s.ues[i] == NewUe(plan[i]) && s.ues[i].gnb < |s.gnbs|
    ensures AroundOf(s, i).co == CoConfig && AroundOf(s, i).cover == 0
  {
    hide Zero;
  }

  lemma InitUes(c: Config, s: Run, gnbs: nat, plan: seq<(nat, bool)>)
    requires Init(c, s, gnbs, plan)
    ensures UesOk(c, s)
  {
    hide Init, UeOk, NewUe, AroundOf;
    forall i | 0 <= i < |s.ues| ensures s.ues[i].gnb < |s.gnbs| && UeOk(c, AroundOf(s, i), i, s.ues[i]) {
      InitPart(c, s, gnbs, plan, i);
      InitUe(c, AroundOf(s, i), i, plan[i]);
    }
  }

  lemma InitGnbs(c: Config, s: Run, gnbs: nat, plan: seq<(nat, bool)>)
    requires Init(c, s, gnbs, plan)
    ensures GnbsOk(c, s)
  {
    hide GnbOk, NewUe, NewGnb, Zero;
    forall g | 0 <= g < |s.gnbs| ensures GnbOk(c, GAroundOf(s), g, s.gnbs[g]) {
      InitGnb(c, GAroundOf(s), g, s.gnbs[g]);
    }
  }

  lemma InitOk(c: Config, s: Run, gnbs: nat, plan: seq<(nat, bool)>)
    requires Init(c, s, gnbs, plan) && c.throughput == Throughputs(plan)
    ensures Inv(c, s)
  {
    hide Init, UesOk, GnbsOk, Balanced, Gates, Throughputs;
    InitBalanced(c, s, gnbs, plan);
    InitGates(c, s, gnbs, plan);
    InitUes(c, s, gnbs, plan);
    InitGnbs(c, s, gnbs, plan);
  }

  /** The invariant holds in every state of every run. */
  lemma {:induction false} Reachable(c: Config, states: seq<Run>, actions: seq<Action>, gnbs: nat,
          plan: seq<(nat, bool)>, n: nat)
    requires IsRun(c, states, actions) && Init(c, states[0], gnbs, plan) && c.throughput == Throughputs(plan)
    requires n < |states|
    ensures Inv(c, states[n])
  {
    hide Inv, Init, Step;
    if n == 0 {
      InitOk(c, states[0], gnbs, plan);
    } else {
      Reachable(c, states, actions, gnbs, plan, n - 1);
      StepKeeps(c, states[n - 1], actions[n - 1], states[n]);
    }
  }

  // --------------------------------------- each item ends once in each stage

  function Most(items: nat, each: nat): nat { items * each }

  /** A stage counted at most this many items with this many attempts each, and no negative number in flight. */
  predicate Within(k: Counters, items: nat, each: nat) {
    0 <= k.inFlight && 0 <= k.Ended() && k.Ended() + k.inFlight <= items && k.Begun() <= Most(items, each)
  }

  /** One UE's calls: setup stages count throughput UEs only. */
  predicate UeWithin(c: Config, u: Ue) {
    && Within(u.book.reg, B(!u.cp), c.regRetries + 1)
    && Within(u.book.pdu, B(!u.cp), c.pduRetries + 1)
    && Within(u.book.dereg, 1, c.deregRetries + 1)
  }

  predicate GnbWithin(c: Config, r: Gnb) {
    Within(r.n2, 1, c.n2Retries + 1) && Within(r.release, 1, 1)
  }

  lemma SpotWithin(c: Config, a: Around, i: nat, u: Ue, x: Spot)
    requires SpotOk(c, a, i, u, x)
    ensures UeWithin(c, u)
  {
    hide NoCpCalls, CpBooked, CleaningUp, CleanupDone, SettledState, Past, Rank;
  }

  lemma GSpotWithin(c: Config, a: GAround, g: nat, r: Gnb, x: GSpot)
    requires GSpotOk(c, a, g, r, x)
    ensures GnbWithin(c, r)
  {
    hide Past, Rank;
  }

  lemma WithinAdds(k: Counters, l: Counters, m: nat, n: nat, each: nat)
    requires Within(k, m, each) && Within(l, n, each)
    ensures Within(k.Plus(l), m + n, each)
  {
    assert Most(m + n, each) == Most(m, each) + Most(n, each);
    hide Most;
  }

  lemma NoneWithin(each: nat)
    ensures Within(Zero(), 0, each)
  {
    assert Most(0, each) == 0;
    hide Most;
  }

  /** Per-item bounds add up, stage by stage. */
  predicate TotalWithin(c: Config, l: Ledger, ues: nat) {
    && 0 <= l.throughput <= ues
    && Within(l.reg, l.throughput, c.regRetries + 1)
    && Within(l.pdu, l.throughput, c.pduRetries + 1)
    && Within(l.dereg, l.throughput, c.deregRetries + 1)
    && Within(l.cleanup, ues - l.throughput, c.deregRetries + 1)
  }

  lemma ShareWithin(c: Config, l: Ledger, ues: nat, u: Ue)
    requires TotalWithin(c, l, ues) && UeWithin(c, u)
    ensures TotalWithin(c, l.Plus(Share(u)), ues + 1)
  {
    hide Within, Counters.Plus;
    var b: nat := B(!u.cp);
    var share := Share(u);
    NoneWithin(c.deregRetries + 1);
    WithinAdds(l.reg, share.reg, l.throughput, b, c.regRetries + 1);
    WithinAdds(l.pdu, share.pdu, l.throughput, b, c.pduRetries + 1);
    WithinAdds(l.dereg, share.dereg, l.throughput, b, c.deregRetries + 1);
    WithinAdds(l.cleanup, share.cleanup, ues - l.throughput, 1 - b, c.deregRetries + 1);
  }

  lemma {:induction false} UesWithin(c: Config, us: seq<Ue>)
    requires forall i :: 0 <= i < |us| ==> UeWithin(c, us[i])
    ensures TotalWithin(c, Total(us), |us|)
  {
    hide UeWithin, Share, Ledger.Plus, Within;
    if us == [] {
      NoneWithin(c.regRetries + 1);
      NoneWithin(c.pduRetries + 1);
      NoneWithin(c.deregRetries + 1);
    } else {
      var n := |us| - 1;
      UesWithin(c, us[..n]);
      hide TotalWithin;
      ShareWithin(c, Total(us[..n]), n, us[n]);
    }
  }

  lemma {:induction false} GnbsWithin(c: Config, rs: seq<Gnb>)
    requires forall g :: 0 <= g < |rs| ==> GnbWithin(c, rs[g])
    ensures Within(GTotal(rs).n2, |rs|, c.n2Retries + 1) && Within(GTotal(rs).release, |rs|, 1)
  {
    hide Within, Counters.Plus;
    if rs == [] {
      NoneWithin(c.n2Retries + 1);
      NoneWithin(1);
    } else {
      var n := |rs| - 1;
      GnbsWithin(c, rs[..n]);
      WithinAdds(GTotal(rs[..n]).n2, rs[n].n2, n, 1, c.n2Retries + 1);
      WithinAdds(GTotal(rs[..n]).release, rs[n].release, n, 1, 1);
    }
  }

  /** Of each item, and of each stage, no more is counted than expected; attempts are bounded by the retries. */
  ghost predicate CountsWithin(c: Config, s: Run) {
    var ues, gnbs := |s.ues|, |s.gnbs|;
    && c.throughput <= ues
    && Within(s.n2, gnbs, c.n2Retries + 1) && Within(s.release, gnbs, 1)
    && Within(s.reg, c.throughput, c.regRetries + 1) && Within(s.pdu, c.throughput, c.pduRetries + 1)
    && Within(s.dereg, c.throughput, c.deregRetries + 1) && Within(s.cleanup, ues - c.throughput, c.deregRetries + 1)
    && (forall i :: 0 <= i < ues ==> UeWithin(c, s.ues[i]))
    && (forall g :: 0 <= g < gnbs ==> GnbWithin(c, s.gnbs[g]))
  }

  lemma InvWithin(c: Config, s: Run)
    requires Inv(c, s)
    ensures CountsWithin(c, s)
  {
    hide SpotOk, GSpotOk, Within, Total, GTotal, CountIn, Gates;
    forall i | 0 <= i < |s.ues| ensures UeWithin(c, s.ues[i]) {
      SpotWithin(c, AroundOf(s, i), i, s.ues[i], SpotOf(s.ues[i].held));
    }
    forall g | 0 <= g < |s.gnbs| ensures GnbWithin(c, s.gnbs[g]) {
      assert GnbOk(c, GAroundOf(s), g, s.gnbs[g]);
      GSpotWithin(c, GAroundOf(s), g, s.gnbs[g], GSpotOf(s.gnbs[g].held));
    }
    UesWithin(c, s.ues);
    GnbsWithin(c, s.gnbs);
  }

  // ------------------------------------------------------------ when a run has stopped

  predicate Complete(k: Counters, items: int) { k.inFlight == 0 && k.Ended() == items }

  /** The control-plane loop has nothing open. */
  predicate Quiet(l: Ledger) {
    l.cpReg.inFlight == 0 && l.cpDereg.inFlight == 0 && l.registered == 0 && l.cycles == l.cpDereg.accepted
  }

  predicate UeComplete(u: Ue) {
    Complete(u.book.reg, B(!u.cp)) && Complete(u.book.pdu, B(!u.cp)) && Complete(u.book.dereg, 1)
  }

  predicate GnbComplete(r: Gnb) { Complete(r.n2, 1) && Complete(r.release, 1) }

  lemma SpotComplete(c: Config, a: Around, i: nat, u: Ue, x: Spot)
    requires SpotOk(c, a, i, u, x) && a.co == CoStopped
    ensures x == Free && UeComplete(u) && SettledState(u.state) && (u.state == UeEstablished ==> !u.todo)
  {
    hide NoCpCalls, ProcHolds;
  }

  lemma GSpotComplete(c: Config, a: GAround, g: nat, r: Gnb, x: GSpot)
    requires GSpotOk(c, a, g, r, x) && a.co == CoStopped
    ensures GnbComplete(r)
  {
  }

  predicate TotalComplete(l: Ledger, ues: nat) {
    && Complete(l.reg, l.throughput) && Complete(l.pdu, l.throughput) && Complete(l.dereg, l.throughput)
    && Complete(l.cleanup, ues - l.throughput)
  }

  lemma CompleteAdds(k: Counters, l: Counters, m: int, n: int)
    requires Complete(k, m) && Complete(l, n)
    ensures Complete(k.Plus(l), m + n)
  {
  }

  lemma NoneComplete()
    ensures Complete(Zero(), 0)
  {
  }

  lemma ShareComplete(l: Ledger, ues: nat, u: Ue)
    requires TotalComplete(l, ues) && UeComplete(u)
    ensures TotalComplete(l.Plus(Share(u)), ues + 1)
  {
    hide Complete, Counters.Plus;
    var b, share := B(!u.cp), Share(u);
    NoneComplete();
    CompleteAdds(l.reg, share.reg, l.throughput, b);
    CompleteAdds(l.pdu, share.pdu, l.throughput, b);
    CompleteAdds(l.dereg, share.dereg, l.throughput, b);
    CompleteAdds(l.cleanup, share.cleanup, ues - l.throughput, 1 - b);
  }

  lemma NoneTotal()
    ensures TotalComplete(Total([]), 0)
  {
    NoneComplete();
    hide Complete;
  }

  lemma {:induction false} UesComplete(us: seq<Ue>)
    requires forall i :: 0 <= i < |us| ==> UeComplete(us[i])
    ensures TotalComplete(Total(us), |us|)
  {
    hide UeComplete, Share, Ledger.Plus, TotalComplete;
    if us == [] {
      NoneTotal();
    } else {
      var n := |us| - 1;
      UesComplete(us[..n]);
      ShareComplete(Total(us[..n]), n, us[n]);
    }
  }

  lemma {:induction false} GnbsComplete(rs: seq<Gnb>)
    requires forall g :: 0 <= g < |rs| ==> GnbComplete(rs[g])
    ensures Complete(GTotal(rs).n2, |rs|) && Complete(GTotal(rs).release, |rs|)
  {
    if rs != [] {
      GnbsComplete(rs[..|rs| - 1]);
    }
  }

  lemma {:induction false} UesQuiet(us: seq<Ue>)
    requires forall i :: 0 <= i < |us| ==> Quiet(Share(us[i]))
    ensures Quiet(Total(us))
  {
    if us != [] {
      UesQuiet(us[..|us| - 1]);
    }
  }

  // ------------------------------------------------------------- the summary

  function SummaryOf(us: seq<Ue>): Summary {
    Summary(CountIn(us, UePending), CountIn(us, UeRegistering), CountIn(us, UeRegistered), CountIn(us, UeEstablishing),
            CountIn(us, UeEstablished), CountIn(us, UeFailed), CountIn(us, UeSkipped), CountIn(us, UeCancelled),
            CountIn(us, UeDeregistering), CountIn(us, UeDeregistered))
  }

  lemma CountsAddUp(us: seq<Ue>)
    ensures SummaryOf(us).Total() == |us|
  {
    hide CountState, Summary.Total;
    StatesAddUp(StatesOf(us), SummaryOf(us));
  }

  lemma NoneIn(us: seq<Ue>, st: UeState)
    requires forall i :: 0 <= i < |us| ==> us[i].state != st
    ensures CountIn(us, st) == 0
  {
    NobodyIn(StatesOf(us), st);
  }

  lemma InvSummary(c: Config, s: Run)
    requires Inv(c, s)
    ensures s.summary == SummaryOf(s.ues) && s.summary.Total() == |s.ues|
  {
    hide UesOk, GnbsOk, Gates, Total, GTotal, CountIn;
    var m := s.summary;
    assert m.Of(UePending) == m.pending && m.Of(UeRegistering) == m.registering && m.Of(UeRegistered) == m.registered
        && m.Of(UeEstablishing) == m.establishing && m.Of(UeEstablished) == m.established && m.Of(UeFailed) == m.failed
        && m.Of(UeSkipped) == m.skipped && m.Of(UeCancelled) == m.cancelled && m.Of(UeDeregistering) == m.deregistering
        && m.Of(UeDeregistered) == m.deregistered;
    CountsAddUp(s.ues);
  }

  // ------------------------------------------------ holders, gates and the loop

  /** At most one queue, hand or attempt has the UE, and a stage's hand has at most one UE. */
  ghost predicate OneHolder(s: Run) {
    && (forall i :: 0 <= i < |s.ues| ==> |s.ues[i].held| <= 1)
    && (forall i, j, p ::
          0 <= i < |s.ues| && 0 <= j < |s.ues| && InHand(p) in s.ues[i].held && InHand(p) in s.ues[j].held ==> i == j)
  }

  lemma InvHolders(c: Config, s: Run)
    requires Inv(c, s)
    ensures OneHolder(s)
  {
    hide GnbsOk, Balanced, Gates, ProcHolds, Attempting, PipelineRest, CleanupRest;
    forall i, p | 0 <= i < |s.ues| && InHand(p) in s.ues[i].held ensures s.disp.Get(p) == Holding(i) {
      Sole(s.ues[i].held, InHand(p));
      assert SpotOk(c, AroundOf(s, i), i, s.ues[i], By(InHand(p)));
    }
  }

  /** UEs without a final PDU outcome. */
  function PduPending(us: seq<Ue>): nat {
    if us == [] then 0 else PduPending(us[..|us| - 1]) + B(!us[|us| - 1].pduDone)
  }

  lemma {:induction false} PduPendingTotal(us: seq<Ue>)
    ensures Total(us).pduLeft == PduPending(us)
  {
    hide Counters.Plus;
    if us != [] {
      PduPendingTotal(us[..|us| - 1]);
    }
  }

  /**
   * tpLeft counts the UEs without a PDU outcome, tpDone is closed once and only at zero, and no loop
   * attempt runs earlier.
   */
  ghost predicate GateOk(s: Run) {
    && s.tpLeft == PduPending(s.ues)
    && s.tpCloses == (if s.tpLeft == 0 then 1 else 0)
    && (forall i, pc :: 0 <= i < |s.ues| && Attempt(Cp, pc) in s.ues[i].held ==> s.tpLeft == 0)
  }

  lemma InvAttempting(c: Config, s: Run, i: nat, p: Proc, pc: Pc)
    requires Inv(c, s) && i < |s.ues| && Attempt(p, pc) in s.ues[i].held
    ensures s.ues[i].gnb < |s.gnbs| && s.ues[i].held == multiset{Attempt(p, pc)}
    ensures Active(s.disp.Get(p)) && (if p == Dereg then s.co == CoDereg else Pipes(s.co))
  {
    hide GnbsOk, Balanced, Gates, ProcHolds, PipelineRest, CleanupRest;
    Sole(s.ues[i].held, Attempt(p, pc));
    assert SpotOk(c, AroundOf(s, i), i, s.ues[i], By(Attempt(p, pc)));
  }

  lemma InvGate(c: Config, s: Run)
    requires Inv(c, s)
    ensures GateOk(s)
  {
    PduPendingTotal(s.ues);
    hide UesOk, GnbsOk, Total, GTotal, CountIn, PduPending;
    assert s.tpLeft == PduPending(s.ues) && s.tpCloses == (if s.tpLeft == 0 then 1 else 0);
    forall i, pc | 0 <= i < |s.ues| && Attempt(Cp, pc) in s.ues[i].held ensures s.tpLeft == 0 {
      InvAttempting(c, s, i, Cp, pc);
    }
  }

  /** Between attempts of the loop nobody is registered, and a cycle is an accepted deregistration. */
  ghost predicate LoopOk(s: Run) {
    NoneInFlight(s, Cp) ==>
      s.cpRegistered == 0 && s.cpCycles == s.cpDereg.accepted && s.cpReg.inFlight == 0 && s.cpDereg.inFlight == 0
  }

  lemma SpotQuiet(c: Config, a: Around, i: nat, u: Ue, x: Spot)
    requires SpotOk(c, a, i, u, x) && !(x.By? && x.x.Attempt? && x.x.p == Cp)
    ensures NoCpCalls(u.book)
  {
    hide Booked, Past, Rank, Unplanned;
  }

  lemma InvLoop(c: Config, s: Run)
    requires Inv(c, s)
    ensures LoopOk(s)
  {
    hide SpotOk, GnbsOk, Total, GTotal, CountIn, Gates;
    if NoneInFlight(s, Cp) {
      forall i | 0 <= i < |s.ues| ensures Quiet(Share(s.ues[i])) {
        SpotQuiet(c, AroundOf(s, i), i, s.ues[i], SpotOf(s.ues[i].held));
      }
      UesQuiet(s.ues);
    }
  }

  /**
   * Until Stop takes the stages down, a throughput UE its gNB has released is held by someone or has
   * its PDU outcome; once no gNB is left, every UE has been released or skipped.
   */
  ghost predicate NobodyLost(s: Run) {
    && (Rank(s.co) <= 5 ==>
          forall i :: 0 <= i < |s.ues| && !s.ues[i].cp && s.ues[i].gnb < |s.gnbs| && i < s.gnbs[s.ues[i].gnb].cover ==>
            s.ues[i].pduDone || |s.ues[i].held| == 1)
    && (s.n2Closes > 0 ==> forall g :: 0 <= g < |s.gnbs| ==> s.gnbs[g].fin && s.gnbs[g].cover == |s.ues|)
  }

  lemma InvNobodyLost(c: Config, s: Run)
    requires Inv(c, s)
    ensures NobodyLost(s)
  {
    forall i | 0 <= i < |s.ues| && Rank(s.co) <= 5 && !s.ues[i].cp && i < s.gnbs[s.ues[i].gnb].cover
      ensures s.ues[i].pduDone || |s.ues[i].held| == 1
    {
      hide Holds, CleanupRest, GnbsOk, Gates, Balanced;
      assert UeOk(c, AroundOf(s, i), i, s.ues[i]);
    }
    if s.n2Closes > 0 {
      forall g | 0 <= g < |s.gnbs| ensures s.gnbs[g].fin && s.gnbs[g].cover == |s.ues| {
        hide UesOk, Total, CountIn;
        GTotalLeft(s.gnbs, g);
        hide GTotal;
        assert GnbOk(c, GAroundOf(s), g, s.gnbs[g]);
      }
    }
  }

  /** A cleanup whose every deregistration ended leaves nothing queued: only an aborted one has UEs to drain. */
  lemma CleanupFinished(c: Config, s: Run, i: nat)
    requires Inv(c, s) && 11 <= Rank(s.co) && s.left == 0 && i < |s.ues|
    ensures s.ues[i].held == multiset{}
  {
    hide GnbsOk, Gates, CountIn, GTotal, RegHolds, PduHolds, CpHolds, PipelineRest, CleanupRest;
    TotalGates(s.ues, i);
    hide Total;
    assert UeOk(c, AroundOf(s, i), i, s.ues[i]);
  }

  // ------------------------------------------------------------ every run

  /** UEs and gNBs neither come nor go, and a stop cannot be taken back. */
  predicate StaysOn(s: Run, t: Run) { |t.ues| == |s.ues| && |t.gnbs| == |s.gnbs| && (s.ctxDone ==> t.ctxDone) }

  lemma DispatchStaysOn(s: Run, t: Run, p: Proc, k: DispStep, i: nat)
    requires Dispatch(s, t, p, k, i)
    ensures StaysOn(s, t)
  {
    hide NoneInFlight, Given, Effect.Note, StageCall.On;
  }

  lemma ChangeStaysOn(s: Run, i: nat, v: Ue, e: Effect)
    requires i < |s.ues|
    ensures StaysOn(s, Change(s, i, v, e))
  {
    hide Effect.Note, StageCall.On;
  }

  lemma ExecuteStaysOn(s: Run, t: Run, k: CoStep)
    requires Execute(s, t, k)
    ensures StaysOn(s, t)
  {
    hide Ready, NextCo, NextDisp, SettledUe, SettleEffect, Change, StageCall.On;
    match k
    case DrainOne(p, i) =>
      ChangeStaysOn(s, i, s.ues[i].(held := Given(s.ues[i].held, Queued(p), Free)), Nothing);
    case SkipUe(i) => ChangeStaysOn(s, i, SettledUe(s.ues[i]), SettleEffect(s.ues[i]));
    case Plan(i, _) => ChangeStaysOn(s, i, s.ues[i], Nothing.(dereg := DoSkip));
    case _ =>
  }

  lemma RunN2StaysOn(s: Run, t: Run, g: nat, k: N2Round)
    requires g < |s.gnbs| && RunN2(s, t, g, k)
    ensures StaysOn(s, t)
  {
    hide SkippedUe, SkipEffect, Effect.Note, StageCall.On;
  }

  lemma TakenStaysOn(s: Run, t: Run, i: nat, m: Move)
    requires Taken(s, t, i, m)
    ensures StaysOn(s, t)
  {
    hide Given, Effect.Note, StageCall.On;
  }

  lemma GTakenStaysOn(s: Run, t: Run, g: nat, m: GMove)
    requires GTaken(s, t, g, m)
    ensures StaysOn(s, t)
  {
    hide StageCall.On;
  }

  lemma CpLoopStaysOn(s: Run, t: Run, k: CpLoopStep)
    requires CpLoop(s, t, k)
    ensures StaysOn(s, t)
  {
    hide Effect.Note, StageCall.On;
  }

  lemma StepStaysOn(c: Config, s: Run, a: Action, t: Run)
    requires Step(c, s, a, t)
    ensures StaysOn(s, t)
  {
    hide Dispatch, Execute, RunN2, CpLoop, Taken, GTaken, RegMove, PduMove, DeregMove, CpMove, N2Move, Watched,
         WatchReady, CloseMove, StageCall.On;
    match a
    case Coordinator(k) => ExecuteStaysOn(s, t, k);
    case Dispatcher(p, k, i) => DispatchStaysOn(s, t, p, k, i);
    case RegAttempt(i, k) => TakenStaysOn(s, t, i, RegMove(c, s.ctxDone, s.ues[i], k));
    case PduAttempt(i, k) => TakenStaysOn(s, t, i, PduMove(c, s.ctxDone, s.ues[i], k));
    case DeregAttempt(i, k) => TakenStaysOn(s, t, i, DeregMove(c, s.abort, s.ues[i], k));
    case CpAttempt(i, k) => TakenStaysOn(s, t, i, CpMove(s.ctxDone, s.ues[i], k));
    case CpLoopBody(k) => CpLoopStaysOn(s, t, k);
    case N2Attempt(g, k) => GTakenStaysOn(s, t, g, N2Move(c, s.ctxDone, s.gnbs[g], k));
    case N2Dispatcher(g, k) => RunN2StaysOn(s, t, g, k);
    case Closer(g, k) => GTakenStaysOn(s, t, g, CloseMove(s.gnbs[g], k));
    case _ =>
  }

  lemma {:induction false} RunStaysOn(c: Config, states: seq<Run>, actions: seq<Action>, n: nat)
    requires IsRun(c, states, actions) && n < |states|
    ensures StaysOn(states[0], states[n])
  {
    hide Step;
    if n > 0 {
      RunStaysOn(c, states, actions, n - 1);
      StepStaysOn(c, states[n - 1], actions[n - 1], states[n]);
    }
  }

  /** In every state of every run. */
  lemma AlwaysSafe(c: Config, states: seq<Run>, actions: seq<Action>, gnbs: nat, plan: seq<(nat, bool)>, n: nat)
    requires IsRun(c, states, actions) && Init(c, states[0], gnbs, plan) && c.throughput == Throughputs(plan)
    requires n < |states|
    ensures CountsWithin(c, states[n]) && OneHolder(states[n]) && GateOk(states[n]) && LoopOk(states[n])
            && NobodyLost(states[n])
    ensures states[n].summary == SummaryOf(states[n].ues) && states[n].summary.Total() == |plan|
  {
    Reachable(c, states, actions, gnbs, plan, n);
    RunStaysOn(c, states, actions, n);
    hide Inv, Step, CountsWithin, OneHolder, GateOk, LoopOk, NobodyLost;
    InvWithin(c, states[n]);
    InvHolders(c, states[n]);
    InvGate(c, states[n]);
    InvLoop(c, states[n]);
    InvNobodyLost(c, states[n]);
    InvSummary(c, states[n]);
  }

  /** What a stopped run has counted: every expected item of every stage exactly once. */
  ghost predicate CountedOnce(s: Run, gnbs: nat, throughput: nat, ues: nat) {
    && Complete(s.n2, gnbs) && Complete(s.release, gnbs)
    && Complete(s.reg, throughput) && Complete(s.pdu, throughput) && Complete(s.dereg, throughput)
    && Complete(s.cleanup, ues - throughput)
    && (forall i :: 0 <= i < |s.ues| ==> UeComplete(s.ues[i]) && s.ues[i].held == multiset{})
    && (forall g :: 0 <= g < |s.gnbs| ==> GnbComplete(s.gnbs[g]))
  }

  /** Where a stopped run leaves its UEs: one still established was not on deregisterAll's list. */
  ghost predicate SettledStates(s: Run) {
    && s.summary.pending == 0 && s.summary.registering == 0 && s.summary.registered == 0
    && s.summary.establishing == 0 && s.summary.deregistering == 0
    && (forall i :: 0 <= i < |s.ues| ==>
           SettledState(s.ues[i].state)
           && (s.ues[i].state == UeEstablished ==> !s.ues[i].todo))
  }

  lemma InvStopped(c: Config, s: Run)
    requires Inv(c, s) && s.co == CoStopped
    ensures CountedOnce(s, |s.gnbs|, c.throughput, |s.ues|)
  {
    hide SpotOk, GSpotOk, Total, GTotal, CountIn, Gates, Complete, UeComplete, GnbComplete;
    forall i | 0 <= i < |s.ues| ensures UeComplete(s.ues[i]) && s.ues[i].held == multiset{} {
      SpotComplete(c, AroundOf(s, i), i, s.ues[i], SpotOf(s.ues[i].held));
    }
    forall g | 0 <= g < |s.gnbs| ensures GnbComplete(s.gnbs[g]) {
      assert GnbOk(c, GAroundOf(s), g, s.gnbs[g]);
      GSpotComplete(c, GAroundOf(s), g, s.gnbs[g], GSpotOf(s.gnbs[g].held));
    }
    UesComplete(s.ues);
    GnbsComplete(s.gnbs);
  }

  lemma FinalState(c: Config, s: Run, i: nat)
    requires Inv(c, s) && s.co == CoStopped && i < |s.ues|
    ensures SettledState(s.ues[i].state) && (s.ues[i].state == UeEstablished ==> !s.ues[i].todo)
  {
    hide SpotOk, Inv;
    InvUe(c, s, i);
    SpotComplete(c, AroundOf(s, i), i, s.ues[i], SpotOf(s.ues[i].held));
  }

  lemma InvStates(c: Config, s: Run)
    requires Inv(c, s) && s.co == CoStopped
    ensures SettledStates(s)
  {
    hide Inv, CountIn, Summary.Total;
    InvSummary(c, s);
    forall i | 0 <= i < |s.ues| ensures SettledState(s.ues[i].state)
        && (s.ues[i].state == UeEstablished ==> !s.ues[i].todo) {
      FinalState(c, s, i);
    }
    NoneIn(s.ues, UePending);
    NoneIn(s.ues, UeRegistering);
    NoneIn(s.ues, UeRegistered);
    NoneIn(s.ues, UeEstablishing);
    NoneIn(s.ues, UeDeregistering);
  }

  /**
   * However stops, retries, failed gNBs and lost associations interleave, a run that reaches
   * StateStopped has counted everything once.
   */
  lemma StoppedCountsOnce(c: Config, states: seq<Run>, actions: seq<Action>, gnbs: nat, plan: seq<(nat, bool)>, n: nat)
    requires IsRun(c, states, actions) && Init(c, states[0], gnbs, plan) && c.throughput == Throughputs(plan)
    requires n < |states| && states[n].co == CoStopped
    ensures CountedOnce(states[n], gnbs, Throughputs(plan), |plan|) && SettledStates(states[n])
  {
    Reachable(c, states, actions, gnbs, plan, n);
    RunStaysOn(c, states, actions, n);
    hide Inv, Step, CountedOnce, SettledStates;
    InvStopped(c, states[n]);
    InvStates(c, states[n]);
  }
}