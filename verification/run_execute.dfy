/** The steps of execute and runCpLoop keep the invariant. */
module RunExecute {
  import opened MetricsStage
  import opened UeSummaries
  import opened RunModel
  import opened RunInvariant
  import opened RunPreserve
  import opened RunSteps

  /** What of its surroundings the condition of a UE in spot x depends on. */
  predicate StillThere(a: Around, b: Around, j: nat, x: Spot) {
    match x
    case Free =>
      && UeSettled(a.co, j) == UeSettled(b.co, j) && Planned(a.co, j) == Planned(b.co, j)
         && Listed(a.co, j) == Listed(b.co, j)
      && (Rank(b.co) <= 5 ==> Rank(a.co) <= 5) && (Rank(b.co) <= 11 ==> Rank(a.co) <= 11)
    case By(Queued(p)) => Queueing(a, p, j) ==> Queueing(b, p, j)
    case By(InHand(p)) => Attempting(a, p) && a.disp.Get(p) == Holding(j) ==>
           Attempting(b, p)
           && b.disp.Get(p) == Holding(j)
    case By(Attempt(p, _)) => Attempting(a, p) ==> Attempting(b, p)
    case By(Drained(_)) => a.co == CoDeregDrain ==> b.co == CoDeregDrain
  }

  lemma SpotSeen(c: Config, a: Around, b: Around, j: nat, u: Ue, x: Spot)
    requires SpotOk(c, a, j, u, x) && b.cover == a.cover && StillThere(a, b, j, x)
            && (Listed(a.co, j) ==> Listed(b.co, j))
    ensures SpotOk(c, b, j, u, x)
  {
    ProcHoldsSeen(c, a, b, j, u);
    hide ProcHolds, Queueing, Attempting;
    assert x.By? && x.x.Drained? && !x.x.counted ==> DeregHolds(c, a, j, u, Start) == DeregHolds(c, b, j, u, Start);
  }

  /** The same for a gNB. */
  predicate GStillThere(a: GAround, b: GAround, g: nat, x: GSpot) {
    && b.ues == a.ues
    && match x
       case GFree => GnbSettled(a.co, g) == GnbSettled(b.co, g) && Released(a.co, g) == Released(b.co, g)
           && (2 <= Rank(a.co) ==> 2 <= Rank(b.co))
       case GBy(GQueued) => GnbSettled(a.co, g) == GnbSettled(b.co, g) && Released(a.co, g) == Released(b.co, g)
       case GBy(GHand) => a.co == CoN2 && a.hand == g ==> b.co == CoN2 && b.hand == g
       case GBy(GAtt(pc)) =>
         if Closing(pc) then 13 <= Rank(a.co) <= 14 && Released(a.co, g) ==> 13 <= Rank(b.co) <= 14 && Released(b.co, g)
         else a.co == CoN2 || a.co == CoN2Wait ==> b.co == CoN2 || b.co == CoN2Wait
  }

  lemma GSpotSeen(c: Config, a: GAround, b: GAround, g: nat, r: Gnb, x: GSpot)
    requires GSpotOk(c, a, g, r, x) && GStillThere(a, b, g, x)
    ensures GSpotOk(c, b, g, r, x)
  {
    hide Booked, Untouched, UpOrLost, Rank, Past;
  }

  lemma TurnStill(s: Run, t: Run, k: Turn, j: nat)
    requires Ready(s, k) && Gates(s) && j < |s.ues| && s.ues[j].gnb < |s.gnbs|
    requires t.co == NextCo(k) && t.disp == NextDisp(s.disp, k) && t.ues == s.ues && t.gnbs == s.gnbs
    ensures StillThere(AroundOf(s, j), AroundOf(t, j), j, SpotOf(s.ues[j].held))
    ensures Listed(s.co, j) ==> Listed(t.co, j)
  {
  }

  lemma TurnGnbs(s: Run, t: Run, k: Turn, g: nat)
    requires Ready(s, k) && Gates(s) && g < |s.gnbs|
    requires t.co == NextCo(k) && t.n2Hand == s.n2Hand && |t.ues| == |s.ues|
    ensures GStillThere(GAroundOf(s), GAroundOf(t), g, GSpotOf(s.gnbs[g].held))
  {
  }

  lemma TurnGates(s: Run, t: Run, k: Turn)
    requires Ready(s, k) && Gates(s)
    requires t == s.(co := NextCo(k), disp := NextDisp(s.disp, k))
    ensures Gates(t)
  {
  }

  lemma TurnKeeps(c: Config, s: Run, t: Run, k: Turn)
    requires Inv(c, s) && Ready(s, k) && t == s.(co := NextCo(k), disp := NextDisp(s.disp, k))
    ensures Inv(c, t)
  {
    hide Inv, GnbsOk, Gates;
    InvGnbs(c, s);
    TurnGates(s, t, k);
    hide Ready, NextCo, NextDisp;
    GnbsSeen(c, s, t, k);
    forall j | 0 <= j < |s.ues| ensures Seen(c, s, t, j) {
      TurnStill(s, t, k, j);
      SpotSeenAt(c, s, t, j);
    }
    hide Seen;
    Moved1(c, s, t);
  }

  lemma SpotSeenAt(c: Config, s: Run, t: Run, j: nat)
    requires j < |s.ues| && s.ues[j].gnb < |s.gnbs| && t.ues == s.ues && t.gnbs == s.gnbs
    requires StillThere(AroundOf(s, j), AroundOf(t, j), j, SpotOf(s.ues[j].held))
            && (Listed(s.co, j) ==> Listed(t.co, j))
    ensures Seen(c, s, t, j)
  {
    hide SpotOk, StillThere, Listed;
    if SpotOk(c, AroundOf(s, j), j, s.ues[j], SpotOf(s.ues[j].held)) {
      SpotSeen(c, AroundOf(s, j), AroundOf(t, j), j, s.ues[j], SpotOf(s.ues[j].held));
    }
  }

  lemma GnbsSeen(c: Config, s: Run, t: Run, k: Turn)
    requires GnbsOk(c, s) && Gates(s) && Ready(s, k)
    requires t == s.(co := NextCo(k), disp := NextDisp(s.disp, k))
    ensures GnbsOk(c, t)
  {
    hide Gates, Ready, NextCo, NextDisp, GSpotOk;
    forall g | 0 <= g < |t.gnbs| ensures GnbOk(c, GAroundOf(t), g, t.gnbs[g]) {
      var r := s.gnbs[g];
      assert GnbOk(c, GAroundOf(s), g, r);
      TurnGnbs(s, t, k, g);
      hide GStillThere;
      GSpotSeen(c, GAroundOf(s), GAroundOf(t), g, r, GSpotOf(r.held));
    }
  }

  // ------------------------------------------------- loops over the UEs

  lemma DrainOneKeeps(c: Config, s: Run, t: Run, p: Proc, i: nat)
    requires Inv(c, s) && s.co == CoDrain && p != Dereg && i < |s.ues|
            && Taken(s, t, i, Move(Queued(p), Free, s.ues[i], Nothing))
    ensures Inv(c, t)
  {
    var m := Move(Queued(p), Free, s.ues[i], Nothing);
    hide Inv, Change, SpotOk, MoveOk;
    InvAt(c, s, i, Queued(p));
    DrainOneOk(c, AroundOf(s, i), i, s.ues[i], p);
    MoveKeeps(c, s, t, i, m);
  }

  lemma DrainOneOk(c: Config, a: Around, i: nat, u: Ue, p: Proc)
    requires SpotOk(c, a, i, u, By(Queued(p))) && a.co == CoDrain && p != Dereg
    ensures MoveOk(c, a, i, u, Move(Queued(p), Free, u, Nothing))
  {
    hide DeregHolds;
  }

  /** execute's loops over the UEs go from UE i to the next. */
  predicate Advances(a: Co, b: Co, i: nat) {
    || (a == CoSkipUe(i) && b == CoSkipUe(i + 1))
    || (a == CoPlan(i) && b == CoPlan(i + 1))
    || (a == CoEnqueue(i) && b == CoEnqueue(i + 1))
  }

  lemma AdvanceSeen(c: Config, s: Run, t: Run, i: nat)
    requires GnbsOk(c, s) && Gates(s) && Advances(s.co, t.co, i) && t.disp == s.disp && t.gnbs == s.gnbs
            && |t.ues| == |s.ues| && t.n2Hand == s.n2Hand
    requires forall j :: 0 <= j < |s.ues| ==> s.ues[j].gnb < |s.gnbs|
    ensures SeenBut(c, s, t, i) && GnbsOk(c, t)
  {
    forall j | 0 <= j < |s.ues| && j != i ensures Seen(c, s, t, j) {
      var x := SpotOf(s.ues[j].held);
      var a := AroundOf(s, j);
      var b := a.(co := t.co);
      if SpotOk(c, a, j, s.ues[j], x) {
        assert StillThere(a, b, j, x) && (Listed(a.co, j) ==> Listed(b.co, j)) by { hide SpotOk, Gates, GnbsOk; }
        hide SpotOk, StillThere, Gates, GnbsOk, Listed;
        SpotSeen(c, a, b, j, s.ues[j], x);
      }
    }
    forall g | 0 <= g < |t.gnbs| ensures GnbOk(c, GAroundOf(t), g, t.gnbs[g]) {
      hide SpotOk, Gates;
      assert GnbOk(c, GAroundOf(s), g, s.gnbs[g]);
      assert GStillThere(GAroundOf(s), GAroundOf(t), g, GSpotOf(s.gnbs[g].held)) by { hide GSpotOk; }
      hide GStillThere, GSpotOk;
      GSpotSeen(c, GAroundOf(s), GAroundOf(t), g, s.gnbs[g], GSpotOf(s.gnbs[g].held));
    }
  }

  lemma SettleOk(c: Config, a: Around, i: nat, u: Ue)
    requires UeOk(c, a, i, u) && a.co == CoSkipUe(i)
    ensures u.held == multiset{}
    ensures UeOk(c, a.(co := CoSkipUe(i + 1)), i, SettledUe(u).(book := SettleEffect(u).Note(u.book)))
    ensures Fair(u, SettledUe(u), SettleEffect(u))
  {
    hide ProcHolds, DeregHolds;
    var x := SpotOf(u.held);
    assert x == Free;
  }

  lemma PlanOk(c: Config, a: Around, i: nat, u: Ue)
    requires UeOk(c, a, i, u) && a.co == CoPlan(i)
    ensures u.held == multiset{} && !u.todo && !u.counted
    ensures UeOk(c, a.(co := CoPlan(i + 1)), i, u.(book := Nothing.(dereg := DoSkip).Note(u.book)))
    ensures UeOk(c, a.(co := CoPlan(i + 1)), i, u.(todo := true, book := Nothing.Note(u.book)))
    ensures Fair(u, u, Nothing.(dereg := DoSkip))
  {
    hide ProcHolds, DeregHolds;
    var x := SpotOf(u.held);
    assert x == Free;
  }

  lemma EnqueueOk(c: Config, a: Around, i: nat, u: Ue)
    requires UeOk(c, a, i, u) && a.co == CoEnqueue(i)
    ensures u.held == multiset{}
    ensures u.todo ==> UeOk(c, a.(co := CoEnqueue(i + 1)), i, u.(held := multiset{Queued(Dereg)}))
    ensures !u.todo ==> UeOk(c, a.(co := CoEnqueue(i + 1)), i, u)
    ensures Fair(u, u.(held := multiset{Queued(Dereg)}), Nothing)
  {
    hide RegHolds, PduHolds, CpHolds;
    var x := SpotOf(u.held);
    assert x == Free;
    assert SpotOf(multiset{Queued(Dereg)}) == By(Queued(Dereg));
  }

  lemma AdvanceGates(c: Config, s: Run, t: Run, i: nat, v: Ue, e: Effect)
    requires Balanced(c, s) && Gates(s) && i < |s.ues| && Fair(s.ues[i], v, e) && !e.leftDown
    requires Advances(s.co, t.co, i) && t == Change(s, i, v, e).(co := t.co)
    ensures Gates(t)
  {
    GatesCountDown(c, s, i, v, e);
    assert Rank(s.co) == Rank(t.co);
    hide Balanced;
  }

  lemma AdvanceKeeps(c: Config, s: Run, t: Run, i: nat, v: Ue, e: Effect)
    requires Inv(c, s) && i < |s.ues| && Advances(s.co, t.co, i)
    requires t == Change(s, i, v, e).(co := t.co)
    requires s.ues[i].gnb < |s.gnbs| && UeOk(c, AroundOf(s, i), i, s.ues[i]) ==>
               var a := AroundOf(s, i);
               Fair(s.ues[i], v, e) && !e.leftDown && UeOk(c, a.(co := t.co), i, v.(book := e.Note(s.ues[i].book)))
    ensures Inv(c, t)
  {
    assert t.gnbs == s.gnbs && |t.ues| == |s.ues| && t.n2Hand == s.n2Hand && t.disp == s.disp;
    hide Inv, UeOk, Fair, Gates, GnbsOk, Balanced;
    InvUe(c, s, i);
    InvGnbs(c, s);
    AdvanceGates(c, s, t, i, v, e);
    AdvanceSeen(c, s, t, i);
    hide Change, Advances, SeenBut;
    assert AroundOf(t, i) == AroundOf(s, i).(co := t.co);
    Assembled(c, s, t, i, v, e);
  }

  lemma SkipUeKeeps(c: Config, s: Run, t: Run, i: nat)
    requires Inv(c, s) && Settles(s, t, i)
    ensures Inv(c, t)
  {
    var u := s.ues[i];
    hide Inv, UeOk, Change;
    InvUe(c, s, i);
    SettleOk(c, AroundOf(s, i), i, u);
    hide SettledUe, SettleEffect, Fair;
    AdvanceKeeps(c, s, t, i, SettledUe(u), SettleEffect(u));
  }

  lemma PlanKeeps(c: Config, s: Run, t: Run, i: nat, alive: bool)
    requires Inv(c, s) && Plans(s, t, i, alive)
    ensures Inv(c, t)
  {
    var u := s.ues[i];
    hide Inv, UeOk, Change;
    InvUe(c, s, i);
    PlanOk(c, AroundOf(s, i), i, u);
    hide Fair;
    if !u.link || !s.gnbs[u.gnb].assoc || !alive || s.abort {
      AdvanceKeeps(c, s, t, i, u, Nothing.(dereg := DoSkip));
    } else {
      PlanTodoKeeps(c, s, t, i);
    }
  }

  /** deregisterAll puts UE i on its list: left will count it. */
  lemma PlanTodoKeeps(c: Config, s: Run, t: Run, i: nat)
    requires Inv(c, s) && i < |s.ues| && s.co == CoPlan(i)
    requires t == s.(ues := s.ues[i := s.ues[i].(todo := true)], co := CoPlan(i + 1), left := s.left + 1)
    ensures Inv(c, t)
  {
    var u := s.ues[i];
    var v := u.(todo := true);
    NothingNotes(u.book);
    hide Inv, UeOk;
    InvUe(c, s, i);
    InvGnbs(c, s);
    PlanOk(c, AroundOf(s, i), i, u);
    assert Gates(t) by { hide GnbsOk, Balanced; }
    hide Gates;
    PlanTodoBalanced(c, s, t, i);
    hide Balanced, GnbsOk;
    AdvanceSeen(c, s, t, i);
    hide Change;
    forall j | 0 <= j < |t.ues| ensures t.ues[j].gnb < |t.gnbs| && UeOk(c, AroundOf(t, j), j, t.ues[j]) {
      InvUe(c, s, j);
      if j != i {
        assert Seen(c, s, t, j);
        hide SpotOk;
        assert UeOk(c, AroundOf(t, j), j, t.ues[j]);
      } else {
        assert AroundOf(t, i) == AroundOf(s, i).(co := t.co);
      }
    }
    assert Inv(c, t);
  }

  lemma PlanTodoBalanced(c: Config, s: Run, t: Run, i: nat)
    requires Balanced(c, s) && i < |s.ues| && !s.ues[i].todo && !s.ues[i].counted
    requires t == s.(ues := s.ues[i := s.ues[i].(todo := true)], co := t.co, left := s.left + 1)
    ensures Balanced(c, t)
  {
    var u := s.ues[i];
    var v := u.(todo := true);
    assert Kept(c, t) == Kept(c, s).(todoLeft := s.left + 1);
    assert Kept(c, t).Plus(Share(u)) == Kept(c, s).Plus(Share(v)) by { hide Counters.Plus; }
    hide Kept, Total, GTotal, Share, CountIn;
    TotalUpdate(s.ues, i, v);
    LedgerCancels(Kept(c, t), Total(t.ues), Share(u));
    forall st: UeState ensures t.summary.Of(st) == CountIn(t.ues, st) {
      CountInUpdate(s.ues, i, v, st);
    }
  }

  lemma ChangeNone(s: Run, i: nat)
    requires i < |s.ues|
    ensures Change(s, i, s.ues[i], Nothing) == s
  {
    var u := s.ues[i];
    NothingNotes(u.book);
    assert s.summary.Move(u.state, u.state) == s.summary;
    assert s.ues[i := u] == s.ues;
  }

  lemma FairSame(u: Ue)
    ensures Fair(u, u, Nothing)
  {
  }

  lemma PushedIs(s: Run, i: nat, p: Proc)
    requires i < |s.ues| && s.ues[i].held == multiset{}
    ensures Pushed(s, i, p) == Change(s, i, s.ues[i].(held := multiset{Queued(p)}), Nothing)
  {
    var u := s.ues[i];
    NothingNotes(u.book);
    assert u.held + multiset{Queued(p)} == multiset{Queued(p)};
    assert s.summary.Move(u.state, u.state) == s.summary;
  }

  lemma EnqueueKeeps(c: Config, s: Run, t: Run, i: nat)
    requires Inv(c, s) && Enqueues(s, t, i)
    ensures Inv(c, t)
  {
    var u := s.ues[i];
    hide Inv, UeOk, Change, Fair, Pushed;
    InvUe(c, s, i);
    EnqueueOk(c, AroundOf(s, i), i, u);
    NothingNotes(u.book);
    if u.todo {
      PushedIs(s, i, Dereg);
      AdvanceKeeps(c, s, t, i, u.(held := multiset{Queued(Dereg)}), Nothing);
    } else {
      ChangeNone(s, i);
      FairSame(u);
      AdvanceKeeps(c, s, t, i, u, Nothing);
    }
  }

  /** With every UE's deregistration planned and none listed, none is left to count. */
  lemma PlanEndKeeps(c: Config, s: Run, t: Run)
    requires Inv(c, s) && PlansEnd(s, t)
    ensures Inv(c, t)
  {
    hide SpotOk, GSpotOk, Change;
    InvGnbs(c, s);
    assert Gates(t) by { hide Inv, GnbsOk, Balanced; }
    forall j | 0 <= j < |s.ues| ensures Seen(c, s, t, j) {
      hide Seen, GnbsOk, Gates, Balanced;
      InvUe(c, s, j);
      PlannedSeen(c, s, t, j);
    }
    forall g | 0 <= g < |t.gnbs| ensures GnbOk(c, GAroundOf(t), g, t.gnbs[g]) {
      hide Inv, Gates, Balanced;
      assert GnbOk(c, GAroundOf(s), g, s.gnbs[g]);
      GSpotSeen(c, GAroundOf(s), GAroundOf(t), g, s.gnbs[g], GSpotOf(s.gnbs[g].held));
    }
    hide Inv, Gates, Balanced, Seen, GnbOk;
    Moved1(c, s, t);
  }

  lemma PlannedSeen(c: Config, s: Run, t: Run, j: nat)
    requires Balanced(c, s) && s.co == CoPlan(|s.ues|) && j < |s.ues| && s.ues[j].gnb < |s.gnbs| && |s.ues[j].held| <= 1
    requires t == s.(co := if s.left == 0 then CoClose(0) else CoEnqueue(0))
    ensures Seen(c, s, t, j)
  {
    hide ProcHolds, Booked, Total, GTotal, CountIn;
    TotalGates(s.ues, j);
  }

  // ------------------------------------------------------------ runCpLoop

  /** runCpLoop goes on: it queues UE i (which sees more than this), or none. */
  predicate CpTurns(a: Disp, b: Disp, i: int) {
    || (a == WaitTp && (b == Done || b == Enq(0)))
    || (a.Enq? && a.k == i && b == Enq(a.k + 1))
    || (a.Enq? && b == Popping)
  }

  lemma CpTurnStill(a: Around, d: Disp, i: int, j: nat, x: Spot)
    requires CpTurns(a.disp.cp, d, i) && j != i
    ensures StillThere(a, a.(disp := a.disp.(cp := d)), j, x)
  {
  }

  lemma CpTurnSeen(c: Config, s: Run, t: Run, i: int)
    requires forall j :: 0 <= j < |s.ues| ==> s.ues[j].gnb < |s.gnbs|
    requires CpTurns(s.disp.cp, t.disp.cp, i) && t.disp == s.disp.(cp := t.disp.cp) && t.co == s.co && t.gnbs == s.gnbs
    ensures SeenBut(c, s, t, i)
  {
    hide SpotOk, StillThere, CpTurns;
    forall j | 0 <= j < |s.ues| && j != i ensures Seen(c, s, t, j) {
      var x := SpotOf(s.ues[j].held);
      var a := AroundOf(s, j);
      CpTurnStill(a, t.disp.cp, i, j, x);
      if SpotOk(c, a, j, s.ues[j], x) {
        SpotSeen(c, a, a.(disp := t.disp), j, s.ues[j], x);
      }
    }
  }

  lemma CpTurnGates(c: Config, s: Run, t: Run, k: CpLoopStep)
    requires Gates(s) && GnbsOk(c, s) && (k.CpNone? || k.CpStopEarly? || k.CpGate? || k.CpDispatch?) && CpLoop(s, t, k)
    ensures CpTurns(s.disp.cp, t.disp.cp, -1) && t == s.(disp := s.disp.(cp := t.disp.cp))
    ensures Gates(t) && GnbsOk(c, t)
  {
    hide GnbOk, Pushed;
    assert GAroundOf(t) == GAroundOf(s);
  }

  lemma CpTurnKeeps(c: Config, s: Run, t: Run, k: CpLoopStep)
    requires Inv(c, s) && (k.CpNone? || k.CpStopEarly? || k.CpGate? || k.CpDispatch?) && CpLoop(s, t, k)
    ensures Inv(c, t)
  {
    hide Inv, GnbsOk, Gates;
    InvGnbs(c, s);
    CpTurnGates(c, s, t, k);
    hide CpLoop;
    CpTurnSeen(c, s, t, -1);
    hide Seen;
    Moved1(c, s, t);
  }

  lemma CpEnqueueOk(c: Config, a: Around, i: nat, u: Ue)
    requires UeOk(c, a, i, u) && a.disp.cp == Enq(i) && 3 <= Rank(a.co) <= 5
    ensures u.cp ==>
              u.held == multiset{}
              && UeOk(c, a.(disp := a.disp.(cp := Enq(i + 1))), i, u.(held := multiset{Queued(Cp)}))
    ensures UeOk(c, a.(disp := a.disp.(cp := Enq(i + 1))), i, u)
  {
    var x := SpotOf(u.held);
    var b := a.(disp := a.disp.(cp := Enq(i + 1)));
    assert SpotOf(multiset{Queued(Cp)}) == By(Queued(Cp));
    assert StillThere(a, b, i, x);
    SpotSeen(c, a, b, i, u, x);
    hide RegHolds, PduHolds;
  }

  lemma CpEnqueueGates(c: Config, s: Run, t: Run, i: nat, v: Ue)
    requires Gates(s) && GnbsOk(c, s) && i < |s.ues| && s.disp.cp == Enq(i)
    requires t == s.(ues := s.ues[i := v], disp := s.disp.(cp := Enq(i + 1)))
    ensures Gates(t) && GnbsOk(c, t) && 3 <= Rank(s.co) <= 5
  {
    hide GnbOk;
    assert GAroundOf(t) == GAroundOf(s);
  }

  lemma CpEnqueueKeeps(c: Config, s: Run, t: Run, i: nat, v: Ue)
    requires Inv(c, s) && i < |s.ues| && s.disp.cp == Enq(i)
    requires v == s.ues[i] || (s.ues[i].cp && v == s.ues[i].(held := s.ues[i].held + multiset{Queued(Cp)}))
    requires t == s.(ues := s.ues[i := v], disp := s.disp.(cp := Enq(i + 1)))
    ensures Inv(c, t)
  {
    hide Inv, UeOk, GnbsOk, Gates, SeenBut, AroundOf;
    InvUe(c, s, i);
    InvGnbs(c, s);
    CpEnqueueGates(c, s, t, i, v);
    EnqueuedAround(s, t, i);
    CpEnqueueOk(c, AroundOf(s, i), i, s.ues[i]);
    if v != s.ues[i] {
      assert v == s.ues[i].(held := multiset{Queued(Cp)});
    }
    CpTurnSeen(c, s, t, i);
    OnlyHeld(c, s, t, i, v);
  }

  lemma EnqueuedAround(s: Run, t: Run, i: nat)
    requires i < |s.ues| == |t.ues| && s.ues[i].gnb == t.ues[i].gnb < |s.gnbs|
    requires t.co == s.co && t.gnbs == s.gnbs && t.disp == s.disp.(cp := Enq(i + 1)) && s.disp.cp == Enq(i)
    ensures AroundOf(s, i).disp.cp == Enq(i) && AroundOf(s, i).co == s.co
    ensures AroundOf(t, i) == AroundOf(s, i).(disp := AroundOf(s, i).disp.(cp := Enq(i + 1)))
  {
  }
}
