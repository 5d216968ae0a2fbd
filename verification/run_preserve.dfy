/** Every step of an attempt keeps the invariant: a local argument about one record, then one argument about the run. */
module RunPreserve {
  import opened MetricsStage
  import opened UeSummaries
  import opened RunModel
  import opened RunInvariant

  // ------------------------------------------------------- changing one UE

  lemma SummaryMoves(s: Summary, a: UeState, b: UeState, st: UeState)
    ensures s.Move(a, b).Of(st) - s.Of(st) == B(b == st) - B(a == st)
  {
  }

  lemma CallAdds(call: StageCall, k: Counters, l: Counters)
    ensures call.On(k).Plus(l) == k.Plus(call.On(l))
  {
  }

  /** The record v of UE u keeps who the UE is, and leaves the gates' counts as effect e says. */
  predicate Fair(u: Ue, v: Ue, e: Effect) {
    && v.gnb == u.gnb && v.cp == u.cp
    && B(!v.pduDone) == B(!u.pduDone) - B(e.pduDone)
    && B(v.todo && !v.counted) == B(u.todo && !u.counted) - B(e.leftDown)
  }

  /** Effect e on the counters a run keeps. */
  function Noted(cp: bool, e: Effect, l: Ledger): Ledger {
    Ledger(e.reg.On(l.reg), e.pdu.On(l.pdu),
           if cp then l.dereg else e.dereg.On(l.dereg), if cp then e.dereg.On(l.cleanup) else l.cleanup,
           e.cpReg.On(l.cpReg), e.cpDereg.On(l.cpDereg), l.registered + e.cpRegistered, l.cycles + e.cpCycles,
           l.pduLeft - B(e.pduDone), l.todoLeft - B(e.leftDown), l.throughput)
  }

  /** A call is counted once for the run and once for its UE. */
  lemma NotedTwice(u: Ue, v: Ue, e: Effect, l: Ledger)
    requires Fair(u, v, e)
    ensures Noted(u.cp, e, l).Plus(Share(u)) == l.Plus(Share(v.(book := e.Note(u.book))))
  {
    var b := u.book;
    CallAdds(e.reg, l.reg, b.reg);
    CallAdds(e.pdu, l.pdu, b.pdu);
    CallAdds(e.dereg, if u.cp then l.cleanup else l.dereg, b.dereg);
    CallAdds(e.cpReg, l.cpReg, b.cpReg);
    CallAdds(e.cpDereg, l.cpDereg, b.cpDereg);
    hide StageCall.On, Counters.Plus;
  }

  lemma KeptNoted(c: Config, s: Run, i: nat, v: Ue, e: Effect)
    requires i < |s.ues|
    ensures Kept(c, Change(s, i, v, e)) == Noted(s.ues[i].cp, e, Kept(c, s))
  {
    hide StageCall.On;
  }

  lemma BalancedUpdate(c: Config, s: Run, i: nat, v: Ue, e: Effect)
    requires Balanced(c, s) && i < |s.ues| && Fair(s.ues[i], v, e)
    ensures Balanced(c, Change(s, i, v, e))
  {
    var w := v.(book := e.Note(s.ues[i].book));
    var t := Change(s, i, v, e);
    KeptNoted(c, s, i, v, e);
    NotedTwice(s.ues[i], v, e, Kept(c, s));
    assert t.ues == s.ues[i := w] && t.summary == s.summary.Move(s.ues[i].state, w.state);
    assert t.gnbs == s.gnbs && t.n2 == s.n2 && t.release == s.release && t.n2Left == s.n2Left;
    hide Share, Kept, Change, Total, GTotal, Ledger.Plus, Fair, Noted;
    TotalUpdate(s.ues, i, w);
    LedgerCancels(Kept(c, t), Total(t.ues), Share(s.ues[i]));
    forall st: UeState ensures t.summary.Of(st) == CountIn(t.ues, st) {
      CountInUpdate(s.ues, i, w, st);
      SummaryMoves(s.summary, s.ues[i].state, w.state, st);
    }
  }

  /** A countdown never runs below zero, so its gate opens once. */
  lemma GatesCountDown(c: Config, s: Run, i: nat, v: Ue, e: Effect)
    requires Balanced(c, s) && Gates(s) && i < |s.ues| && Fair(s.ues[i], v, e)
    requires e.leftDown ==> s.co == CoDereg
    ensures Gates(Change(s, i, v, e))
  {
    TotalGates(s.ues, i);
    hide Total, Share;
  }

  lemma InvUe(c: Config, s: Run, i: nat)
    requires Inv(c, s) && i < |s.ues|
    ensures s.ues[i].gnb < |s.gnbs| && UeOk(c, AroundOf(s, i), i, s.ues[i])
  {
    hide UeOk, GnbsOk, Balanced, Gates;
  }

  lemma InvAt(c: Config, s: Run, i: nat, x: Place)
    requires Inv(c, s) && i < |s.ues| && x in s.ues[i].held
    ensures s.ues[i].gnb < |s.gnbs| && s.ues[i].held == multiset{x}
    ensures SpotOk(c, AroundOf(s, i), i, s.ues[i], By(x))
  {
    hide Inv, SpotOk;
    InvUe(c, s, i);
    Sole(s.ues[i].held, x);
  }

  lemma OneUe(c: Config, s: Run, i: nat, v: Ue, e: Effect)
    requires Inv(c, s) && i < |s.ues| && s.ues[i].gnb < |s.gnbs| && Fair(s.ues[i], v, e)
    requires UeOk(c, AroundOf(s, i), i, v.(book := e.Note(s.ues[i].book)))
    requires e.leftDown ==> s.co == CoDereg
    ensures Inv(c, Change(s, i, v, e))
  {
    hide UeOk, GnbOk, Gates, Balanced;
    BalancedUpdate(c, s, i, v, e);
    GatesCountDown(c, s, i, v, e);
    var t := Change(s, i, v, e);
    assert t.ues == s.ues[i := v.(book := e.Note(s.ues[i].book))] && t.gnbs == s.gnbs && t.co == s.co
        && t.disp == s.disp && t.n2Hand == s.n2Hand;
    hide Change;
    forall j | 0 <= j < |t.ues| ensures t.ues[j].gnb < |t.gnbs| && UeOk(c, AroundOf(t, j), j, t.ues[j]) {
      assert AroundOf(t, j) == AroundOf(s, j);
    }
  }

  /** What a move must do for one record, whatever the rest of the run is. */
  predicate MoveOk(c: Config, a: Around, i: nat, u: Ue, m: Move) {
    && SpotOk(c, a, i, m.ue.(book := m.effect.Note(u.book)), m.to)
    && Fair(u, m.ue, m.effect)
    && (m.effect.leftDown ==> a.co == CoDereg)
  }

  lemma MoveKeeps(c: Config, s: Run, t: Run, i: nat, m: Move)
    requires Inv(c, s) && Taken(s, t, i, m)
    requires s.ues[i].gnb < |s.gnbs|
    requires SpotOk(c, AroundOf(s, i), i, s.ues[i], By(m.from)) ==> MoveOk(c, AroundOf(s, i), i, s.ues[i], m)
    ensures Inv(c, t)
  {
    hide Inv, SpotOk, Change;
    InvAt(c, s, i, m.from);
    var v := m.ue.(held := Given(s.ues[i].held, m.from, m.to));
    HeldApart(c, AroundOf(s, i), i, m.ue.(book := m.effect.Note(s.ues[i].book)),
        v.(book := m.effect.Note(s.ues[i].book)), m.to);
    assert SpotOf(v.held) == m.to && |v.held| <= 1;
    OneUe(c, s, i, v, m.effect);
  }

  /** held itself is in no UE's condition. */
  lemma HeldApart(c: Config, a: Around, i: nat, u: Ue, v: Ue, x: Spot)
    requires v == u.(held := v.held)
    ensures SpotOk(c, a, i, u, x) == SpotOk(c, a, i, v, x)
  {
    hide Booked, NoCpCalls, CpBooked, Attempting, Queueing, SettledState, CleaningUp, CleanupDone;
  }

  // --------------------------------------------------- the four procedures

  lemma RegTries(c: Config, a: Around, ctxDone: bool, i: nat, u: Ue, k: RegStep)
    requires k.RLock? || k.RCall? || k.RAnswer?
    requires SpotOk(c, a, i, u, By(RegMove(c, ctxDone, u, k).from))
    ensures MoveOk(c, a, i, u, RegMove(c, ctxDone, u, k))
  {
    hide PduHolds, CpHolds, DeregHolds, PipelineRest, CleanupRest;
  }

  lemma RegGivesBack(c: Config, a: Around, ctxDone: bool, i: nat, u: Ue, k: RegStep)
    requires k.RGiveBack? || k.RBackLocked?
    requires SpotOk(c, a, i, u, By(RegMove(c, ctxDone, u, k).from))
    ensures MoveOk(c, a, i, u, RegMove(c, ctxDone, u, k))
  {
    hide PduHolds, CpHolds, DeregHolds, PipelineRest, CleanupRest;
  }

  lemma RegAccepts(c: Config, a: Around, ctxDone: bool, i: nat, u: Ue, k: RegStep)
    requires k.RFinish? || k.RLocked? || k.RPush?
    requires SpotOk(c, a, i, u, By(RegMove(c, ctxDone, u, k).from))
    ensures MoveOk(c, a, i, u, RegMove(c, ctxDone, u, k))
  {
    hide CpHolds, DeregHolds, PipelineRest, CleanupRest;
  }

  lemma RegGivesUp(c: Config, a: Around, ctxDone: bool, i: nat, u: Ue, k: RegStep)
    requires k.RAgain? || k.RSkipPdu? || k.RFailLocked?
    requires SpotOk(c, a, i, u, By(RegMove(c, ctxDone, u, k).from))
    ensures MoveOk(c, a, i, u, RegMove(c, ctxDone, u, k))
  {
    hide PduHolds, CpHolds, DeregHolds;
  }

  lemma PduTries(c: Config, a: Around, ctxDone: bool, i: nat, u: Ue, k: PduStep)
    requires k.PLock? || k.PCall? || k.PAnswer? || k.PGiveBack? || k.PBackLocked?
    requires SpotOk(c, a, i, u, By(PduMove(c, ctxDone, u, k).from))
    ensures MoveOk(c, a, i, u, PduMove(c, ctxDone, u, k))
  {
    hide RegHolds, CpHolds, DeregHolds, PipelineRest, CleanupRest;
  }

  lemma PduEnds(c: Config, a: Around, ctxDone: bool, i: nat, u: Ue, k: PduStep)
    requires k.PFinish? || k.PLocked? || k.PAgain? || k.PFailLocked?
    requires SpotOk(c, a, i, u, By(PduMove(c, ctxDone, u, k).from))
    ensures MoveOk(c, a, i, u, PduMove(c, ctxDone, u, k))
  {
    hide RegHolds, CpHolds, DeregHolds;
  }

  lemma DeregTries(c: Config, a: Around, abort: bool, i: nat, u: Ue, k: DeregStep)
    requires k.DLock? || k.DCall? || k.DAnswer?
    requires SpotOk(c, a, i, u, By(DeregMove(c, abort, u, k).from))
    ensures MoveOk(c, a, i, u, DeregMove(c, abort, u, k))
  {
    hide RegHolds, PduHolds, CpHolds, PipelineRest, CleanupRest;
  }

  lemma DeregGivesBack(c: Config, a: Around, abort: bool, i: nat, u: Ue, k: DeregStep)
    requires k.DGiveBack? || k.DAgain?
    requires SpotOk(c, a, i, u, By(DeregMove(c, abort, u, k).from))
    ensures MoveOk(c, a, i, u, DeregMove(c, abort, u, k))
  {
    hide RegHolds, PduHolds, CpHolds, PipelineRest, CleanupRest;
  }

  lemma DeregEnds(c: Config, a: Around, abort: bool, i: nat, u: Ue, k: DeregStep)
    requires k.DFinish? || k.DFinishAborted? || k.DLeft?
    requires SpotOk(c, a, i, u, By(DeregMove(c, abort, u, k).from))
    ensures MoveOk(c, a, i, u, DeregMove(c, abort, u, k))
  {
    hide RegHolds, PduHolds, CpHolds;
  }

  lemma DeregDetaches(c: Config, a: Around, abort: bool, i: nat, u: Ue, k: DeregStep)
    requires k.DLocked? || k.DAbortLocked? || k.DFailLocked?
    requires SpotOk(c, a, i, u, By(DeregMove(c, abort, u, k).from))
    ensures MoveOk(c, a, i, u, DeregMove(c, abort, u, k))
  {
    hide RegHolds, PduHolds, CpHolds, PipelineRest, CleanupRest;
  }

  lemma DeregDrains(c: Config, a: Around, abort: bool, i: nat, u: Ue, k: DeregStep)
    requires k.DDrain? || k.DDrainSkip? || k.DDrainLocked?
    requires k.DDrain? ==> a.co == CoDeregDrain
    requires SpotOk(c, a, i, u, By(DeregMove(c, abort, u, k).from))
    ensures MoveOk(c, a, i, u, DeregMove(c, abort, u, k))
  {
    hide RegHolds, PduHolds, CpHolds;
  }

  lemma CpEnters(c: Config, a: Around, ctxDone: bool, i: nat, u: Ue, k: CpStep)
    requires k.CEnter?
    requires SpotOk(c, a, i, u, By(CpMove(ctxDone, u, k).from))
    ensures MoveOk(c, a, i, u, CpMove(ctxDone, u, k))
  {
    hide RegHolds, PduHolds, DeregHolds, Booked;
  }

  lemma CpCalls(c: Config, a: Around, ctxDone: bool, i: nat, u: Ue, k: CpStep)
    requires k.CBegin? || k.CRegAnswer?
    requires SpotOk(c, a, i, u, By(CpMove(ctxDone, u, k).from))
    ensures MoveOk(c, a, i, u, CpMove(ctxDone, u, k))
  {
    hide RegHolds, PduHolds, DeregHolds, Booked, PipelineRest, CleanupRest;
  }

  lemma CpRegisters(c: Config, a: Around, ctxDone: bool, i: nat, u: Ue, k: CpStep)
    requires k.CRegFinish? || k.CRegLocked?
    requires SpotOk(c, a, i, u, By(CpMove(ctxDone, u, k).from))
    ensures MoveOk(c, a, i, u, CpMove(ctxDone, u, k))
  {
    hide RegHolds, PduHolds, DeregHolds, Booked, PipelineRest, CleanupRest;
  }

  lemma CpHoldsOn(c: Config, a: Around, ctxDone: bool, i: nat, u: Ue, k: CpStep)
    requires k.CHoldIn? || k.CHeld? || k.CLeft?
    requires SpotOk(c, a, i, u, By(CpMove(ctxDone, u, k).from))
    ensures MoveOk(c, a, i, u, CpMove(ctxDone, u, k))
  {
    hide RegHolds, PduHolds, DeregHolds, Booked;
  }

  lemma CpDeregisters(c: Config, a: Around, ctxDone: bool, i: nat, u: Ue, k: CpStep)
    requires k.CDeregLocked? || k.CDeregBegin?
    requires SpotOk(c, a, i, u, By(CpMove(ctxDone, u, k).from))
    ensures MoveOk(c, a, i, u, CpMove(ctxDone, u, k))
  {
    hide RegHolds, PduHolds, DeregHolds, Booked, PipelineRest, CleanupRest;
  }

  lemma CpAnswered(c: Config, a: Around, ctxDone: bool, i: nat, u: Ue, k: CpStep)
    requires k.CDeregAnswer? || k.CDetached?
    requires SpotOk(c, a, i, u, By(CpMove(ctxDone, u, k).from))
    ensures MoveOk(c, a, i, u, CpMove(ctxDone, u, k))
  {
    hide RegHolds, PduHolds, DeregHolds, Booked, PipelineRest, CleanupRest;
  }

  lemma CpCounts(c: Config, a: Around, ctxDone: bool, i: nat, u: Ue, k: CpStep)
    requires k.CCounted? || k.CDeregFinish?
    requires SpotOk(c, a, i, u, By(CpMove(ctxDone, u, k).from))
    ensures MoveOk(c, a, i, u, CpMove(ctxDone, u, k))
  {
    hide RegHolds, PduHolds, DeregHolds, Booked, PipelineRest, CleanupRest;
  }

  lemma CpIdles(c: Config, a: Around, ctxDone: bool, i: nat, u: Ue, k: CpStep)
    requires k.CIdled? || k.CReturn?
    requires SpotOk(c, a, i, u, By(CpMove(ctxDone, u, k).from))
    ensures MoveOk(c, a, i, u, CpMove(ctxDone, u, k))
  {
    hide RegHolds, PduHolds, DeregHolds, Booked;
  }
}
