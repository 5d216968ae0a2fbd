/** Every step of an attempt, and of draining, keeps the invariant. */
module RunAttempts {
  import opened MetricsStage
  import opened UeSummaries
  import opened RunModel
  import opened RunInvariant
  import opened RunPreserve

  lemma RegKeeps(c: Config, s: Run, t: Run, i: nat, k: RegStep)
    requires Inv(c, s) && i < |s.ues| && Taken(s, t, i, RegMove(c, s.ctxDone, s.ues[i], k))
    ensures Inv(c, t)
  {
    hide Inv, Change, SpotOk, MoveOk, RegMove;
    var u := s.ues[i];
    InvAt(c, s, i, RegMove(c, s.ctxDone, u, k).from);
    var a := AroundOf(s, i);
    if k.RLock? || k.RCall? || k.RAnswer? {
      RegTries(c, a, s.ctxDone, i, u, k);
    } else if k.RGiveBack? || k.RBackLocked? {
      RegGivesBack(c, a, s.ctxDone, i, u, k);
    } else if k.RFinish? || k.RLocked? || k.RPush? {
      RegAccepts(c, a, s.ctxDone, i, u, k);
    } else {
      RegGivesUp(c, a, s.ctxDone, i, u, k);
    }
    MoveKeeps(c, s, t, i, RegMove(c, s.ctxDone, u, k));
  }

  lemma PduKeeps(c: Config, s: Run, t: Run, i: nat, k: PduStep)
    requires Inv(c, s) && i < |s.ues| && Taken(s, t, i, PduMove(c, s.ctxDone, s.ues[i], k))
    ensures Inv(c, t)
  {
    hide Inv, Change, SpotOk, MoveOk, PduMove;
    var u := s.ues[i];
    InvAt(c, s, i, PduMove(c, s.ctxDone, u, k).from);
    var a := AroundOf(s, i);
    if k.PLock? || k.PCall? || k.PAnswer? || k.PGiveBack? || k.PBackLocked? {
      PduTries(c, a, s.ctxDone, i, u, k);
    } else {
      PduEnds(c, a, s.ctxDone, i, u, k);
    }
    MoveKeeps(c, s, t, i, PduMove(c, s.ctxDone, u, k));
  }

  lemma DeregKeeps(c: Config, s: Run, t: Run, i: nat, k: DeregStep)
    requires Inv(c, s) && i < |s.ues| && Taken(s, t, i, DeregMove(c, s.abort, s.ues[i], k))
    requires k.DDrain? ==> s.co == CoDeregDrain
    ensures Inv(c, t)
  {
    hide Inv, Change, SpotOk, MoveOk, DeregMove;
    var u := s.ues[i];
    InvAt(c, s, i, DeregMove(c, s.abort, u, k).from);
    var a := AroundOf(s, i);
    if k.DLock? || k.DCall? || k.DAnswer? {
      DeregTries(c, a, s.abort, i, u, k);
    } else if k.DGiveBack? || k.DAgain? {
      DeregGivesBack(c, a, s.abort, i, u, k);
    } else if k.DFinish? || k.DFinishAborted? || k.DLeft? {
      DeregEnds(c, a, s.abort, i, u, k);
    } else if k.DLocked? || k.DAbortLocked? || k.DFailLocked? {
      DeregDetaches(c, a, s.abort, i, u, k);
    } else {
      DeregDrains(c, a, s.abort, i, u, k);
    }
    MoveKeeps(c, s, t, i, DeregMove(c, s.abort, u, k));
  }

  lemma CpKeeps(c: Config, s: Run, t: Run, i: nat, k: CpStep)
    requires Inv(c, s) && i < |s.ues| && Taken(s, t, i, CpMove(s.ctxDone, s.ues[i], k))
    ensures Inv(c, t)
  {
    hide Inv, Change, SpotOk, MoveOk, CpMove;
    var u := s.ues[i];
    InvAt(c, s, i, CpMove(s.ctxDone, u, k).from);
    CpOk(c, AroundOf(s, i), s.ctxDone, i, u, k);
    MoveKeeps(c, s, t, i, CpMove(s.ctxDone, u, k));
  }

  lemma CpOk(c: Config, a: Around, ctxDone: bool, i: nat, u: Ue, k: CpStep)
    requires SpotOk(c, a, i, u, By(CpMove(ctxDone, u, k).from))
    ensures MoveOk(c, a, i, u, CpMove(ctxDone, u, k))
  {
    hide SpotOk, MoveOk, CpMove;
    if k.CEnter? {
      CpEnters(c, a, ctxDone, i, u, k);
    } else if k.CBegin? || k.CRegAnswer? {
      CpCalls(c, a, ctxDone, i, u, k);
    } else if k.CRegFinish? || k.CRegLocked? {
      CpRegisters(c, a, ctxDone, i, u, k);
    } else if k.CHoldIn? || k.CHeld? || k.CLeft? {
      CpHoldsOn(c, a, ctxDone, i, u, k);
    } else if k.CDeregLocked? || k.CDeregBegin? {
      CpDeregisters(c, a, ctxDone, i, u, k);
    } else if k.CDeregAnswer? || k.CDetached? {
      CpAnswered(c, a, ctxDone, i, u, k);
    } else if k.CCounted? || k.CDeregFinish? {
      CpCounts(c, a, ctxDone, i, u, k);
    } else {
      CpIdles(c, a, ctxDone, i, u, k);
    }
  }
}
