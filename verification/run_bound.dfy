/**
 * How much work is left in a run: a weight that every step of its goroutines
 * lowers, but for a control-plane UE that goes round again. So a stopped run
 * takes boundedly many steps, and as it never gets stuck, it ends.
 */
module RunBound {
  import opened MetricsStage
  import opened UeSummaries
  import opened RunModel
  import opened RunInvariant
  import opened RunPreserve
  import opened RunGnbs
  import opened RunSafety
  import opened RunTheorems
  import opened RunProgress

  // ---------------------------------------------------------------- weights

  /** Steps left in an attempt; an attempt of the loop goes through all of its cycle. */
  function PcWeight(pc: Pc): int {
    match pc
    case Start => 1 case Begin => 10 case Wait => 9 case Acc => 8 case Retry => 8 case Fin => 8 case Abort => 8
    case AccLock => 7 case RetryLock => 7 case FinSkip => 7 case AbortLock => 6 case Requeue => 6 case AccPush => 6
    case FinLock => 5 case Left => 4
    case CpStart => 28 case CpBegin => 27 case CpRegWait => 26 case CpRegOk => 25 case CpRegFail => 25
    case CpRegLock => 24 case CpHoldIn => 23 case CpHold => 22 case CpLeave => 21 case CpDeregLock => 21
    case CpDeregBegin => 20 case CpDeregWait => 19 case CpDetach(_) => 18 case CpCount(_) => 17
    case CpDeregFin(_) => 16 case CpIdle(_) => 15 case CpRet => 14
  }

  function PlaceWeight(x: Place): int {
    match x
    case Queued(p) => if p == Cp then 30 else 3
    case InHand(p) => if p == Cp then 29 else 2
    case Attempt(_, pc) => PcWeight(pc)
    case Drained(skipped) => if skipped then 1 else 2
  }

  function SpotWeight(x: Spot): int { match x case Free => 0 case By(y) => PlaceWeight(y) }

  function Tries(u: Ue): int { u.regAttempts + u.pduAttempts + u.deregAttempts }

  function MaxTries(c: Config): int { c.regRetries + c.pduRetries + c.deregRetries + 3 }

  ghost function UeWeight(c: Config, u: Ue): int { 10 * (MaxTries(c) - Tries(u)) + SpotWeight(SpotOf(u.held)) }

  function GPcWeight(pc: GPc): int {
    match pc
    case GStart => 1 case GBegin => 13 case GWait => 12 case GOk => 11 case GRetry => 11 case GFail => 11
    case GUp => 10 case GRetryLock => 10 case GFailState => 10 case GConn => 9 case GRequeue => 9
    case GEnq => 5 case GSkip => 5 case GDone => 1
    case RBegin => 3 case RClose => 2 case RState => 1
  }

  function GSpotWeight(x: GSpot): int {
    match x
    case GFree => 0
    case GBy(GQueued) => 3
    case GBy(GHand) => 2
    case GBy(GAtt(pc)) => GPcWeight(pc)
  }

  function WatchWeight(w: Watch): int {
    match w case WOn => 3 case WPassed => 2 case WDropped => 1 case _ => 0
  }

  ghost function GnbWeight(c: Config, ues: int, r: Gnb): int {
    13 * (c.n2Retries + 1 - r.attempts) + GSpotWeight(GSpotOf(r.held)) + 4 * (ues - r.cover) + WatchWeight(r.watch)
  }

  function DispWeight(ues: int, d: Disp): int {
    match d
    case Off => 0 case Done => 0 case Waiting => 2 case Popping => 4 case Holding(_) => 4
    case Enq(k) => 5 + 31 * (ues - k)
    case WaitTp => 6 + 31 * ues
  }

  function CloseFrom(gnbs: int): int { 2 + 5 * gnbs }

  function PlanFrom(ues: int, gnbs: int): int { CloseFrom(gnbs) + 8 + 5 * ues }

  function DrainFrom(ues: int, gnbs: int): int { PlanFrom(ues, gnbs) + 3 + ues + gnbs }

  /** What execute still has to do, and to start. */
  function CoWeight(ues: int, gnbs: int, co: Co): int {
    match co
    case CoFailed => 0 case CoStopped => 0 case CoCloseWait => 1
    case CoClose(k) => 2 + 5 * (gnbs - k)
    case CoDeregDrain => CloseFrom(gnbs) + 1
    case CoDereg => CloseFrom(gnbs) + 2
    case CoEnqueue(k) => CloseFrom(gnbs) + 7 + 4 * (ues - k)
    case CoPlan(k) => CloseFrom(gnbs) + 8 + 4 * ues + (ues - k)
    case CoSkipUe(k) => PlanFrom(ues, gnbs) + 1 + (ues - k)
    case CoSkipGnb(k) => PlanFrom(ues, gnbs) + 2 + ues + (gnbs - k)
    case CoDrain => DrainFrom(ues, gnbs)
    case CoStopping => DrainFrom(ues, gnbs) + 1
    case CoRunning => DrainFrom(ues, gnbs) + 2
    case CoHeld => DrainFrom(ues, gnbs) + 3
    case CoN2Wait => DrainFrom(ues, gnbs) + 10 + 31 * ues
    case CoN2 => DrainFrom(ues, gnbs) + 11 + 31 * ues
    case CoConfig => DrainFrom(ues, gnbs) + 20 + 31 * ues
  }

  ghost function UesWeight(c: Config, us: seq<Ue>): int {
    if us == [] then 0 else UesWeight(c, us[..|us| - 1]) + UeWeight(c, us[|us| - 1])
  }

  ghost function GnbsWeight(c: Config, ues: int, rs: seq<Gnb>): int {
    if rs == [] then 0 else GnbsWeight(c, ues, rs[..|rs| - 1]) + GnbWeight(c, ues, rs[|rs| - 1])
  }

  function DispsWeight(ues: int, d: Disps): int {
    DispWeight(ues, d.reg) + DispWeight(ues, d.pdu) + DispWeight(ues, d.cp) + DispWeight(ues, d.dereg)
  }

  ghost function Weight(c: Config, s: Run): int {
    CoWeight(|s.ues|, |s.gnbs|, s.co) + DispsWeight(|s.ues|, s.disp)
    + UesWeight(c, s.ues) + GnbsWeight(c, |s.ues|, s.gnbs)
  }

  // ------------------------------------------------------ sums, one change

  lemma {:induction false} UesChange(c: Config, us: seq<Ue>, i: nat, u: Ue)
    requires i < |us|
    ensures UesWeight(c, us[i := u]) == UesWeight(c, us) - UeWeight(c, us[i]) + UeWeight(c, u)
  {
    hide UeWeight;
    var n := |us| - 1;
    if i == n {
      assert us[i := u][..n] == us[..n];
    } else {
      UesChange(c, us[..n], i, u);
      assert us[i := u][..n] == us[..n][i := u];
    }
  }

  lemma {:induction false} GnbsChange(c: Config, ues: int, rs: seq<Gnb>, g: nat, r: Gnb)
    requires g < |rs|
    ensures GnbsWeight(c, ues, rs[g := r]) == GnbsWeight(c, ues, rs) - GnbWeight(c, ues, rs[g]) + GnbWeight(c, ues, r)
  {
    hide GnbWeight;
    var n := |rs| - 1;
    if g == n {
      assert rs[g := r][..n] == rs[..n];
    } else {
      GnbsChange(c, ues, rs[..n], g, r);
      assert rs[g := r][..n] == rs[..n][g := r];
    }
  }

  // --------------------------------------------------------- never negative

  lemma UeNotNegative(c: Config, a: Around, i: nat, u: Ue)
    requires UeOk(c, a, i, u)
    ensures UeWeight(c, u) >= 0
  {
    hide Holds, PipelineRest, CleanupRest;
  }

  lemma GnbNotNegative(c: Config, a: GAround, g: nat, r: Gnb)
    requires GnbOk(c, a, g, r)
    ensures GnbWeight(c, a.ues, r) >= 0
  {
    hide Booked;
  }

  lemma {:induction false} UesNotNegative(c: Config, us: seq<Ue>)
    requires forall i :: 0 <= i < |us| ==> UeWeight(c, us[i]) >= 0
    ensures UesWeight(c, us) >= 0
  {
    hide UeWeight;
    if us != [] {
      UesNotNegative(c, us[..|us| - 1]);
    }
  }

  lemma {:induction false} GnbsNotNegative(c: Config, ues: int, rs: seq<Gnb>)
    requires forall g :: 0 <= g < |rs| ==> GnbWeight(c, ues, rs[g]) >= 0
    ensures GnbsWeight(c, ues, rs) >= 0
  {
    hide GnbWeight;
    if rs != [] {
      GnbsNotNegative(c, ues, rs[..|rs| - 1]);
    }
  }

  lemma OwnNotNegative(s: Run)
    requires Gates(s)
    ensures CoWeight(|s.ues|, |s.gnbs|, s.co) >= 0 && DispsWeight(|s.ues|, s.disp) >= 0
  {
  }

  lemma NotNegative(c: Config, s: Run)
    requires Inv(c, s)
    ensures Weight(c, s) >= 0
  {
    hide UeOk, GnbOk, Balanced, UeWeight, GnbWeight, CoWeight, DispsWeight, Gates;
    OwnNotNegative(s);
    forall i | 0 <= i < |s.ues| ensures UeWeight(c, s.ues[i]) >= 0 {
      UeNotNegative(c, AroundOf(s, i), i, s.ues[i]);
    }
    forall g | 0 <= g < |s.gnbs| ensures GnbWeight(c, |s.ues|, s.gnbs[g]) >= 0 {
      GnbNotNegative(c, GAroundOf(s), g, s.gnbs[g]);
    }
    UesNotNegative(c, s.ues);
    GnbsNotNegative(c, |s.ues|, s.gnbs);
  }

  // ---------------------------------------------------------- UEs' attempts

  /** A move takes this off the weight. */
  function Drop(u: Ue, m: Move): int { PlaceWeight(m.from) - SpotWeight(m.to) + 10 * (Tries(m.ue) - Tries(u)) }

  lemma RegDrops(c: Config, ctxDone: bool, u: Ue, k: RegStep)
    ensures Drop(u, RegMove(c, ctxDone, u, k)) >= 1
  {
  }

  lemma PduDrops(c: Config, ctxDone: bool, u: Ue, k: PduStep)
    ensures Drop(u, PduMove(c, ctxDone, u, k)) >= 1
  {
  }

  lemma DeregDrops(c: Config, abort: bool, u: Ue, k: DeregStep)
    ensures Drop(u, DeregMove(c, abort, u, k)) >= 1
  {
  }

  lemma RoundEnters(ctxDone: bool, u: Ue, k: CpStep)
    requires k.CEnter? || k.CBegin? || k.CRegAnswer?
    ensures Drop(u, CpMove(ctxDone, u, k)) >= if k.CReturn? && !ctxDone then -16 else 1
  {
    hide Nothing;
  }

  lemma RoundRegisters(ctxDone: bool, u: Ue, k: CpStep)
    requires k.CRegFinish? || k.CRegLocked? || k.CHoldIn?
    ensures Drop(u, CpMove(ctxDone, u, k)) >= if k.CReturn? && !ctxDone then -16 else 1
  {
    hide Nothing;
  }

  lemma RoundLeaves(ctxDone: bool, u: Ue, k: CpStep)
    requires k.CHeld? || k.CLeft? || k.CDeregLocked? || k.CDeregBegin? || k.CDeregAnswer?
    ensures Drop(u, CpMove(ctxDone, u, k)) >= if k.CReturn? && !ctxDone then -16 else 1
  {
    hide Nothing;
  }

  lemma RoundCounts(ctxDone: bool, u: Ue, k: CpStep)
    requires k.CDetached? || k.CCounted? || k.CDeregFinish?
    ensures Drop(u, CpMove(ctxDone, u, k)) >= if k.CReturn? && !ctxDone then -16 else 1
  {
    hide Nothing;
  }

  lemma RoundEnds(ctxDone: bool, u: Ue, k: CpStep)
    requires k.CIdled? || k.CReturn?
    ensures Drop(u, CpMove(ctxDone, u, k)) >= if k.CReturn? && !ctxDone then -16 else 1
  {
    hide Nothing;
  }

  /** A control-plane UE that goes round again is the one exception. */
  lemma RoundDrops(ctxDone: bool, u: Ue, k: CpStep)
    ensures Drop(u, CpMove(ctxDone, u, k)) >= if k.CReturn? && !ctxDone then -16 else 1
  {
    hide CpMove, Drop;
    if k.CEnter? || k.CBegin? || k.CRegAnswer? {
      RoundEnters(ctxDone, u, k);
    } else if k.CRegFinish? || k.CRegLocked? || k.CHoldIn? {
      RoundRegisters(ctxDone, u, k);
    } else if k.CHeld? || k.CLeft? || k.CDeregLocked? || k.CDeregBegin? || k.CDeregAnswer? {
      RoundLeaves(ctxDone, u, k);
    } else if k.CDetached? || k.CCounted? || k.CDeregFinish? {
      RoundCounts(ctxDone, u, k);
    } else {
      RoundEnds(ctxDone, u, k);
    }
  }

  lemma TakenWeight(c: Config, s: Run, i: nat, m: Move)
    requires Inv(c, s) && i < |s.ues| && m.from in s.ues[i].held
    ensures var t := Take(s, i, m);
            |t.ues| == |s.ues| && t.gnbs == s.gnbs && t.co == s.co && t.disp == s.disp
            && UesWeight(c, t.ues) == UesWeight(c, s.ues) - Drop(s.ues[i], m)
  {
    hide Inv, UesWeight, PlaceWeight;
    InvAt(c, s, i, m.from);
    var u := s.ues[i];
    var v := m.ue.(held := Given(u.held, m.from, m.to), book := m.effect.Note(u.book));
    hide Effect.Note, StageCall.On;
    assert Take(s, i, m).ues == s.ues[i := v];
    UesChange(c, s.ues, i, v);
    GivenWeight(u.held, m.from, m.to);
  }

  lemma GivenWeight(held: multiset<Place>, x: Place, y: Spot)
    requires held == multiset{x}
    ensures SpotOf(held) == By(x) && SpotOf(Given(held, x, y)) == y
  {
    match y
    case Free => assert Given(held, x, y) == multiset{};
    case By(p) => assert Given(held, x, y) == multiset{p};
  }

  lemma TakenDrops(c: Config, s: Run, t: Run, i: nat, m: Move, d: int)
    requires Inv(c, s) && Taken(s, t, i, m) && Drop(s.ues[i], m) >= d
    ensures Weight(c, t) <= Weight(c, s) - d
  {
    hide Inv, Take, UesWeight, GnbsWeight, CoWeight, DispsWeight, Drop;
    TakenWeight(c, s, i, m);
  }

  // ------------------------------------------------------------- dispatchers

  lemma SetWeight(ues: int, d: Disps, p: Proc, e: Disp)
    ensures DispsWeight(ues, d.Set(p, e)) == DispsWeight(ues, d) - DispWeight(ues, d.Get(p)) + DispWeight(ues, e)
  {
    hide DispWeight;
  }

  lemma DispatchDrops(c: Config, s: Run, t: Run, p: Proc, k: DispStep, i: nat)
    requires Inv(c, s) && Dispatch(s, t, p, k, i)
    ensures Weight(c, t) <= Weight(c, s) - 1
  {
    hide Inv, Take, UesWeight, GnbsWeight, CoWeight, DispsWeight, NoneInFlight, ProcCtxDone;
    SetWeight(|s.ues|, s.disp, p, t.disp.Get(p));
    match k
    case Pop => TakenWeight(c, s, i, Move(Queued(p), By(InHand(p)), s.ues[i], Nothing));
    case Launch => TakenWeight(c, s, i, Move(InHand(p), By(Attempt(p, StartPc(p))), s.ues[i], Nothing));
    case PutBack => TakenWeight(c, s, i, Move(InHand(p), By(Queued(p)), s.ues[i], Nothing));
    case _ =>
  }

  // -------------------------------------------------------------------- gNBs

  /** A worker's move takes this off the weight. */
  function GDrop(r: Gnb, m: GMove): int {
    GSpotWeight(GBy(m.from)) - GSpotWeight(m.to) + 13 * (m.gnb.attempts - r.attempts) + 4 * (m.gnb.cover - r.cover)
    + WatchWeight(r.watch) - WatchWeight(m.gnb.watch)
  }

  lemma N2Drops(c: Config, ctxDone: bool, r: Gnb, k: N2Step)
    ensures GDrop(r, N2Move(c, ctxDone, r, k)) >= 1
  {
  }

  lemma CloseDrops(r: Gnb, k: CloseStep)
    ensures GDrop(r, CloseMove(r, k)) >= 1
  {
  }

  lemma GGivenWeight(held: multiset<GPlace>, x: GPlace, y: GSpot)
    requires held == multiset{x}
    ensures GSpotOf(held) == GBy(x) && GSpotOf(GGiven(held, x, y)) == y
  {
    match y
    case GFree => assert GGiven(held, x, y) == multiset{};
    case GBy(p) => assert GGiven(held, x, y) == multiset{p};
  }

  lemma GTakenWeight(c: Config, s: Run, g: nat, m: GMove)
    requires GnbsOk(c, s) && g < |s.gnbs| && m.from in s.gnbs[g].held
    ensures var t := GTake(s, g, m);
            t.ues == s.ues && |t.gnbs| == |s.gnbs| && t.co == s.co && t.disp == s.disp
            && GnbsWeight(c, |s.ues|, t.gnbs) == GnbsWeight(c, |s.ues|, s.gnbs) - GDrop(s.gnbs[g], m)
  {
    hide GnbsOk, GnbsWeight, GSpotWeight, WatchWeight, GSpotOk;
    InvGAt(c, s, g, m.from);
    var r := s.gnbs[g];
    var q := m.gnb.(held := GGiven(r.held, m.from, m.to), n2 := m.n2.On(r.n2), release := m.release.On(r.release));
    hide StageCall.On;
    assert GTake(s, g, m).gnbs == s.gnbs[g := q];
    GnbsChange(c, |s.ues|, s.gnbs, g, q);
    GGivenWeight(r.held, m.from, m.to);
  }

  lemma GTakenDrops(c: Config, s: Run, t: Run, g: nat, m: GMove)
    requires Inv(c, s) && GTaken(s, t, g, m) && GDrop(s.gnbs[g], m) >= 1
    ensures Weight(c, t) <= Weight(c, s) - 1
  {
    hide GnbsOk, UesOk, Balanced, Gates, GTake, UesWeight, GnbsWeight, CoWeight, DispsWeight, GDrop;
    GTakenWeight(c, s, g, m);
  }

  lemma WatcherDrops(c: Config, s: Run, t: Run, g: nat, k: WatchStep)
    requires g < |s.gnbs| && WatchReady(s.gnbs[g], k)
    requires t == ChangeGnb(s, g, Watched(s.ctxDone, s.gnbs[g], k), NoCall, NoCall)
    ensures Weight(c, t) <= Weight(c, s) - 1
  {
    hide UesWeight, GnbsWeight, CoWeight, DispsWeight, GSpotOf, GSpotWeight;
    var q := Watched(s.ctxDone, s.gnbs[g], k);
    assert t.gnbs == s.gnbs[g := q];
    GnbsChange(c, |s.ues|, s.gnbs, g, q);
  }

  // --------------------------------------------- pushes onto the stages' queues

  lemma SameWeight(c: Config, u: Ue, v: Ue)
    requires v.held == u.held && Tries(v) == Tries(u)
    ensures UeWeight(c, v) == UeWeight(c, u)
  {
  }

  /** A UE that is pushed weighs no more than a queued one: it was free. */
  lemma PushedWeight(c: Config, s: Run, t: Run, i: nat, p: Proc)
    requires Inv(c, s) && Inv(c, t) && i < |s.ues| && t.ues == Pushed(s, i, p).ues
    ensures UesWeight(c, t.ues) <= UesWeight(c, s.ues) + PlaceWeight(Queued(p))
  {
    hide Inv, UesWeight, SpotOk;
    InvUe(c, s, i);
    InvUe(c, t, i);
    var u, v := s.ues[i], t.ues[i];
    assert Queued(p) in v.held;
    Sole(v.held, Queued(p));
    assert u.held == multiset{} by {
      assert v.held - multiset{Queued(p)} == u.held;
    }
    UesChange(c, s.ues, i, v);
  }

  lemma CoverWeight(c: Config, s: Run, t: Run, g: nat)
    requires g < |s.gnbs| && |t.ues| == |s.ues| && t.gnbs == Covered(s, g).gnbs
    ensures GnbsWeight(c, |t.ues|, t.gnbs) == GnbsWeight(c, |s.ues|, s.gnbs) - 4
  {
    hide GnbsWeight, GSpotOf, GSpotWeight;
    GnbsChange(c, |s.ues|, s.gnbs, g, t.gnbs[g]);
  }

  lemma EnqueueRegDrops(c: Config, s: Run, t: Run, g: nat, i: nat)
    requires Inv(c, s) && Inv(c, t) && g < |s.gnbs| && i < |s.ues|
    requires t == Covered(if s.ues[i].gnb == g && !s.ues[i].cp then Pushed(s, i, Reg) else s, g)
    ensures Weight(c, t) <= Weight(c, s) - 1
  {
    hide Inv, UesWeight, GnbsWeight, CoWeight, DispsWeight;
    if s.ues[i].gnb == g && !s.ues[i].cp {
      PushedWeight(c, s, t, i, Reg);
    }
    CoverWeight(c, s, t, g);
  }

  lemma SkipUesDrops(c: Config, s: Run, t: Run, g: nat, i: nat)
    requires g < |s.gnbs| && i < |s.ues|
    requires t == Covered(if s.ues[i].gnb == g then Change(s, i, SkippedUe(s.ues[i]), SkipEffect(s.ues[i])) else s, g)
    ensures Weight(c, t) <= Weight(c, s) - 1
  {
    hide UesWeight, GnbsWeight, CoWeight, DispsWeight, UeWeight, Change, SkipEffect;
    if s.ues[i].gnb == g {
      ChangedWeight(c, s, i, SkippedUe(s.ues[i]), SkipEffect(s.ues[i]));
    }
    CoverWeight(c, s, t, g);
  }

  /** A change that leaves a UE where it is. */
  lemma ChangedWeight(c: Config, s: Run, i: nat, v: Ue, e: Effect)
    requires i < |s.ues| && v.held == s.ues[i].held && Tries(v) == Tries(s.ues[i])
    ensures var t := Change(s, i, v, e);
            |t.ues| == |s.ues| && t.gnbs == s.gnbs && t.co == s.co && t.disp == s.disp
            && UesWeight(c, t.ues) == UesWeight(c, s.ues)
  {
    hide UesWeight, UeWeight, Effect.Note, StageCall.On;
    var w := v.(book := e.Note(s.ues[i].book));
    assert Change(s, i, v, e).ues == s.ues[i := w];
    SameWeight(c, s.ues[i], w);
    UesChange(c, s.ues, i, w);
  }

  lemma RunN2Drops(c: Config, s: Run, t: Run, g: nat, k: N2Round)
    requires Inv(c, s) && Inv(c, t) && g < |s.gnbs| && RunN2(s, t, g, k)
    ensures Weight(c, t) <= Weight(c, s) - 1
  {
    hide Inv, UesWeight, GnbsWeight, CoWeight, DispsWeight, Covered, Pushed, Change, GTake;
    InvGnbsOk(c, s);
    match k
    case NEnqueue(i) => EnqueueRegDrops(c, s, t, g, i);
    case NSkip(i) => SkipUesDrops(c, s, t, g, i);
    case NPop => GTakenWeight(c, s, g, GMove(GQueued, GBy(GHand), s.gnbs[g], NoCall, NoCall));
    case NLaunch => GTakenWeight(c, s, g, GMove(GHand, GBy(GAtt(GStart)), s.gnbs[g], NoCall, NoCall));
    case NEnqueueEnd => GTakenWeight(c, s, g, GMove(GAtt(GEnq), GBy(GAtt(GDone)), s.gnbs[g], NoCall, NoCall));
    case NSkipEnd => GTakenWeight(c, s, g, GMove(GAtt(GSkip), GBy(GAtt(GDone)), s.gnbs[g], NoCall, NoCall));
    case NFinished => GTakenWeight(c, s, g, GMove(GAtt(GDone), GFree, s.gnbs[g].(fin := true), NoCall, NoCall));
  }

  lemma InvGnbsOk(c: Config, s: Run)
    requires Inv(c, s)
    ensures GnbsOk(c, s) && Gates(s)
  {
    hide GnbsOk, UesOk, Balanced, Gates;
  }

  lemma CpLoopDrops(c: Config, s: Run, t: Run, k: CpLoopStep)
    requires Inv(c, s) && Inv(c, t) && CpLoop(s, t, k)
    ensures Weight(c, t) <= Weight(c, s) - 1
  {
    hide Inv, UesWeight, GnbsWeight, CoWeight;
    if k.CpEnqueue? && s.ues[k.i].cp && k.alive && s.gnbs[s.ues[k.i].gnb].assoc {
      PushedWeight(c, s, t, k.i, Cp);
    }
  }

  // ----------------------------------------------------------------- execute

  /** The weight of the dispatchers a turn starts. */
  function Starts(ues: int, k: Turn): int {
    match k case LaunchPipelines => 8 case N2Joined => 6 + 31 * ues case EnqueueEnd => 4 case _ => 0
  }

  lemma TurnCo(s: Run, k: Turn)
    requires Gates(s) && Ready(s, k)
    ensures CoWeight(|s.ues|, |s.gnbs|, NextCo(k)) <= CoWeight(|s.ues|, |s.gnbs|, s.co) - Starts(|s.ues|, k) - 1
  {
  }

  lemma TurnDisps(s: Run, k: Turn)
    requires Gates(s) && Ready(s, k)
    ensures DispsWeight(|s.ues|, NextDisp(s.disp, k)) == DispsWeight(|s.ues|, s.disp) + Starts(|s.ues|, k)
  {
  }

  lemma TurnDrops(c: Config, s: Run, t: Run, k: Turn)
    requires Gates(s) && Ready(s, k) && t == s.(co := NextCo(k), disp := NextDisp(s.disp, k))
    ensures Weight(c, t) <= Weight(c, s) - 1
  {
    hide UesWeight, GnbsWeight, CoWeight, DispsWeight, Gates, Ready, NextCo, NextDisp, Starts;
    TurnCo(s, k);
    TurnDisps(s, k);
  }

  lemma N2ReturnDrops(c: Config, s: Run, t: Run)
    requires Inv(c, s) && N2Returns(s, t)
    ensures Weight(c, t) <= Weight(c, s) - 1
  {
    hide Inv, UesWeight, GnbsWeight, DispsWeight;
    InvGnbsOk(c, s);
    if 0 <= s.n2Hand < |s.gnbs| {
      hide GnbsOk, Gates, GSpotOk;
      var g := s.n2Hand;
      var r := s.gnbs[g];
      HandHeld(s);
      InvGAt(c, s, g, GHand);
      var q := r.(held := r.held - multiset{GHand});
      GnbsChange(c, |s.ues|, s.gnbs, g, q);
      GGivenWeight(r.held, GHand, GFree);
    }
  }

  lemma HandHeld(s: Run)
    requires Gates(s) && 0 <= s.n2Hand < |s.gnbs|
    ensures GHand in s.gnbs[s.n2Hand].held
  {
  }

  lemma SkipGnbDrops(c: Config, s: Run, t: Run, g: nat)
    requires SkipsGnb(s, t, g)
    ensures Weight(c, t) <= Weight(c, s) - 1
  {
    hide UesWeight, GnbsWeight, DispsWeight, GSpotOf, GSpotWeight, StageCall.On;
    GnbsChange(c, |s.ues|, s.gnbs, g, t.gnbs[g]);
  }

  lemma CloseOneDrops(c: Config, s: Run, t: Run, g: nat)
    requires Inv(c, t) && Closes(s, t, g)
    ensures Weight(c, t) <= Weight(c, s) - 1
  {
    hide Inv, UesWeight, GnbsWeight, DispsWeight, GSpotOf, GSpotWeight, StageCall.On;
    GnbsChange(c, |s.ues|, s.gnbs, g, t.gnbs[g]);
    if s.gnbs[g].conn {
      InvGnbsOk(c, t);
      ClosedWeight(c, t, g, s.gnbs[g]);
    }
  }

  lemma ClosedWeight(c: Config, t: Run, g: nat, r: Gnb)
    requires GnbsOk(c, t) && g < |t.gnbs| && t.gnbs[g].held == r.held + multiset{GAtt(RBegin)}
    ensures GSpotWeight(GSpotOf(t.gnbs[g].held)) == 3 && GSpotWeight(GSpotOf(r.held)) == 0
  {
    hide GnbsOk, GSpotOk;
    InvGAt(c, t, g, GAtt(RBegin));
    assert r.held == t.gnbs[g].held - multiset{GAtt(RBegin)};
    assert r.held == multiset{};
  }

  lemma UeLoopDrops(c: Config, s: Run, t: Run, k: CoStep)
    requires Inv(c, s) && Inv(c, t) && Execute(s, t, k) && (k.SkipUe? || k.Plan? || k.PlanEnd? || k.Enqueue?)
    ensures Weight(c, t) <= Weight(c, s) - 1
  {
    hide Inv, UesWeight, GnbsWeight, DispsWeight, Change, Pushed, UeWeight;
    match k
    case SkipUe(i) => ChangedWeight(c, s, i, SettledUe(s.ues[i]), SettleEffect(s.ues[i]));
    case Plan(i, _) =>
      ChangedWeight(c, s, i, s.ues[i], Nothing.(dereg := DoSkip));
      var v := s.ues[i].(todo := true);
      SameWeight(c, s.ues[i], v);
      UesChange(c, s.ues, i, v);
    case Enqueue(i) =>
      PushedSame(s, i);
      if s.ues[i].todo {
        PushedWeight(c, s, t, i, Dereg);
      }
    case _ =>
  }

  lemma PushedSame(s: Run, i: nat)
    requires i < |s.ues|
    ensures var t := Pushed(s, i, Dereg); |t.ues| == |s.ues| && t.gnbs == s.gnbs && t.disp == s.disp
  {
  }

  lemma ExecuteDrops(c: Config, s: Run, t: Run, k: CoStep)
    requires Inv(c, s) && Inv(c, t) && Execute(s, t, k)
    ensures Weight(c, t) <= Weight(c, s) - 1
  {
    hide Inv, Weight, N2Returns, SkipsGnb, Closes, Settles, Plans, PlansEnd, Enqueues, Ready, NextCo, NextDisp, Taken;
    match k
    case GoOn(turn) =>
      InvGnbsOk(c, s);
      TurnDrops(c, s, t, turn);
    case N2Return => N2ReturnDrops(c, s, t);
    case DrainOne(p, i) => TakenDrops(c, s, t, i, Move(Queued(p), Free, s.ues[i], Nothing), 1);
    case SkipGnb(g) => SkipGnbDrops(c, s, t, g);
    case CloseOne(g) => CloseOneDrops(c, s, t, g);
    case _ => UeLoopDrops(c, s, t, k);
  }

  // ---------------------------------------------------------------- every step

  /** A control-plane UE goes round again. */
  predicate GoesRound(s: Run, a: Action) { a.CpAttempt? && a.cp == CReturn && !s.ctxDone }

  lemma StepDrops(c: Config, s: Run, a: Action, t: Run)
    requires Inv(c, s) && Inv(c, t) && Step(c, s, a, t)
    ensures !Own(a) ==> Weight(c, t) == Weight(c, s)
    ensures Own(a) ==> Weight(c, t) <= Weight(c, s) - (if GoesRound(s, a) then -16 else 1)
  {
    hide Inv, Weight, Execute, Dispatch, RegMove, PduMove, DeregMove, CpMove, CpLoop, N2Move, RunN2, WatchReady,
         ChangeGnb, CloseMove, Taken, GTaken, Drop, GDrop, Watched;
    match a
    case Coordinator(k) => ExecuteDrops(c, s, t, k);
    case Dispatcher(p, k, i) => DispatchDrops(c, s, t, p, k, i);
    case RegAttempt(i, k) =>
      RegDrops(c, s.ctxDone, s.ues[i], k);
      TakenDrops(c, s, t, i, RegMove(c, s.ctxDone, s.ues[i], k), 1);
    case PduAttempt(i, k) =>
      PduDrops(c, s.ctxDone, s.ues[i], k);
      TakenDrops(c, s, t, i, PduMove(c, s.ctxDone, s.ues[i], k), 1);
    case DeregAttempt(i, k) =>
      DeregDrops(c, s.abort, s.ues[i], k);
      TakenDrops(c, s, t, i, DeregMove(c, s.abort, s.ues[i], k), 1);
    case CpAttempt(i, k) =>
      RoundDrops(s.ctxDone, s.ues[i], k);
      TakenDrops(c, s, t, i, CpMove(s.ctxDone, s.ues[i], k), if k.CReturn? && !s.ctxDone then -16 else 1);
    case CpLoopBody(k) => CpLoopDrops(c, s, t, k);
    case N2Attempt(g, k) =>
      N2Drops(c, s.ctxDone, s.gnbs[g], k);
      GTakenDrops(c, s, t, g, N2Move(c, s.ctxDone, s.gnbs[g], k));
    case N2Dispatcher(g, k) => RunN2Drops(c, s, t, g, k);
    case Watcher(g, k) => WatcherDrops(c, s, t, g, k);
    case Closer(g, k) =>
      CloseDrops(s.gnbs[g], k);
      GTakenDrops(c, s, t, g, CloseMove(s.gnbs[g], k));
    case _ => StopWeighsNothing(c, s, a, t);
  }

  lemma StopWeighsNothing(c: Config, s: Run, a: Action, t: Run)
    requires Step(c, s, a, t) && !Own(a)
    ensures Weight(c, t) == Weight(c, s)
  {
    hide UesWeight, GnbsWeight, DispsWeight, CoWeight;
  }

  /** The run's own steps from state m to state n. */
  function Steps(actions: seq<Action>, m: nat, n: nat): nat
    requires m <= n <= |actions|
  {
    if m == n then 0 else Steps(actions, m, n - 1) + B(Own(actions[n - 1]))
  }

  /** How often a control-plane UE went round again in them. */
  function Rounds(states: seq<Run>, actions: seq<Action>, m: nat, n: nat): nat
    requires m <= n <= |actions| <= |states|
  {
    if m == n then 0 else Rounds(states, actions, m, n - 1) + B(GoesRound(states[n - 1], actions[n - 1]))
  }

  lemma {:induction false} WorkIsBounded(c: Config, states: seq<Run>, actions: seq<Action>, gnbs: nat,
          plan: seq<(nat, bool)>, m: nat, n: nat)
    requires IsRun(c, states, actions) && Init(c, states[0], gnbs, plan) && c.throughput == Throughputs(plan)
    requires m <= n < |states|
    ensures Weight(c, states[n]) + Steps(actions, m, n) <= Weight(c, states[m]) + 17 * Rounds(states, actions, m, n)
    ensures Weight(c, states[n]) >= 0
  {
    hide Inv, Step, Init, Throughputs, Weight, GoesRound, Own;
    Reachable(c, states, actions, gnbs, plan, n);
    NotNegative(c, states[n]);
    if m < n {
      WorkIsBounded(c, states, actions, gnbs, plan, m, n - 1);
      Reachable(c, states, actions, gnbs, plan, n - 1);
      StepDrops(c, states[n - 1], actions[n - 1], states[n]);
    }
  }

  lemma {:induction false} NoRoundsAfterStop(c: Config, states: seq<Run>, actions: seq<Action>, m: nat, n: nat)
    requires IsRun(c, states, actions) && m <= n < |states| && states[m].ctxDone
    ensures states[n].ctxDone && Rounds(states, actions, m, n) == 0
  {
    hide Step;
    if m < n {
      NoRoundsAfterStop(c, states, actions, m, n - 1);
      StepStaysOn(c, states[n - 1], actions[n - 1], states[n]);
    }
  }

  /**
   * A stopped run ends: its goroutines have only so many steps left, however they interleave and whatever the
   * network answers, and until the run has ended one of them can take a step.
   */
  lemma StopEnds(c: Config, states: seq<Run>, actions: seq<Action>, gnbs: nat, plan: seq<(nat, bool)>, m: nat, n: nat)
    requires IsRun(c, states, actions) && Init(c, states[0], gnbs, plan) && c.throughput == Throughputs(plan)
    requires m <= n < |states| && states[m].ctxDone
    ensures Steps(actions, m, n) <= Weight(c, states[m])
    ensures Ended(states[n]) || CanGoOn(c, states[n])
  {
    hide Inv, Step, Init, Throughputs, Weight, CanGoOn, Ended;
    NoRoundsAfterStop(c, states, actions, m, n);
    WorkIsBounded(c, states, actions, gnbs, plan, m, n);
    if !Ended(states[n]) {
      NeverStuck(c, states, actions, gnbs, plan, n);
    }
  }

  lemma OneStepMore(c: Config, states: seq<Run>, actions: seq<Action>, a: Action, t: Run)
    requires IsRun(c, states, actions) && Step(c, states[|states| - 1], a, t)
    ensures IsRun(c, states + [t], actions + [a])
  {
    hide Step;
  }

  /** And every stopped run can be brought to its end, from whatever state the stop found it in. */
  lemma {:induction false} CanEnd(c: Config, states: seq<Run>, actions: seq<Action>, gnbs: nat, plan: seq<(nat, bool)>)
    returns (allStates: seq<Run>, allActions: seq<Action>)
    requires IsRun(c, states, actions) && Init(c, states[0], gnbs, plan) && c.throughput == Throughputs(plan)
    requires states[|states| - 1].ctxDone
    ensures IsRun(c, allStates, allActions) && states <= allStates && actions <= allActions
    ensures Ended(allStates[|allStates| - 1])
    ensures forall k :: |actions| <= k < |allActions| ==> Unaided(allActions[k])
    decreases Weight(c, states[|states| - 1])
  {
    hide Inv, Step, Init, Throughputs, Weight, Ended, Own;
    var n := |states| - 1;
    var s := states[n];
    if Ended(s) {
      return states, actions;
    }
    NotWaiting(s);
    NeverStuck(c, states, actions, gnbs, plan, n);
    var a, t :| Unaided(a) && Step(c, s, a, t);
    OneStepMore(c, states, actions, a, t);
    Reachable(c, states, actions, gnbs, plan, n);
    Reachable(c, states + [t], actions + [a], gnbs, plan, n + 1);
    StepDrops(c, s, a, t);
    StepStaysOn(c, s, a, t);
    NotNegative(c, t);
    allStates, allActions := CanEnd(c, states + [t], actions + [a], gnbs, plan);
    assert allActions[n] == a;
  }

  lemma NotWaiting(s: Run)
    requires s.ctxDone
    ensures !AwaitsStop(s) && forall a :: !GoesRound(s, a)
  {
  }

  lemma {:induction false} FreshUes(c: Config, us: seq<Ue>)
    requires forall i :: 0 <= i < |us| ==> us[i].held == multiset{} && Tries(us[i]) == 0
    ensures UesWeight(c, us) == |us| * (10 * MaxTries(c))
  {
    hide Tries, MaxTries;
    if us != [] {
      FreshUes(c, us[..|us| - 1]);
    }
  }

  lemma {:induction false} FreshGnbs(c: Config, ues: int, rs: seq<Gnb>)
    requires forall g :: 0 <= g < |rs| ==> rs[g] == NewGnb()
    ensures GnbsWeight(c, ues, rs) == |rs| * (13 * (c.n2Retries + 1) + 3 + 4 * ues)
  {
    if rs != [] {
      FreshGnbs(c, ues, rs[..|rs| - 1]);
      assert GSpotOf(multiset{GQueued}) == GBy(GQueued);
    }
  }

  function InitialWeight(c: Config, ues: nat, gnbs: nat): int {
    33 + 37 * ues + 6 * gnbs + ues * (10 * MaxTries(c)) + gnbs * (13 * (c.n2Retries + 1) + 3 + 4 * ues)
  }

  lemma WeightAtFirst(c: Config, s: Run, gnbs: nat, plan: seq<(nat, bool)>)
    requires Init(c, s, gnbs, plan)
    ensures Weight(c, s) == InitialWeight(c, |plan|, gnbs)
  {
    hide UesWeight, GnbsWeight, Zero, MaxTries;
    FreshUes(c, s.ues);
    FreshGnbs(c, |plan|, s.gnbs);
  }

  /** A whole run, in numbers: what retries, UEs and gNBs allow, and 17 steps for each round of a control-plane UE. */
  lemma RunIsBounded(c: Config, states: seq<Run>, actions: seq<Action>, gnbs: nat, plan: seq<(nat, bool)>, n: nat)
    requires IsRun(c, states, actions) && Init(c, states[0], gnbs, plan) && c.throughput == Throughputs(plan)
    requires n < |states|
    ensures Steps(actions, 0, n) <= InitialWeight(c, |plan|, gnbs) + 17 * Rounds(states, actions, 0, n)
  {
    hide Init, Weight, InitialWeight, Step, Throughputs;
    WorkIsBounded(c, states, actions, gnbs, plan, 0, n);
    WeightAtFirst(c, states[0], gnbs, plan);
  }
}
