/**
 * A run never gets stuck: until it has ended, some goroutine can go on, unless
 * the run is up and nobody has stopped it.
 */
module RunProgress {
  import opened MetricsStage
  import opened UeSummaries
  import opened RunModel
  import opened RunInvariant
  import opened RunPreserve
  import opened RunGnbs
  import opened RunTheorems

  // ------------------------------------------- a dispatcher has what it holds

  /** A dispatcher that has popped an index has it in its hand. */
  ghost predicate Handed(s: Run) {
    forall p :: s.disp.Get(p).Holding? ==>
      s.disp.Get(p).i < |s.ues| && InHand(p) in s.ues[s.disp.Get(p).i].held
  }

  ghost predicate HandsKept(s: Run, t: Run) {
    && |t.ues| == |s.ues|
    && (forall j, p :: 0 <= j < |s.ues| && InHand(p) in s.ues[j].held ==> InHand(p) in t.ues[j].held)
    && (forall p :: t.disp.Get(p).Holding? ==> t.disp.Get(p) == s.disp.Get(p))
  }

  lemma KeptHanded(s: Run, t: Run)
    requires Handed(s) && HandsKept(s, t)
    ensures Handed(t)
  {
  }

  /** What changing UE i does to the hands. */
  lemma ChangeHolds(s: Run, i: nat, v: Ue, e: Effect)
    requires i < |s.ues|
    ensures var t := Change(s, i, v, e);
            t.disp == s.disp && |t.ues| == |s.ues| && t.ues[i].held == v.held
            && forall j :: 0 <= j < |s.ues| && j != i ==> t.ues[j] == s.ues[j]
  {
    hide Effect.Note, StageCall.On;
  }

  lemma TakenHands(s: Run, t: Run, i: nat, m: Move)
    requires Taken(s, t, i, m) && !m.from.InHand?
    ensures HandsKept(s, t)
  {
    hide Change;
    ChangeHolds(s, i, m.ue.(held := Given(s.ues[i].held, m.from, m.to)), m.effect);
  }

  lemma PassedOn(s: Run, t: Run, i: nat, p: Proc, d: Disp, x: Place, y: Place)
    requires Handed(s) && i < |s.ues| && (x == InHand(p) || !x.InHand?) && (d == Holding(i) ==> y == InHand(p))
    requires d.Holding? ==> d == Holding(i)
    requires t == Take(s, i, Move(x, By(y), s.ues[i], Nothing)).(disp := s.disp.Set(p, d))
    ensures Handed(t)
  {
    hide Change;
    ChangeHolds(s, i, s.ues[i].(held := Given(s.ues[i].held, x, By(y))), Nothing);
    forall q | t.disp.Get(q).Holding?
      ensures t.disp.Get(q).i < |t.ues| && InHand(q) in t.ues[t.disp.Get(q).i].held
    {
      if q != p {
        assert t.disp.Get(q) == s.disp.Get(q);
      }
    }
  }

  lemma DispatchHands(s: Run, t: Run, p: Proc, k: DispStep, i: nat)
    requires Handed(s) && Dispatch(s, t, p, k, i)
    ensures Handed(t)
  {
    hide Take, NoneInFlight, ProcCtxDone, Handed;
    match k
    case Pop => PassedOn(s, t, i, p, Holding(i), Queued(p), InHand(p));
    case Launch => PassedOn(s, t, i, p, Popping, InHand(p), Attempt(p, StartPc(p)));
    case PutBack => PassedOn(s, t, i, p, Waiting, InHand(p), Queued(p));
    case _ => LetGo(s, t, p);
  }

  lemma LetGo(s: Run, t: Run, p: Proc)
    requires Handed(s) && t.ues == s.ues && !t.disp.Get(p).Holding? && t.disp == s.disp.Set(p, t.disp.Get(p))
    ensures Handed(t)
  {
    assert HandsKept(s, t);
  }

  /** The steps of execute that change at most one UE. */
  lemma OneUeHands(s: Run, t: Run, k: CoStep)
    requires Handed(s) && Execute(s, t, k) && (k.DrainOne? || k.SkipUe? || k.Plan?)
    ensures Handed(t)
  {
    hide SettleEffect, Change, Handed;
    match k {
    case DrainOne(p, i) => TakenHands(s, t, i, Move(Queued(p), Free, s.ues[i], Nothing));
    case SkipUe(i) => ChangeHolds(s, i, SettledUe(s.ues[i]), SettleEffect(s.ues[i]));
    case Plan(i, alive) => ChangeHolds(s, i, s.ues[i], Nothing.(dereg := DoSkip));
    case _ =>
    }
    assert HandsKept(s, t);
    KeptHanded(s, t);
  }

  lemma ExecuteHands(s: Run, t: Run, k: CoStep)
    requires Handed(s) && Execute(s, t, k)
    ensures Handed(t)
  {
    hide Ready, NextCo, Handed, ChangeGnb, Settles, Plans;
    if k.DrainOne? || k.SkipUe? || k.Plan? {
      OneUeHands(s, t, k);
    } else {
      GnbOnly(s, t, k);
      KeptHanded(s, t);
    }
  }

  lemma GnbOnly(s: Run, t: Run, k: CoStep)
    requires Execute(s, t, k) && !k.DrainOne? && !k.SkipUe? && !k.Plan?
    ensures HandsKept(s, t)
  {
    hide Ready, NextCo, StageCall.On;
  }

  lemma RunN2Hands(s: Run, t: Run, g: nat, k: N2Round)
    requires g < |s.gnbs| && RunN2(s, t, g, k)
    ensures HandsKept(s, t)
  {
    hide SkipEffect, Effect.Note, StageCall.On;
  }

  lemma GTakenHands(s: Run, t: Run, g: nat, m: GMove)
    requires GTaken(s, t, g, m)
    ensures HandsKept(s, t)
  {
    hide StageCall.On;
  }

  lemma CpLoopHands(s: Run, t: Run, k: CpLoopStep)
    requires CpLoop(s, t, k)
    ensures HandsKept(s, t)
  {
    hide Effect.Note, StageCall.On;
  }

  lemma StepHands(c: Config, s: Run, a: Action, t: Run)
    requires Handed(s) && Step(c, s, a, t)
    ensures Handed(t)
  {
    hide Dispatch, Execute, RunN2, CpLoop, Taken, GTaken, Watched, WatchReady, StageCall.On, Handed;
    match a
    case Coordinator(k) => ExecuteHands(s, t, k);
    case Dispatcher(p, k, i) => DispatchHands(s, t, p, k, i);
    case RegAttempt(i, k) => TakenHands(s, t, i, RegMove(c, s.ctxDone, s.ues[i], k)); KeptHanded(s, t);
    case PduAttempt(i, k) => TakenHands(s, t, i, PduMove(c, s.ctxDone, s.ues[i], k)); KeptHanded(s, t);
    case DeregAttempt(i, k) => TakenHands(s, t, i, DeregMove(c, s.abort, s.ues[i], k)); KeptHanded(s, t);
    case CpAttempt(i, k) => TakenHands(s, t, i, CpMove(s.ctxDone, s.ues[i], k)); KeptHanded(s, t);
    case CpLoopBody(k) => CpLoopHands(s, t, k); KeptHanded(s, t);
    case N2Attempt(g, k) => GTakenHands(s, t, g, N2Move(c, s.ctxDone, s.gnbs[g], k)); KeptHanded(s, t);
    case N2Dispatcher(g, k) => RunN2Hands(s, t, g, k); KeptHanded(s, t);
    case Closer(g, k) => GTakenHands(s, t, g, CloseMove(s.gnbs[g], k)); KeptHanded(s, t);
    case _ => KeptHanded(s, t);
  }

  lemma {:induction false} RunHands(c: Config, states: seq<Run>, actions: seq<Action>, gnbs: nat,
          plan: seq<(nat, bool)>, n: nat)
    requires IsRun(c, states, actions) && Init(c, states[0], gnbs, plan) && n < |states|
    ensures Handed(states[n])
  {
    hide Step, Handed;
    if n == 0 {
      NothingHanded(states[0]);
    } else {
      RunHands(c, states, actions, gnbs, plan, n - 1);
      StepHands(c, states[n - 1], actions[n - 1], states[n]);
    }
  }

  lemma NothingHanded(s: Run)
    requires s.disp == Disps(Off, Off, Off, Off)
    ensures Handed(s)
  {
  }

  // -------------------------------------------------------- who can go on

  /** Stop and a second Stop are not the run's own steps. */
  predicate Own(a: Action) { !a.RequestStop? && !a.AbortCleanup? }

  /** A watcher waits for an association to be lost; all others go on by themselves. */
  predicate Unaided(a: Action) { Own(a) && !a.Watcher? }

  ghost predicate CanGoOn(c: Config, s: Run) { exists a, t :: Unaided(a) && Step(c, s, a, t) }

  function RegNext(pc: Pc): RegStep {
    match pc
    case Start => RLock case Begin => RCall case Wait => RAnswer(false)
    case Acc => RFinish(Accepted) case Fin => RFinish(Failed)
    case AccLock => RLocked case AccPush => RPush
    case Retry => RGiveBack case RetryLock => RBackLocked case Requeue => RAgain
    case FinSkip => RSkipPdu case _ => RFailLocked
  }

  function PduNext(pc: Pc): PduStep {
    match pc
    case Start => PLock case Begin => PCall case Wait => PAnswer(false)
    case Acc => PFinish(Accepted) case Fin => PFinish(Failed) case AccLock => PLocked
    case Retry => PGiveBack case RetryLock => PBackLocked case Requeue => PAgain
    case _ => PFailLocked
  }

  function DeregNext(pc: Pc): DeregStep {
    match pc
    case Start => DLock case Begin => DCall case Wait => DAnswer(Failed, true)
    case Acc => DFinish(Accepted) case Fin => DFinish(Failed) case Abort => DFinishAborted
    case AccLock => DLocked case AbortLock => DAbortLocked case FinLock => DFailLocked
    case Retry => DGiveBack case Requeue => DAgain case _ => DLeft
  }

  function CpNext(pc: Pc): CpStep {
    match pc
    case CpStart => CEnter(false) case CpBegin => CBegin case CpRegWait => CRegAnswer(false)
    case CpRegOk => CRegFinish(Accepted) case CpRegFail => CRegFinish(Failed) case CpRegLock => CRegLocked
    case CpHoldIn => CHoldIn case CpHold => CHeld case CpLeave => CLeft
    case CpDeregLock => CDeregLocked case CpDeregBegin => CDeregBegin case CpDeregWait => CDeregAnswer(false)
    case CpDetach(ok) => CDetached(ok) case CpCount(ok) => CCounted(ok)
    case CpDeregFin(ok) => CDeregFinish(if ok then Accepted else Failed)
    case CpIdle(cycled) => CIdled(cycled) case _ => CReturn
  }

  lemma RegFrom(c: Config, a: Around, ctxDone: bool, i: nat, u: Ue, pc: Pc)
    requires RegHolds(c, a, i, u, pc)
    ensures RegMove(c, ctxDone, u, RegNext(pc)).from == Attempt(Reg, pc)
  {
    hide Booked, Unplanned, NoCpCalls;
  }

  lemma PduFrom(c: Config, a: Around, ctxDone: bool, i: nat, u: Ue, pc: Pc)
    requires PduHolds(c, a, i, u, pc)
    ensures PduMove(c, ctxDone, u, PduNext(pc)).from == Attempt(Pdu, pc)
  {
    hide Booked, Unplanned, NoCpCalls;
  }

  lemma DeregFrom(c: Config, a: Around, abort: bool, i: nat, u: Ue, pc: Pc)
    requires DeregHolds(c, a, i, u, pc)
    ensures DeregMove(c, abort, u, DeregNext(pc)).from == Attempt(Dereg, pc) && !DeregNext(pc).DDrain?
  {
    hide Booked, Settled, SettledState, CleaningUp, CleanupDone;
  }

  lemma CpFrom(ctxDone: bool, u: Ue, pc: Pc)
    requires CpHolds(u, pc)
    ensures CpMove(ctxDone, u, CpNext(pc)).from == Attempt(Cp, pc) && CpNext(pc) != CEnter(true)
  {
    hide CpBooked, Unplanned;
  }

  /** Whatever an attempt waits for comes: its next step is always possible. */
  lemma AttemptGoesOn(c: Config, s: Run, i: nat, p: Proc, pc: Pc)
    requires Inv(c, s) && i < |s.ues| && Attempt(p, pc) in s.ues[i].held
    ensures CanGoOn(c, s)
  {
    hide Inv, Take, Attempting, RegHolds, PduHolds, DeregHolds, CpHolds, RegMove, PduMove, DeregMove, CpMove;
    InvAt(c, s, i, Attempt(p, pc));
    var u, a := s.ues[i], AroundOf(s, i);
    match p
    case Reg =>
      RegFrom(c, a, s.ctxDone, i, u, pc);
      assert Step(c, s, RegAttempt(i, RegNext(pc)), Take(s, i, RegMove(c, s.ctxDone, u, RegNext(pc))));
    case Pdu =>
      PduFrom(c, a, s.ctxDone, i, u, pc);
      assert Step(c, s, PduAttempt(i, PduNext(pc)), Take(s, i, PduMove(c, s.ctxDone, u, PduNext(pc))));
    case Dereg =>
      DeregFrom(c, a, s.abort, i, u, pc);
      assert Step(c, s, DeregAttempt(i, DeregNext(pc)), Take(s, i, DeregMove(c, s.abort, u, DeregNext(pc))));
    case Cp =>
      CpFrom(s.ctxDone, u, pc);
      assert Step(c, s, CpAttempt(i, CpNext(pc)), Take(s, i, CpMove(s.ctxDone, u, CpNext(pc))));
  }

  function N2Next(pc: GPc): N2Step {
    match pc
    case GStart => NLock case GBegin => NCall case GWait => NAnswer(false)
    case GOk => NFinish(Accepted) case GFail => NFinish(Failed) case GUp => NUp case GFailState => NFailed
    case GConn => NConn case GRetry => NGiveBack case GRetryLock => NBackState case _ => NAgain
  }

  function CloseNext(pc: GPc): CloseStep { match pc case RBegin => KBegin case RClose => KClose(true) case _ => KState }

  lemma WorkerFrom(c: Config, a: GAround, ctxDone: bool, g: nat, r: Gnb, pc: GPc)
    requires GSpotOk(c, a, g, r, GBy(GAtt(pc)))
    ensures Closing(pc) ==> CloseMove(r, CloseNext(pc)).from == GAtt(pc)
    ensures !Closing(pc) && pc != GEnq && pc != GSkip && pc != GDone ==>
              N2Move(c, ctxDone, r, N2Next(pc)).from == GAtt(pc)
    ensures pc == GEnq || pc == GSkip ==> r.cover <= a.ues
  {
    hide Booked, Untouched, UpOrLost;
  }

  /** The same for a gNB's worker. */
  lemma WorkerGoesOn(c: Config, s: Run, g: nat, pc: GPc)
    requires GnbsOk(c, s) && g < |s.gnbs| && GAtt(pc) in s.gnbs[g].held
    ensures CanGoOn(c, s)
  {
    hide GnbsOk, GSpotOk, GTake, N2Move, CloseMove, CanGoOn;
    InvGAt(c, s, g, GAtt(pc));
    var r := s.gnbs[g];
    WorkerFrom(c, GAroundOf(s), s.ctxDone, g, r, pc);
    if pc == GEnq || pc == GSkip {
      CoverGoesOn(c, s, g, pc);
    } else {
      MoveGoesOn(c, s, g, pc);
    }
  }

  lemma MoveGoesOn(c: Config, s: Run, g: nat, pc: GPc)
    requires g < |s.gnbs| && GAtt(pc) in s.gnbs[g].held && pc != GEnq && pc != GSkip
    requires Closing(pc) ==> CloseMove(s.gnbs[g], CloseNext(pc)).from == GAtt(pc)
    requires !Closing(pc) && pc != GDone ==> N2Move(c, s.ctxDone, s.gnbs[g], N2Next(pc)).from == GAtt(pc)
    ensures CanGoOn(c, s)
  {
    hide GTake, N2Move, CloseMove, RunN2;
    var r := s.gnbs[g];
    if Closing(pc) {
      assert Step(c, s, Closer(g, CloseNext(pc)), GTake(s, g, CloseMove(r, CloseNext(pc))));
    } else if pc == GDone {
      var t := FinishGoesOn(s, g);
      assert Step(c, s, N2Dispatcher(g, NFinished), t);
    } else {
      assert Step(c, s, N2Attempt(g, N2Next(pc)), GTake(s, g, N2Move(c, s.ctxDone, r, N2Next(pc))));
    }
  }

  lemma FinishGoesOn(s: Run, g: nat) returns (t: Run)
    requires g < |s.gnbs| && GAtt(GDone) in s.gnbs[g].held
    ensures RunN2(s, t, g, NFinished)
  {
    hide GTake;
    t := GTake(s, g, GMove(GAtt(GDone), GFree, s.gnbs[g].(fin := true), NoCall, NoCall))
           .(n2Left := s.n2Left - 1, n2Closes := s.n2Closes + (if s.n2Left - 1 == 0 then 1 else 0));
  }

  lemma CoverGoesOn(c: Config, s: Run, g: nat, pc: GPc)
    requires g < |s.gnbs| && GAtt(pc) in s.gnbs[g].held && (pc == GEnq || pc == GSkip) && s.gnbs[g].cover <= |s.ues|
    ensures CanGoOn(c, s)
  {
    hide GTake, Covered, Pushed, Change;
    var r := s.gnbs[g];
    var i := r.cover;
    if i == |s.ues| {
      var k := if pc == GEnq then NEnqueueEnd else NSkipEnd;
      assert Step(c, s, N2Dispatcher(g, k), GTake(s, g, GMove(GAtt(pc), GBy(GAtt(GDone)), r, NoCall, NoCall)));
    } else if pc == GEnq {
      var t := if s.ues[i].gnb == g && !s.ues[i].cp then Pushed(s, i, Reg) else s;
      Unhanded(s, i, g);
      assert Step(c, s, N2Dispatcher(g, NEnqueue(i)), Covered(t, g));
    } else {
      var t := if s.ues[i].gnb == g then Change(s, i, SkippedUe(s.ues[i]), SkipEffect(s.ues[i])) else s;
      Unhanded(s, i, g);
      assert Step(c, s, N2Dispatcher(g, NSkip(i)), Covered(t, g));
    }
  }

  /** Changing a UE changes no gNB. */
  lemma Unhanded(s: Run, i: nat, g: nat)
    requires i < |s.ues| && g < |s.gnbs|
    ensures Pushed(s, i, Reg).gnbs == s.gnbs
    ensures Change(s, i, SkippedUe(s.ues[i]), SkipEffect(s.ues[i])).gnbs == s.gnbs
  {
    hide Effect.Note, StageCall.On;
  }

  /** A stage's dispatcher goes on when it holds a UE, when its attempts are over, and when its context is. */
  lemma DispatcherGoesOn(c: Config, s: Run, p: Proc)
    requires Inv(c, s) && Handed(s) && Active(s.disp.Get(p))
    requires s.disp.Get(p) == Popping ==> ProcCtxDone(s, p)
    ensures CanGoOn(c, s)
  {
    hide Inv, Take, ProcCtxDone;
    match s.disp.Get(p)
    case Holding(i) =>
      var t := Take(s, i, Move(InHand(p), By(Attempt(p, StartPc(p))), s.ues[i], Nothing));
      assert Step(c, s, Dispatcher(p, Launch, i), t.(disp := s.disp.Set(p, Popping)));
    case Popping =>
      assert Step(c, s, Dispatcher(p, PopStop, 0), s.(disp := s.disp.Set(p, Waiting)));
    case Waiting =>
      if j, pc :| 0 <= j < |s.ues| && Attempt(p, pc) in s.ues[j].held {
        AttemptGoesOn(c, s, j, p, pc);
      } else {
        assert Step(c, s, Dispatcher(p, Return, 0), s.(disp := s.disp.Set(p, Done)));
      }
    case _ =>
  }

  /** runCpLoop before it dispatches. */
  lemma CpLoopGoesOn(c: Config, s: Run)
    requires s.ctxDone && (s.disp.cp == WaitTp || (s.disp.cp.Enq? && s.disp.cp.k <= |s.ues|))
    requires forall j :: 0 <= j < |s.ues| ==> s.ues[j].gnb < |s.gnbs|
    ensures CanGoOn(c, s)
  {
    if s.disp.cp == WaitTp {
      assert Step(c, s, CpLoopBody(CpStopEarly), s.(disp := s.disp.(cp := Done)));
    } else if s.disp.cp.k == |s.ues| {
      assert Step(c, s, CpLoopBody(CpDispatch), s.(disp := s.disp.(cp := Popping)));
    } else {
      var i := s.disp.cp.k;
      assert Step(c, s, CpLoopBody(CpEnqueue(i, false)), s.(disp := s.disp.(cp := Enq(i + 1))));
    }
  }

  lemma Turns(c: Config, s: Run, k: Turn)
    requires Ready(s, k)
    ensures CanGoOn(c, s)
  {
    hide Ready, NextCo, NextDisp;
    assert Step(c, s, Coordinator(GoOn(k)), s.(co := NextCo(k), disp := NextDisp(s.disp, k)));
  }

  /** Stop takes the three pipelines down. */
  lemma StoppingGoesOn(c: Config, s: Run)
    requires Inv(c, s) && Handed(s) && s.co == CoStopping
    ensures CanGoOn(c, s)
  {
    hide UesOk, GnbsOk, Balanced, CanGoOn, Handed;
    if Active(s.disp.reg) {
      DispatcherGoesOn(c, s, Reg);
    } else if Active(s.disp.pdu) {
      DispatcherGoesOn(c, s, Pdu);
    } else if Active(s.disp.cp) {
      DispatcherGoesOn(c, s, Cp);
    } else if Joined(s.disp.cp) {
      Turns(c, s, PipelinesJoined);
    } else {
      GnbOfEach(c, s);
      CpLoopGoesOn(c, s);
    }
  }

  lemma GnbOfEach(c: Config, s: Run)
    requires UesOk(c, s)
    ensures forall j :: 0 <= j < |s.ues| ==> s.ues[j].gnb < |s.gnbs|
  {
    hide UeOk;
  }

  // ------------------------------------------------------------- bringing up

  /** A round in which nobody has a gNB is over. */
  lemma {:induction false} AllFinished(rs: seq<Gnb>)
    requires forall g :: 0 <= g < |rs| ==> rs[g].fin
    ensures GTotal(rs).left == 0
  {
    hide Counters.Plus;
    if rs != [] {
      AllFinished(rs[..|rs| - 1]);
    }
  }

  lemma InSomeHand(c: Config, a: GAround, g: nat, r: Gnb, x: GPlace)
    requires GnbOk(c, a, g, r) && x in r.held
    ensures x == GQueued || x.GAtt? || a.hand == g
  {
    hide N2Holds, Untouched, Booked;
    Sole(r.held, x);
    assert GSpotOf(r.held) == GBy(x);
  }

  lemma RestsFinished(c: Config, a: GAround, g: nat, r: Gnb)
    requires GnbOk(c, a, g, r) && a.co == CoN2 && a.hand == -1 && GQueued !in r.held
    requires forall pc :: GAtt(pc) !in r.held
    ensures r.fin
  {
    hide N2Holds, Untouched, Booked;
    if r.held != multiset{} {
      var x :| x in r.held;
      InSomeHand(c, a, g, r, x);
    }
  }

  lemma BringUpGoesOn(c: Config, s: Run)
    requires Inv(c, s) && s.co == CoN2
    ensures CanGoOn(c, s)
  {
    hide UesOk, GnbOk, Total, GTotal, CountIn, GTake;
    if g, pc :| 0 <= g < |s.gnbs| && GAtt(pc) in s.gnbs[g].held {
      WorkerGoesOn(c, s, g, pc);
    } else if s.n2Hand != -1 {
      var g := s.n2Hand;
      var t := GTake(s, g, GMove(GHand, GBy(GAtt(GStart)), s.gnbs[g], NoCall, NoCall));
      assert Step(c, s, N2Dispatcher(g, NLaunch), t.(n2Hand := -1));
    } else if g :| 0 <= g < |s.gnbs| && GQueued in s.gnbs[g].held {
      var t := GTake(s, g, GMove(GQueued, GBy(GHand), s.gnbs[g], NoCall, NoCall));
      assert Step(c, s, N2Dispatcher(g, NPop), t.(n2Hand := g));
    } else {
      forall g | 0 <= g < |s.gnbs| ensures s.gnbs[g].fin {
        RestsFinished(c, GAroundOf(s), g, s.gnbs[g]);
      }
      AllFinished(s.gnbs);
      assert Step(c, s, Coordinator(N2Return), s.(co := CoN2Wait, n2Hand := -1));
    }
  }

  // -------------------------------------------------------------- taking down

  lemma {:induction false} SomeLeft(us: seq<Ue>) returns (i: nat)
    requires Total(us).todoLeft > 0
    ensures i < |us| && us[i].todo && !us[i].counted
  {
    hide Counters.Plus;
    var n := |us| - 1;
    if us[n].todo && !us[n].counted {
      i := n;
    } else {
      i := SomeLeft(us[..n]);
    }
  }

  /** While deregistrations are left, some UE is in the deregistration stage. */
  lemma LeftIsHeld(c: Config, a: Around, i: nat, u: Ue)
    requires UeOk(c, a, i, u) && a.co == CoDereg && u.todo && !u.counted
    ensures Queued(Dereg) in u.held || InHand(Dereg) in u.held || exists pc :: Attempt(Dereg, pc) in u.held
  {
    hide Booked, Settled, SettledState, CleaningUp, CleanupDone, PipelineRest;
    assert u.held != multiset{};
    var x :| x in u.held;
    Sole(u.held, x);
    assert SpotOf(u.held) == By(x);
  }

  /** The deregistration stage has the UE. */
  ghost predicate InCleanup(u: Ue) {
    Queued(Dereg) in u.held || InHand(Dereg) in u.held || exists pc :: Attempt(Dereg, pc) in u.held
  }

  /** While the stage runs, deregistrations are left exactly when some listed UE is queued, in hand or attempted. */
  lemma LeftAreHeld(c: Config, s: Run)
    requires Inv(c, s) && s.co == CoDereg
    ensures s.left > 0 <==> exists i: nat :: i < |s.ues| && s.ues[i].todo && !s.ues[i].counted && InCleanup(s.ues[i])
  {
    hide UesOk, GnbsOk, Total, GTotal, CountIn, Gates, UeOk;
    if s.left > 0 {
      var i := SomeLeft(s.ues);
      InvUe(c, s, i);
      LeftIsHeld(c, AroundOf(s, i), i, s.ues[i]);
      assert InCleanup(s.ues[i]);
    }
    if i: nat :| i < |s.ues| && s.ues[i].todo && !s.ues[i].counted && InCleanup(s.ues[i]) {
      TotalGates(s.ues, i);
    }
  }

  lemma CleanupGoesOn(c: Config, s: Run)
    requires Inv(c, s) && Handed(s) && s.co == CoDereg
    ensures CanGoOn(c, s)
  {
    hide UesOk, GnbsOk, Total, GTotal, CountIn, CanGoOn, Handed, Take, UeOk;
    if s.disp.dereg == Done {
      Turns(c, s, DeregReturn);
    } else if s.disp.dereg != Popping || s.abort || s.deregOver {
      DispatcherGoesOn(c, s, Dereg);
    } else {
      TotalGates(s.ues, 0);
      var i := SomeLeft(s.ues);
      InvUe(c, s, i);
      LeftIsHeld(c, AroundOf(s, i), i, s.ues[i]);
      if Queued(Dereg) in s.ues[i].held {
        PopGoesOn(c, s, i);
      } else if InHand(Dereg) in s.ues[i].held {
        InvAt(c, s, i, InHand(Dereg));
        assert false;
      } else {
        var pc :| Attempt(Dereg, pc) in s.ues[i].held;
        AttemptGoesOn(c, s, i, Dereg, pc);
      }
    }
  }

  lemma PopGoesOn(c: Config, s: Run, i: nat)
    requires i < |s.ues| && Queued(Dereg) in s.ues[i].held && s.disp.dereg == Popping
    ensures CanGoOn(c, s)
  {
    hide Take;
    var t := Take(s, i, Move(Queued(Dereg), By(InHand(Dereg)), s.ues[i], Nothing));
    assert Step(c, s, Dispatcher(Dereg, Pop, i), t.(disp := s.disp.Set(Dereg, Holding(i))));
  }

  /** What the aborted stage leaves is drained. */
  lemma DrainGoesOn(c: Config, s: Run)
    requires Inv(c, s) && s.co == CoDeregDrain
    ensures CanGoOn(c, s)
  {
    hide Inv, ProcHolds, Take, DeregMove;
    if i :| 0 <= i < |s.ues| && s.ues[i].held != multiset{} {
      var x :| x in s.ues[i].held;
      InvAt(c, s, i, x);
      DrainStep(c, s, i, x);
    } else {
      Turns(c, s, DeregDrainEnd);
    }
  }

  lemma DrainStep(c: Config, s: Run, i: nat, x: Place)
    requires i < |s.ues| && x in s.ues[i].held && s.co == CoDeregDrain && (x == Queued(Dereg) || x.Drained?)
    ensures CanGoOn(c, s)
  {
    hide Take;
    var k := if x.Queued? then DDrain else if x.counted then DDrainLocked else DDrainSkip;
    assert Step(c, s, DeregAttempt(i, k), Take(s, i, DeregMove(c, s.abort, s.ues[i], k)));
  }

  /** execute's own loops. */
  lemma GnbLoopGoesOn(c: Config, s: Run, g: nat)
    requires g <= |s.gnbs| && (s.co == CoSkipGnb(g) || s.co == CoClose(g))
    ensures CanGoOn(c, s)
  {
    hide ChangeGnb;
    if s.co == CoSkipGnb(g) {
      if g == |s.gnbs| {
        Turns(c, s, SkipGnbEnd);
      } else {
        var t := if s.gnbs[g].state == GnbPending || s.gnbs[g].state == GnbConnecting
                 then ChangeGnb(s, g, s.gnbs[g], DoSkip, NoCall) else s;
        assert Step(c, s, Coordinator(SkipGnb(g)), t.(co := CoSkipGnb(g + 1)));
      }
    } else if g == |s.gnbs| {
      Turns(c, s, CloseEnd);
    } else {
      var r := s.gnbs[g];
      var t := if r.conn
               then ChangeGnb(s, g, r.(conn := false, held := r.held + multiset{GAtt(RBegin)}), NoCall, NoCall)
               else ChangeGnb(s, g, r, NoCall, DoSkip);
      assert Step(c, s, Coordinator(CloseOne(g)), t.(co := CoClose(g + 1)));
    }
  }

  lemma UeLoopGoesOn(c: Config, s: Run, i: nat)
    requires i <= |s.ues| && (s.co == CoSkipUe(i) || s.co == CoPlan(i) || s.co == CoEnqueue(i))
    requires i < |s.ues| ==> s.ues[i].gnb < |s.gnbs|
    ensures CanGoOn(c, s)
  {
    hide Change, Pushed, SettledUe;
    match s.co
    case CoSkipUe(_) =>
      if i == |s.ues| {
        Turns(c, s, SkipUeEnd);
      } else {
        var t := Change(s, i, SettledUe(s.ues[i]), SettleEffect(s.ues[i]));
        assert Step(c, s, Coordinator(SkipUe(i)), t.(co := CoSkipUe(i + 1)));
      }
    case CoPlan(_) =>
      if i == |s.ues| {
        assert Step(c, s, Coordinator(PlanEnd), s.(co := if s.left == 0 then CoClose(0) else CoEnqueue(0)));
      } else {
        var t := Change(s, i, s.ues[i], Nothing.(dereg := DoSkip));
        assert Step(c, s, Coordinator(Plan(i, false)), t.(co := CoPlan(i + 1)));
      }
    case CoEnqueue(_) =>
      if i == |s.ues| {
        Turns(c, s, EnqueueEnd);
      } else {
        var t := if s.ues[i].todo then Pushed(s, i, Dereg) else s;
        assert Step(c, s, Coordinator(Enqueue(i)), t.(co := CoEnqueue(i + 1)));
      }
  }

  lemma LoopGoesOn(c: Config, s: Run)
    requires Inv(c, s) && (s.co.CoSkipGnb? || s.co.CoSkipUe? || s.co.CoPlan? || s.co.CoEnqueue? || s.co.CoClose?)
    ensures CanGoOn(c, s)
  {
    hide UesOk, GnbsOk, Balanced, CanGoOn;
    GnbOfEach(c, s);
    if s.co.CoSkipGnb? || s.co.CoClose? {
      GnbLoopGoesOn(c, s, s.co.k);
    } else {
      UeLoopGoesOn(c, s, s.co.k);
    }
  }

  /** The run's end, or a run that goes on until somebody stops it. */
  predicate Ended(s: Run) { s.co == CoFailed || s.co == CoStopped }

  predicate AwaitsStop(s: Run) { s.co == CoRunning && !s.ctxDone }

  lemma GoesOn(c: Config, s: Run)
    requires Inv(c, s) && Handed(s) && !Ended(s) && !AwaitsStop(s)
    ensures CanGoOn(c, s)
  {
    hide Inv, Handed, CanGoOn;
    match s.co
    case CoConfig => Turns(c, s, if s.ctxDone then SkipPipelines else LaunchPipelines);
    case CoN2 => BringUpGoesOn(c, s);
    case CoN2Wait => WaitGoesOn(c, s, N2Joined);
    case CoHeld => Turns(c, s, if s.ctxDone then StartStopping else Hold);
    case CoRunning => Turns(c, s, StartStopping);
    case CoStopping => StoppingGoesOn(c, s);
    case CoDrain =>
      if j, p :| 0 <= j < |s.ues| && p != Dereg && Queued(p) in s.ues[j].held {
        DrainOneGoesOn(c, s, j, p);
      } else {
        Turns(c, s, Drain);
      }
    case CoDereg => CleanupGoesOn(c, s);
    case CoDeregDrain => DrainGoesOn(c, s);
    case CoCloseWait => WaitGoesOn(c, s, Closed);
    case _ => LoopGoesOn(c, s);
  }

  lemma DrainOneGoesOn(c: Config, s: Run, j: nat, p: Proc)
    requires s.co == CoDrain && j < |s.ues| && p != Dereg && Queued(p) in s.ues[j].held
    ensures CanGoOn(c, s)
  {
    hide Take;
    assert Step(c, s, Coordinator(DrainOne(p, j)), Take(s, j, Move(Queued(p), Free, s.ues[j], Nothing)));
  }

  /** execute waits for the gNBs' workers. */
  lemma WaitGoesOn(c: Config, s: Run, k: Turn)
    requires Inv(c, s) && ((k == N2Joined && s.co == CoN2Wait) || (k == Closed && s.co == CoCloseWait))
    ensures CanGoOn(c, s)
  {
    hide UesOk, GnbsOk, Balanced, Gates, CanGoOn;
    if g, pc :| 0 <= g < |s.gnbs| && GAtt(pc) in s.gnbs[g].held {
      WorkerGoesOn(c, s, g, pc);
    } else {
      Turns(c, s, k);
    }
  }

  /**
   * No deadlock: whatever has happened, a run that has not ended can go on, unless it is up and nobody has
   * stopped it. In particular a stopped run can always go on until it has ended.
   */
  lemma NeverStuck(c: Config, states: seq<Run>, actions: seq<Action>, gnbs: nat, plan: seq<(nat, bool)>, n: nat)
    requires IsRun(c, states, actions) && Init(c, states[0], gnbs, plan) && c.throughput == Throughputs(plan)
    requires n < |states| && !Ended(states[n]) && !AwaitsStop(states[n])
    ensures CanGoOn(c, states[n])
  {
    hide Inv, Step, Handed, CanGoOn, Ended, AwaitsStop, Throughputs;
    Reachable(c, states, actions, gnbs, plan, n);
    RunHands(c, states, actions, gnbs, plan, n);
    GoesOn(c, states[n]);
  }
}
