/**
 * One test run as a concurrent step machine (tester/run/controller.go and
 * tester/run/cploop.go). The state holds what the goroutines share; every step
 * is one critical section, one Stage call or one channel operation of one
 * goroutine, so a run is any interleaving of steps.
 */
module RunModel {
  import opened MetricsStage
  import opened UeSummaries

  /** The four paced per-UE stages. */
  datatype Proc = Reg | Pdu | Cp | Dereg

  /** Where an attempt's goroutine is in its callback. */
  datatype Pc =
    // attemptRegistration, attemptPdu and attemptDeregistration
    | Start | Begin | Wait | Acc | AccLock | AccPush
    | Retry | RetryLock | Requeue | Fin | FinSkip | FinLock
    | Abort | AbortLock | Left
    // cpCycle
    | CpStart | CpBegin | CpRegWait | CpRegOk | CpRegFail | CpRegLock | CpHoldIn | CpHold | CpLeave
    | CpDeregLock | CpDeregBegin | CpDeregWait | CpDetach(ok: bool) | CpCount(ok: bool) | CpDeregFin(ok: bool)
    | CpIdle(cycled: bool) | CpRet

  /** One thing that holds a UE index: a queue entry, a dispatcher's hand, a goroutine. */
  datatype Place =
    | Queued(p: Proc)
    | InHand(p: Proc)
    | Attempt(p: Proc, pc: Pc)
    | Drained(counted: bool)

  /** The calls made for one UE: what each stage would count if it were the only UE. */
  datatype Book = Book(reg: Counters, pdu: Counters, dereg: Counters, cpReg: Counters, cpDereg: Counters,
      registered: int, cycles: int)

  datatype Ue = Ue(
    gnb: nat, cp: bool,
    state: UeState, regDone: bool, pduDone: bool, cpCycled: bool, link: bool,
    regAttempts: nat, pduAttempts: nat, deregAttempts: nat,
    todo: bool,              // in deregisterAll's list
    counted: bool,           // its callback has decremented deregisterAll's left
    held: multiset<Place>,   // everything that holds this index
    book: Book)              // the Stage calls made for this item, for the proofs only

  datatype GnbState = GnbPending | GnbConnecting | GnbUp | GnbFailed | GnbLost | GnbClosed

  /** Where attemptN2 (and closeConns' goroutine) is. */
  datatype GPc =
    | GStart | GBegin | GWait | GOk | GUp | GConn | GEnq
    | GRetry | GRetryLock | GRequeue | GFail | GFailState | GSkip | GDone
    | RBegin | RClose | RState

  datatype GPlace = GQueued | GHand | GAtt(gpc: GPc)

  datatype Watch = WNone | WOn | WPassed | WDropped | WEnd

  datatype Gnb = Gnb(
    state: GnbState, attempts: nat,
    held: multiset<GPlace>,
    cover: nat,              // UE indexes startGnb or skipGnbUes has gone through
    conn: bool, assoc: bool, watch: Watch,
    fin: bool,               // n2Round.finished was called
    n2: Counters, release: Counters)   // the Stage calls made for this gNB, for the proofs only

  /** Where execute is. */
  datatype Co =
    | CoConfig | CoFailed
    | CoN2 | CoN2Wait | CoHeld | CoRunning | CoStopping
    | CoDrain | CoSkipGnb(k: nat) | CoSkipUe(k: nat)
    | CoPlan(k: nat) | CoEnqueue(k: nat) | CoDereg | CoDeregDrain
    | CoClose(k: nat) | CoCloseWait | CoStopped

  /** Where a stage's dispatcher loop is; Holding carries the popped index. */
  datatype Disp = Off | WaitTp | Enq(k: nat) | Popping | Holding(i: nat) | Waiting | Done

  datatype Disps = Disps(reg: Disp, pdu: Disp, cp: Disp, dereg: Disp) {
    function Get(p: Proc): Disp {
      match p case Reg => reg case Pdu => pdu case Cp => cp case Dereg => dereg
    }
    function Set(p: Proc, d: Disp): Disps {
      match p
      case Reg => this.(reg := d)
      case Pdu => this.(pdu := d)
      case Cp => this.(cp := d)
      case Dereg => this.(dereg := d)
    }
  }

  /** The profile: Throughput(), and Retries of each rate. */
  datatype Config = Config(throughput: nat, n2Retries: nat, regRetries: nat, pduRetries: nat, deregRetries: nat)

  datatype Run = Run(
    co: Co, ctxDone: bool, abort: bool,
    gnbs: seq<Gnb>, ues: seq<Ue>, disp: Disps,
    n2: Counters, reg: Counters, pdu: Counters, dereg: Counters,
    cleanup: Counters, release: Counters, cpReg: Counters, cpDereg: Counters,
    summary: Summary,
    tpLeft: int, tpCloses: nat,                      // tpCloses: how often tpDone was closed
    left: int, deregOver: bool,                      // deregisterAll's left and finished()
    n2Left: int, n2Closes: nat, n2Hand: int,         // n2Hand: the gNB runN2 has taken, -1 if none
    cpRegistered: int, cpCycles: int)

  // ------------------------------------------------- one step of an attempt

  /** A call on a stage's counters. */
  datatype StageCall = NoCall | DoBegin(retry: bool) | DoRetrying | DoFinish(o: Outcome) | DoSkip {
    function On(c: Counters): Counters {
      match this
      case NoCall => c
      case DoBegin(retry) => c.Begin(retry)
      case DoRetrying => c.Retrying()
      case DoFinish(o) => c.Finish(o)
      case DoSkip => c.Skip()
    }
  }

  /** What a step does besides moving its UE. dereg is counted by deregStage: throughput and control-plane UEs apart. */
  datatype Effect = Effect(
    reg: StageCall, pdu: StageCall, dereg: StageCall, cpReg: StageCall, cpDereg: StageCall,
    cpRegistered: int, cpCycles: int, pduDone: bool, leftDown: bool)
  {
    function Note(b: Book): Book {
      Book(reg.On(b.reg), pdu.On(b.pdu), dereg.On(b.dereg), cpReg.On(b.cpReg), cpDereg.On(b.cpDereg),
           b.registered + cpRegistered, b.cycles + cpCycles)
    }
  }

  const Nothing := Effect(NoCall, NoCall, NoCall, NoCall, NoCall, 0, 0, false, false)

  /** What holds a UE after a step. */
  datatype Spot = Free | By(x: Place)

  /** from gives the UE to to; ue is its new record, whose held is still to be changed. */
  datatype Move = Move(from: Place, to: Spot, ue: Ue, effect: Effect)

  function Given(held: multiset<Place>, x: Place, y: Spot): multiset<Place> {
    match y
    case Free => held - multiset{x}
    case By(p) => held - multiset{x} + multiset{p}
  }

  /** markPduDone's countdown and deregisterAll's left, with the gates they open. */
  function CountDown(s: Run, e: Effect): Run {
    s.(tpLeft := if e.pduDone then s.tpLeft - 1 else s.tpLeft,
       tpCloses := if e.pduDone && s.tpLeft - 1 == 0 then s.tpCloses + 1 else s.tpCloses,
       left := if e.leftDown then s.left - 1 else s.left,
       deregOver := s.deregOver || (e.leftDown && s.left - 1 == 0))
  }

  /** UE i's record becomes v (setUeState moves it between two of the summary's counts), and e happens. */
  function Change(s: Run, i: nat, v: Ue, e: Effect): Run
    requires i < |s.ues|
  {
    var u := s.ues[i];
    CountDown(s, e).(
      ues := s.ues[i := v.(book := e.Note(u.book))], summary := s.summary.Move(u.state, v.state),
      reg := e.reg.On(s.reg), pdu := e.pdu.On(s.pdu),
      dereg := if u.cp then s.dereg else e.dereg.On(s.dereg),
      cleanup := if u.cp then e.dereg.On(s.cleanup) else s.cleanup,
      cpReg := e.cpReg.On(s.cpReg), cpDereg := e.cpDereg.On(s.cpDereg),
      cpRegistered := s.cpRegistered + e.cpRegistered, cpCycles := s.cpCycles + e.cpCycles)
  }

  function Take(s: Run, i: nat, m: Move): Run
    requires i < |s.ues|
  {
    Change(s, i, m.ue.(held := Given(s.ues[i].held, m.from, m.to)), m.effect)
  }

  ghost predicate Taken(s: Run, t: Run, i: nat, m: Move) {
    i < |s.ues| && m.from in s.ues[i].held && t == Take(s, i, m)
  }

  /** Stage p's queue gets UE i. */
  function Pushed(s: Run, i: nat, p: Proc): Run
    requires i < |s.ues|
  {
    var u := s.ues[i];
    s.(ues := s.ues[i := u.(held := u.held + multiset{Queued(p)})])
  }

  /** setCleanupState: a UE that already failed stays failed. */
  function CleanupState(u: Ue, st: UeState): UeState {
    if u.state == UeFailed then u.state else st
  }

  // ------------------------------------------------------- procStage dispatch

  datatype DispStep = Pop | Launch | PutBack | PopStop | Return

  function StartPc(p: Proc): Pc { if p == Cp then CpStart else Start }

  predicate ProcCtxDone(s: Run, p: Proc) {
    if p == Dereg then s.abort || s.deregOver else s.ctxDone
  }

  ghost predicate NoneInFlight(s: Run, p: Proc) {
    forall j, pc :: 0 <= j < |s.ues| ==> Attempt(p, pc) !in s.ues[j].held
  }

  ghost predicate Dispatch(s: Run, t: Run, p: Proc, k: DispStep, i: nat) {
    var d := s.disp.Get(p);
    match k
    case Pop =>
      && d == Popping && i < |s.ues| && Queued(p) in s.ues[i].held
      && t == Take(s, i, Move(Queued(p), By(InHand(p)), s.ues[i], Nothing)).(disp := s.disp.Set(p, Holding(i)))
    case Launch =>
      && d == Holding(i) && i < |s.ues| && InHand(p) in s.ues[i].held
      && t == Take(s, i, Move(InHand(p), By(Attempt(p, StartPc(p))), s.ues[i], Nothing))
           .(disp := s.disp.Set(p, Popping))
    case PutBack =>
      && d == Holding(i) && ProcCtxDone(s, p) && i < |s.ues| && InHand(p) in s.ues[i].held
      && t == Take(s, i, Move(InHand(p), By(Queued(p)), s.ues[i], Nothing)).(disp := s.disp.Set(p, Waiting))
    case PopStop =>
      d == Popping && ProcCtxDone(s, p) && t == s.(disp := s.disp.Set(p, Waiting))
    case Return =>
      d == Waiting && NoneInFlight(s, p) && t == s.(disp := s.disp.Set(p, Done))
  }

  // ------------------------------------------------------------ registration

  datatype RegStep =
    | RLock | RCall | RAnswer(ok: bool) | RFinish(o: Outcome) | RLocked | RPush
    | RGiveBack | RBackLocked | RAgain | RSkipPdu | RFailLocked

  function RegMove(c: Config, ctxDone: bool, u: Ue, k: RegStep): Move {
    match k
    case RLock => Move(Attempt(Reg, Start), By(Attempt(Reg, Begin)),
        u.(regAttempts := u.regAttempts + 1, state := UeRegistering), Nothing)
    case RCall => Move(Attempt(Reg, Begin), By(Attempt(Reg, Wait)), u, Nothing.(reg := DoBegin(u.regAttempts > 1)))
    case RAnswer(ok) =>
      var next := if ok then Acc else if u.regAttempts <= c.regRetries && !ctxDone then Retry else Fin;
      Move(Attempt(Reg, Wait), By(Attempt(Reg, next)), u.(link := ok), Nothing)
    case RFinish(o) =>
      var from, to := if o == Accepted then Acc else Fin, if o == Accepted then AccLock else FinSkip;
      Move(Attempt(Reg, from), By(Attempt(Reg, to)), u, Nothing.(reg := DoFinish(o)))
    case RLocked => Move(Attempt(Reg, AccLock), By(Attempt(Reg, AccPush)), u.(regDone := true, state := UeRegistered),
        Nothing)
    case RPush => Move(Attempt(Reg, AccPush), By(Queued(Pdu)), u, Nothing)
    case RGiveBack => Move(Attempt(Reg, Retry), By(Attempt(Reg, RetryLock)), u, Nothing.(reg := DoRetrying))
    case RBackLocked => Move(Attempt(Reg, RetryLock), By(Attempt(Reg, Requeue)), u.(state := UePending), Nothing)
    case RAgain => Move(Attempt(Reg, Requeue), By(Queued(Reg)), u, Nothing)
    case RSkipPdu => Move(Attempt(Reg, FinSkip), By(Attempt(Reg, FinLock)), u, Nothing.(pdu := DoSkip))
    case RFailLocked =>
      Move(Attempt(Reg, FinLock), Free, u.(regDone := true, pduDone := true, state := UeFailed),
          Nothing.(pduDone := !u.pduDone))
  }

  // --------------------------------------------------------------------- PDU

  datatype PduStep =
    | PLock | PCall | PAnswer(ok: bool) | PFinish(o: Outcome) | PLocked | PGiveBack | PBackLocked | PAgain | PFailLocked

  function PduMove(c: Config, ctxDone: bool, u: Ue, k: PduStep): Move {
    match k
    case PLock => Move(Attempt(Pdu, Start), By(Attempt(Pdu, Begin)),
        u.(pduAttempts := u.pduAttempts + 1, state := UeEstablishing), Nothing)
    case PCall => Move(Attempt(Pdu, Begin), By(Attempt(Pdu, Wait)), u, Nothing.(pdu := DoBegin(u.pduAttempts > 1)))
    case PAnswer(ok) =>
      var next := if ok then Acc else if u.pduAttempts <= c.pduRetries && !ctxDone then Retry else Fin;
      Move(Attempt(Pdu, Wait), By(Attempt(Pdu, next)), u, Nothing)
    case PFinish(o) =>
      var from, to := if o == Accepted then Acc else Fin, if o == Accepted then AccLock else FinLock;
      Move(Attempt(Pdu, from), By(Attempt(Pdu, to)), u, Nothing.(pdu := DoFinish(o)))
    case PLocked => Move(Attempt(Pdu, AccLock), Free, u.(pduDone := true, state := UeEstablished),
        Nothing.(pduDone := !u.pduDone))
    case PGiveBack => Move(Attempt(Pdu, Retry), By(Attempt(Pdu, RetryLock)), u, Nothing.(pdu := DoRetrying))
    case PBackLocked => Move(Attempt(Pdu, RetryLock), By(Attempt(Pdu, Requeue)), u.(state := UeRegistered), Nothing)
    case PAgain => Move(Attempt(Pdu, Requeue), By(Queued(Pdu)), u, Nothing)
    case PFailLocked => Move(Attempt(Pdu, FinLock), Free, u.(pduDone := true, state := UeFailed),
        Nothing.(pduDone := !u.pduDone))
  }

  // ---------------------------------------------------------- deregistration

  datatype DeregStep =
    | DLock | DCall | DAnswer(o: Outcome, late: bool) | DFinish(o: Outcome) | DFinishAborted
    | DLocked | DAbortLocked | DFailLocked | DGiveBack | DAgain | DLeft
    | DDrain | DDrainSkip | DDrainLocked

  /** late: the second look at cleanupCtx finds it cancelled although the first did not. */
  function DeregAnswerPc(c: Config, abort: bool, attempts: nat, o: Outcome, late: bool): Pc {
    if abort && o != Accepted then Abort
    else if o == Accepted then Acc
    else if attempts <= c.deregRetries && !late && o != Rejected then Retry
    else Fin
  }

  function DeregMove(c: Config, abort: bool, u: Ue, k: DeregStep): Move {
    match k
    case DLock =>
      Move(Attempt(Dereg, Start), By(Attempt(Dereg, Begin)),
           u.(deregAttempts := u.deregAttempts + 1, state := CleanupState(u, UeDeregistering)), Nothing)
    case DCall => Move(Attempt(Dereg, Begin), By(Attempt(Dereg, Wait)), u,
        Nothing.(dereg := DoBegin(u.deregAttempts > 1)))
    case DAnswer(o, late) =>
      Move(Attempt(Dereg, Wait), By(Attempt(Dereg, DeregAnswerPc(c, abort, u.deregAttempts, o, late))), u, Nothing)
    case DFinish(o) =>
      var from, to := if o == Accepted then Acc else Fin, if o == Accepted then AccLock else FinLock;
      Move(Attempt(Dereg, from), By(Attempt(Dereg, to)), u, Nothing.(dereg := DoFinish(o)))
    case DFinishAborted =>
      Move(Attempt(Dereg, Abort), By(Attempt(Dereg, AbortLock)), u, Nothing.(dereg := DoFinish(Failed)))
    case DLocked => Move(Attempt(Dereg, AccLock), By(Attempt(Dereg, Left)),
        u.(link := false, state := CleanupState(u, UeDeregistered)), Nothing)
    case DAbortLocked => Move(Attempt(Dereg, AbortLock), By(Attempt(Dereg, Left)),
        u.(link := false, state := CleanupState(u, UeCancelled)), Nothing)
    case DFailLocked => Move(Attempt(Dereg, FinLock), By(Attempt(Dereg, Left)),
        u.(link := false, state := CleanupState(u, UeFailed)), Nothing)
    case DGiveBack => Move(Attempt(Dereg, Retry), By(Attempt(Dereg, Requeue)), u, Nothing.(dereg := DoRetrying))
    case DAgain => Move(Attempt(Dereg, Requeue), By(Queued(Dereg)), u, Nothing)
    case DLeft => Move(Attempt(Dereg, Left), Free, u.(counted := true), Nothing.(leftDown := true))
    // after stage.run: what drain returns is skipped one by one
    case DDrain => Move(Queued(Dereg), By(Drained(false)), u, Nothing)
    case DDrainSkip => Move(Drained(false), By(Drained(true)), u, Nothing.(dereg := DoSkip))
    case DDrainLocked => Move(Drained(true), Free, u.(link := false, state := CleanupState(u, UeCancelled)), Nothing)
  }

  // ------------------------------------------------------ control-plane loop

  datatype CpStep =
    | CEnter(alive: bool) | CBegin | CRegAnswer(ok: bool) | CRegFinish(o: Outcome) | CRegLocked | CHoldIn | CHeld
    | CLeft | CDeregLocked | CDeregBegin | CDeregAnswer(ok: bool) | CDetached(ok: bool) | CCounted(ok: bool)
    | CDeregFinish(o: Outcome) | CIdled(cycled: bool) | CReturn

  function CpMove(ctxDone: bool, u: Ue, k: CpStep): Move {
    match k
    case CEnter(alive) =>
      if alive then Move(Attempt(Cp, CpStart), By(Attempt(Cp, CpBegin)), u.(state := UeRegistering), Nothing)
      else Move(Attempt(Cp, CpStart), Free, u.(state := UeSkipped), Nothing)
    case CBegin => Move(Attempt(Cp, CpBegin), By(Attempt(Cp, CpRegWait)), u, Nothing.(cpReg := DoBegin(false)))
    case CRegAnswer(ok) => Move(Attempt(Cp, CpRegWait), By(Attempt(Cp, if ok then CpRegOk else CpRegFail)), u, Nothing)
    case CRegFinish(o) =>
      var from, to := if o == Accepted then CpRegOk else CpRegFail, if o == Accepted then CpRegLock else CpIdle(false);
      Move(Attempt(Cp, from), By(Attempt(Cp, to)), u, Nothing.(cpReg := DoFinish(o)))
    case CRegLocked => Move(Attempt(Cp, CpRegLock), By(Attempt(Cp, CpHoldIn)), u.(link := true, state := UeRegistered),
        Nothing)
    case CHoldIn => Move(Attempt(Cp, CpHoldIn), By(Attempt(Cp, CpHold)), u, Nothing.(cpRegistered := 1))
    case CHeld => Move(Attempt(Cp, CpHold), By(Attempt(Cp, if ctxDone then CpLeave else CpDeregLock)), u, Nothing)
    case CLeft => Move(Attempt(Cp, CpLeave), Free, u, Nothing.(cpRegistered := -1))
    case CDeregLocked => Move(Attempt(Cp, CpDeregLock), By(Attempt(Cp, CpDeregBegin)), u.(state := UeDeregistering),
        Nothing)
    case CDeregBegin => Move(Attempt(Cp, CpDeregBegin), By(Attempt(Cp, CpDeregWait)), u,
        Nothing.(cpDereg := DoBegin(false)))
    case CDeregAnswer(ok) => Move(Attempt(Cp, CpDeregWait), By(Attempt(Cp, CpDetach(ok))), u, Nothing)
    case CDetached(ok) => Move(Attempt(Cp, CpDetach(ok)), By(Attempt(Cp, CpCount(ok))), u.(link := false), Nothing)
    case CCounted(ok) =>
      Move(Attempt(Cp, CpCount(ok)), By(Attempt(Cp, CpDeregFin(ok))), u,
          Nothing.(cpRegistered := -1, cpCycles := if ok then 1 else 0))
    case CDeregFinish(o) =>
      Move(Attempt(Cp, CpDeregFin(o == Accepted)), By(Attempt(Cp, CpIdle(true))), u, Nothing.(cpDereg := DoFinish(o)))
    case CIdled(cycled) =>
      Move(Attempt(Cp, CpIdle(cycled)), By(Attempt(Cp, CpRet)),
          u.(cpCycled := u.cpCycled || cycled, state := UePending), Nothing)
    case CReturn => Move(Attempt(Cp, CpRet), if ctxDone then Free else By(Queued(Cp)), u, Nothing)
  }

  /** runCpLoop around its stage: wait for the gate, queue the UEs whose gNB is up, dispatch. */
  datatype CpLoopStep = CpNone | CpGate | CpStopEarly | CpEnqueue(i: nat, alive: bool) | CpDispatch

  ghost predicate CpLoop(s: Run, t: Run, k: CpLoopStep) {
    match k
    case CpNone => s.disp.cp == WaitTp && (forall j :: 0 <= j < |s.ues| ==> !s.ues[j].cp)
        && t == s.(disp := s.disp.(cp := Done))
    case CpStopEarly => s.disp.cp == WaitTp && s.ctxDone && t == s.(disp := s.disp.(cp := Done))
    case CpGate => s.disp.cp == WaitTp && s.tpCloses > 0 && t == s.(disp := s.disp.(cp := Enq(0)))
    case CpEnqueue(i, alive) =>
      && s.disp.cp == Enq(i) && i < |s.ues| && s.ues[i].gnb < |s.gnbs|
      && t == (if s.ues[i].cp && alive && s.gnbs[s.ues[i].gnb].assoc then Pushed(s, i, Cp) else s)
              .(disp := s.disp.(cp := Enq(i + 1)))
    case CpDispatch => s.disp.cp == Enq(|s.ues|) && t == s.(disp := s.disp.(cp := Popping))
  }

  // ---------------------------------------------------------------------- N2

  datatype GSpot = GFree | GBy(x: GPlace)

  /** A step of a goroutine that has a gNB: it goes from one place to another and calls the two gNB stages. */
  datatype GMove = GMove(from: GPlace, to: GSpot, gnb: Gnb, n2: StageCall, release: StageCall)

  function GGiven(held: multiset<GPlace>, x: GPlace, y: GSpot): multiset<GPlace> {
    match y
    case GFree => held - multiset{x}
    case GBy(p) => held - multiset{x} + multiset{p}
  }

  function ChangeGnb(s: Run, g: nat, r: Gnb, n2: StageCall, release: StageCall): Run
    requires g < |s.gnbs|
  {
    var q := s.gnbs[g];
    s.(gnbs := s.gnbs[g := r.(n2 := n2.On(q.n2), release := release.On(q.release))],
       n2 := n2.On(s.n2), release := release.On(s.release))
  }

  function GTake(s: Run, g: nat, m: GMove): Run
    requires g < |s.gnbs|
  {
    ChangeGnb(s, g, m.gnb.(held := GGiven(s.gnbs[g].held, m.from, m.to)), m.n2, m.release)
  }

  ghost predicate GTaken(s: Run, t: Run, g: nat, m: GMove) {
    g < |s.gnbs| && m.from in s.gnbs[g].held && t == GTake(s, g, m)
  }

  /** attemptN2, but for its loops over the UEs and the round's bookkeeping. */
  datatype N2Step =
    | NLock | NCall | NAnswer(ok: bool) | NFinish(o: Outcome) | NUp | NFailed | NConn | NGiveBack | NBackState | NAgain

  function N2Move(c: Config, ctxDone: bool, r: Gnb, k: N2Step): GMove {
    match k
    case NLock => GMove(GAtt(GStart), GBy(GAtt(GBegin)), r.(attempts := r.attempts + 1, state := GnbConnecting),
        NoCall, NoCall)
    case NCall => GMove(GAtt(GBegin), GBy(GAtt(GWait)), r, DoBegin(r.attempts > 1), NoCall)
    case NAnswer(ok) =>
      var next := if ok then GOk else if r.attempts < c.n2Retries + 1 && !ctxDone then GRetry else GFail;
      GMove(GAtt(GWait), GBy(GAtt(next)), r, NoCall, NoCall)
    case NFinish(o) =>
      var from, to := if o == Accepted then GOk else GFail, if o == Accepted then GUp else GFailState;
      GMove(GAtt(from), GBy(GAtt(to)), r, DoFinish(o), NoCall)
    case NUp => GMove(GAtt(GUp), GBy(GAtt(GConn)), r.(state := GnbUp), NoCall, NoCall)
    case NFailed => GMove(GAtt(GFailState), GBy(GAtt(GSkip)), r.(state := GnbFailed), NoCall, NoCall)
    case NConn => GMove(GAtt(GConn), GBy(GAtt(GEnq)), r.(conn := true, assoc := true, watch := WOn), NoCall, NoCall)
    case NGiveBack => GMove(GAtt(GRetry), GBy(GAtt(GRetryLock)), r, DoRetrying, NoCall)
    case NBackState => GMove(GAtt(GRetryLock), GBy(GAtt(GRequeue)), r.(state := GnbPending), NoCall, NoCall)
    case NAgain => GMove(GAtt(GRequeue), GBy(GQueued), r, NoCall, NoCall)
  }

  /** runN2's loop, startGnb's and skipGnbUes' loops over the UEs, and n2Round.finished. */
  datatype N2Round = NPop | NLaunch | NEnqueue(i: nat) | NEnqueueEnd | NSkip(i: nat) | NSkipEnd | NFinished

  /** gNB g's worker goes on to the next UE. */
  function Covered(s: Run, g: nat): Run
    requires g < |s.gnbs|
  {
    var r := s.gnbs[g];
    s.(gnbs := s.gnbs[g := r.(cover := r.cover + 1)])
  }

  /** skipGnbUes' body for a UE of a gNB that failed. */
  function SkippedUe(u: Ue): Ue {
    if u.cp then u.(state := UeSkipped)
    else u.(regDone := true, pduDone := true, state := UeSkipped)
  }

  function SkipEffect(u: Ue): Effect {
    if u.cp then Nothing else Nothing.(reg := DoSkip, pdu := DoSkip, pduDone := !u.pduDone)
  }

  ghost predicate RunN2(s: Run, t: Run, g: nat, k: N2Round)
    requires g < |s.gnbs|
  {
    var r := s.gnbs[g];
    match k
    case NPop =>
      s.co == CoN2 && s.n2Hand == -1 && GQueued in r.held
      && t == GTake(s, g, GMove(GQueued, GBy(GHand), r, NoCall, NoCall)).(n2Hand := g)
    case NLaunch =>
      s.co == CoN2 && s.n2Hand == g && GHand in r.held
      && t == GTake(s, g, GMove(GHand, GBy(GAtt(GStart)), r, NoCall, NoCall)).(n2Hand := -1)
    case NEnqueue(i) =>
      GAtt(GEnq) in r.held && i == r.cover && i < |s.ues|
      && t == Covered(if s.ues[i].gnb == g && !s.ues[i].cp then Pushed(s, i, Reg) else s, g)
    case NEnqueueEnd =>
      GAtt(GEnq) in r.held && r.cover == |s.ues|
      && t == GTake(s, g, GMove(GAtt(GEnq), GBy(GAtt(GDone)), r, NoCall, NoCall))
    case NSkip(i) =>
      GAtt(GSkip) in r.held && i == r.cover && i < |s.ues|
      && t == Covered(if s.ues[i].gnb == g then Change(s, i, SkippedUe(s.ues[i]), SkipEffect(s.ues[i])) else s, g)
    case NSkipEnd =>
      GAtt(GSkip) in r.held && r.cover == |s.ues|
      && t == GTake(s, g, GMove(GAtt(GSkip), GBy(GAtt(GDone)), r, NoCall, NoCall))
    case NFinished =>
      GAtt(GDone) in r.held
      && t == GTake(s, g, GMove(GAtt(GDone), GFree, r.(fin := true), NoCall, NoCall))
              .(n2Left := s.n2Left - 1, n2Closes := s.n2Closes + (if s.n2Left - 1 == 0 then 1 else 0))
  }

  /** watchAssociation: it may act long after it looked at the run's context. */
  datatype WatchStep = WLook | WDrop | WLost

  predicate WatchReady(r: Gnb, k: WatchStep) {
    match k
    case WLook => r.watch == WOn
    case WDrop => r.watch == WPassed
    case WLost => r.watch == WDropped
  }

  function Watched(ctxDone: bool, r: Gnb, k: WatchStep): Gnb {
    match k
    case WLook => r.(watch := if ctxDone then WEnd else WPassed)
    case WDrop => r.(watch := WDropped, conn := false)
    case WLost => r.(watch := WEnd, state := GnbLost)
  }

  // -------------------------------------------------------------- closeConns

  datatype CloseStep = KBegin | KClose(ok: bool) | KState

  function CloseMove(r: Gnb, k: CloseStep): GMove {
    match k
    case KBegin => GMove(GAtt(RBegin), GBy(GAtt(RClose)), r, NoCall, DoBegin(false))
    case KClose(ok) => GMove(GAtt(RClose), GBy(GAtt(RState)), r, NoCall, DoFinish(if ok then Accepted else Failed))
    case KState => GMove(GAtt(RState), GFree, r.(state := GnbClosed), NoCall, NoCall)
  }

  // ----------------------------------------------------------------- execute

  /** Steps of execute that only go on. */
  datatype Turn =
    | ConfigFails | LaunchPipelines | SkipPipelines | N2Joined | Hold | StartStopping | PipelinesJoined
    | Drain | SkipGnbEnd | SkipUeEnd | EnqueueEnd | DeregReturn | DeregDrainEnd | CloseEnd | Closed

  datatype CoStep =
    | GoOn(turn: Turn)
    | N2Return | DrainOne(p: Proc, i: nat) | SkipGnb(g: nat) | SkipUe(i: nat)
    | Plan(i: nat, alive: bool) | PlanEnd | Enqueue(i: nat) | CloseOne(g: nat)

  ghost predicate Joined(d: Disp) { d == Off || d == Done }

  /** skipUnfinished's loop body for one UE. */
  function SettledUe(u: Ue): Ue {
    u.(regDone := true, pduDone := true,
       state := if u.cp && u.state == UePending && u.cpCycled then UeDeregistered
                else if u.state in {UePending, UeRegistering, UeRegistered, UeEstablishing} then UeCancelled
                else u.state)
  }

  function SettleEffect(u: Ue): Effect {
    Nothing.(reg := if u.regDone then NoCall else DoSkip, pdu := if u.pduDone then NoCall else DoSkip,
             pduDone := !u.pduDone)
  }

  ghost predicate Ready(s: Run, k: Turn) {
    match k
    case ConfigFails => s.co == CoConfig
    case LaunchPipelines => s.co == CoConfig && !s.ctxDone
    case SkipPipelines => s.co == CoConfig && s.ctxDone
    case N2Joined => s.co == CoN2Wait && (forall g, pc :: 0 <= g < |s.gnbs| ==> GAtt(pc) !in s.gnbs[g].held)
    case Hold => s.co == CoHeld && !s.ctxDone
    case StartStopping => (s.co == CoHeld || s.co == CoRunning) && s.ctxDone
    case PipelinesJoined => s.co == CoStopping && Joined(s.disp.reg) && Joined(s.disp.pdu) && Joined(s.disp.cp)
    case Drain => s.co == CoDrain && (forall j, p :: 0 <= j < |s.ues| && p != Dereg ==> Queued(p) !in s.ues[j].held)
    case SkipGnbEnd => s.co == CoSkipGnb(|s.gnbs|)
    case SkipUeEnd => s.co == CoSkipUe(|s.ues|)
    case EnqueueEnd => s.co == CoEnqueue(|s.ues|)
    case DeregReturn => s.co == CoDereg && s.disp.dereg == Done
    case DeregDrainEnd => s.co == CoDeregDrain && (forall j :: 0 <= j < |s.ues| ==> s.ues[j].held == multiset{})
    case CloseEnd => s.co == CoClose(|s.gnbs|)
    case Closed => s.co == CoCloseWait && (forall g, pc :: 0 <= g < |s.gnbs| ==> GAtt(pc) !in s.gnbs[g].held)
  }

  function NextCo(k: Turn): Co {
    match k
    case ConfigFails => CoFailed
    case LaunchPipelines => CoN2
    case SkipPipelines => CoHeld
    case N2Joined => CoHeld
    case Hold => CoRunning
    case StartStopping => CoStopping
    case PipelinesJoined => CoDrain
    case Drain => CoSkipGnb(0)
    case SkipGnbEnd => CoSkipUe(0)
    case SkipUeEnd => CoPlan(0)
    case EnqueueEnd => CoDereg
    case DeregReturn => CoDeregDrain
    case DeregDrainEnd => CoClose(0)
    case CloseEnd => CoCloseWait
    case Closed => CoStopped
  }

  /** The dispatchers a turn starts: the two setup stages, runCpLoop and the deregistration stage. */
  function NextDisp(d: Disps, k: Turn): Disps {
    match k
    case LaunchPipelines => d.(reg := Popping, pdu := Popping)
    case N2Joined => d.(cp := WaitTp)
    case EnqueueEnd => d.(dereg := Popping)
    case _ => d
  }

  /** runN2 returns on Stop or when every gNB has its outcome; a gNB in its hand is dropped. */
  ghost predicate N2Returns(s: Run, t: Run) {
    && s.co == CoN2 && (s.ctxDone || s.n2Closes > 0 || |s.gnbs| == 0)
    && t == (if 0 <= s.n2Hand < |s.gnbs|
             then s.(gnbs := s.gnbs[s.n2Hand := s.gnbs[s.n2Hand].(held := s.gnbs[s.n2Hand].held - multiset{GHand})])
             else s).(co := CoN2Wait, n2Hand := -1)
  }

  ghost predicate SkipsGnb(s: Run, t: Run, g: nat) {
    && s.co == CoSkipGnb(g) && g < |s.gnbs|
    && t == (if s.gnbs[g].state == GnbPending || s.gnbs[g].state == GnbConnecting
             then ChangeGnb(s, g, s.gnbs[g], DoSkip, NoCall) else s).(co := CoSkipGnb(g + 1))
  }

  ghost predicate Settles(s: Run, t: Run, i: nat) {
    && s.co == CoSkipUe(i) && i < |s.ues|
    && t == Change(s, i, SettledUe(s.ues[i]), SettleEffect(s.ues[i])).(co := CoSkipUe(i + 1))
  }

  /** deregisterAll's first loop. */
  ghost predicate Plans(s: Run, t: Run, i: nat, alive: bool) {
    && s.co == CoPlan(i) && i < |s.ues| && s.ues[i].gnb < |s.gnbs|
    && t == if !s.ues[i].link || !s.gnbs[s.ues[i].gnb].assoc || !alive || s.abort
            then Change(s, i, s.ues[i], Nothing.(dereg := DoSkip)).(co := CoPlan(i + 1))
            else s.(ues := s.ues[i := s.ues[i].(todo := true)], left := s.left + 1, co := CoPlan(i + 1))
  }

  /** With nothing to deregister the stage is not run at all. */
  ghost predicate PlansEnd(s: Run, t: Run) {
    s.co == CoPlan(|s.ues|) && t == s.(co := if s.left == 0 then CoClose(0) else CoEnqueue(0))
  }

  ghost predicate Enqueues(s: Run, t: Run, i: nat) {
    && s.co == CoEnqueue(i) && i < |s.ues|
    && t == (if s.ues[i].todo then Pushed(s, i, Dereg) else s).(co := CoEnqueue(i + 1))
  }

  ghost predicate Closes(s: Run, t: Run, g: nat) {
    && s.co == CoClose(g) && g < |s.gnbs|
    && (var r := s.gnbs[g];
        t == (if r.conn then ChangeGnb(s, g, r.(conn := false, held := r.held + multiset{GAtt(RBegin)}), NoCall, NoCall)
              else ChangeGnb(s, g, r, NoCall, DoSkip)).(co := CoClose(g + 1)))
  }

  ghost predicate Execute(s: Run, t: Run, k: CoStep) {
    match k
    case GoOn(turn) => Ready(s, turn) && t == s.(co := NextCo(turn), disp := NextDisp(s.disp, turn))
    case N2Return => N2Returns(s, t)
    case DrainOne(p, i) => s.co == CoDrain && p != Dereg && i < |s.ues|
        && Taken(s, t, i, Move(Queued(p), Free, s.ues[i], Nothing))
    case SkipGnb(g) => SkipsGnb(s, t, g)
    case SkipUe(i) => Settles(s, t, i)
    case Plan(i, alive) => Plans(s, t, i, alive)
    case PlanEnd => PlansEnd(s, t)
    case Enqueue(i) => Enqueues(s, t, i)
    case CloseOne(g) => Closes(s, t, g)
  }

  // -------------------------------------------------------------------- runs

  datatype Action =
    | RequestStop
    | AbortCleanup
    | Coordinator(co: CoStep)
    | Dispatcher(p: Proc, disp: DispStep, i: nat)
    | RegAttempt(i: nat, reg: RegStep)
    | PduAttempt(i: nat, pdu: PduStep)
    | DeregAttempt(i: nat, dereg: DeregStep)
    | CpAttempt(i: nat, cp: CpStep)
    | CpLoopBody(loop: CpLoopStep)
    | N2Attempt(g: nat, n2: N2Step)
    | N2Dispatcher(g: nat, round: N2Round)
    | Watcher(g: nat, watch: WatchStep)
    | Closer(g: nat, close: CloseStep)

  ghost predicate Step(c: Config, s: Run, a: Action, t: Run) {
    match a
    case RequestStop => t == s.(ctxDone := true)
    case AbortCleanup => t == s.(abort := true)
    case Coordinator(k) => Execute(s, t, k)
    case Dispatcher(p, k, i) => Dispatch(s, t, p, k, i)
    case RegAttempt(i, k) => i < |s.ues| && Taken(s, t, i, RegMove(c, s.ctxDone, s.ues[i], k))
    case PduAttempt(i, k) => i < |s.ues| && Taken(s, t, i, PduMove(c, s.ctxDone, s.ues[i], k))
    case DeregAttempt(i, k) =>
      i < |s.ues| && (k.DDrain? ==> s.co == CoDeregDrain) && Taken(s, t, i, DeregMove(c, s.abort, s.ues[i], k))
    case CpAttempt(i, k) =>
      i < |s.ues| && s.ues[i].gnb < |s.gnbs| && (k == CEnter(true) ==> s.gnbs[s.ues[i].gnb].assoc)
      && Taken(s, t, i, CpMove(s.ctxDone, s.ues[i], k))
    case CpLoopBody(k) => CpLoop(s, t, k)
    case N2Attempt(g, k) => g < |s.gnbs| && GTaken(s, t, g, N2Move(c, s.ctxDone, s.gnbs[g], k))
    case N2Dispatcher(g, k) => g < |s.gnbs| && RunN2(s, t, g, k)
    case Watcher(g, k) => g < |s.gnbs| && WatchReady(s.gnbs[g], k)
        && t == ChangeGnb(s, g, Watched(s.ctxDone, s.gnbs[g], k), NoCall, NoCall)
    case Closer(g, k) => g < |s.gnbs| && GTaken(s, t, g, CloseMove(s.gnbs[g], k))
  }

  function NewGnb(): Gnb {
    Gnb(GnbPending, 0, multiset{GQueued}, 0, false, false, WNone, false, Zero(), Zero())
  }

  function NewUe(p: (nat, bool)): Ue {
    Ue(p.0, p.1, UePending, p.1, p.1, false, false, 0, 0, 0, false, false, multiset{},
        Book(Zero(), Zero(), Zero(), Zero(), Zero(), 0, 0))
  }

  /** newRun for a plan that gives each UE its gNB and says whether it is a control-plane UE. */
  ghost predicate Init(c: Config, s: Run, gnbs: nat, plan: seq<(nat, bool)>) {
    && s.co == CoConfig && !s.ctxDone && !s.abort
    && |s.gnbs| == gnbs && |s.ues| == |plan|
    && (forall g :: 0 <= g < gnbs ==>
          s.gnbs[g] == NewGnb())
    && (forall i :: 0 <= i < |plan| ==>
          plan[i].0 < gnbs && s.ues[i] == NewUe(plan[i]))
    && s.disp == Disps(Off, Off, Off, Off)
    && s.n2 == Zero() && s.reg == Zero() && s.pdu == Zero() && s.dereg == Zero()
    && s.cleanup == Zero() && s.release == Zero() && s.cpReg == Zero() && s.cpDereg == Zero()
    && s.summary == Summary(|plan|, 0, 0, 0, 0, 0, 0, 0, 0, 0)
    && s.tpLeft == c.throughput && s.tpCloses == (if c.throughput == 0 then 1 else 0)
    && s.left == 0 && !s.deregOver && s.n2Left == gnbs && s.n2Closes == 0 && s.n2Hand == -1
    && s.cpRegistered == 0 && s.cpCycles == 0
  }

  /** A finite run: states and the actions between them. */
  ghost predicate IsRun(c: Config, states: seq<Run>, actions: seq<Action>) {
    && |states| == |actions| + 1
    && forall j :: 0 <= j < |actions| ==> Step(c, states[j], actions[j], states[j + 1])
  }
}
