/**
 * The inductive invariant of a run: what each UE record may look like wherever
 * execute and the four dispatchers are, the same for each gNB, and that every
 * shared counter is the sum over the items of the calls made for them.
 */
module RunInvariant {
  import opened MetricsStage
  import opened UeSummaries
  import opened RunModel

  // ------------------------------------------------------------ where execute is

  function Rank(co: Co): nat {
    match co
    case CoConfig => 0 case CoFailed => 0
    case CoN2 => 1 case CoN2Wait => 2 case CoHeld => 3 case CoRunning => 4 case CoStopping => 5
    case CoDrain => 6 case CoSkipGnb(_) => 7 case CoSkipUe(_) => 8
    case CoPlan(_) => 9 case CoEnqueue(_) => 10 case CoDereg => 11 case CoDeregDrain => 12
    case CoClose(_) => 13 case CoCloseWait => 14 case CoStopped => 15
  }

  /** The stages may still run attempts. */
  predicate Pipes(co: Co) { 1 <= Rank(co) <= 5 }

  /** execute's loop with this rank has gone past index i. */
  predicate Past(co: Co, rank: nat, i: nat) {
    Rank(co) > rank || (Rank(co) == rank
        && (co.CoSkipGnb? || co.CoSkipUe? || co.CoPlan? || co.CoEnqueue? || co.CoClose?) && i < co.k)
  }

  predicate GnbSettled(co: Co, g: nat) { Past(co, 7, g) }
  predicate UeSettled(co: Co, i: nat) { Past(co, 8, i) }
  predicate Planned(co: Co, i: nat) { Past(co, 9, i) }
  predicate Listed(co: Co, i: nat) { Past(co, 10, i) }
  predicate Released(co: Co, g: nat) { Past(co, 13, g) }

  predicate Active(d: Disp) { d.Popping? || d.Holding? || d.Waiting? }

  function B(b: bool): nat { if b then 1 else 0 }

  // --------------------------------------------------------------- one UE

  /** What a UE's condition depends on besides its own record. */
  datatype Around = Around(co: Co, disp: Disps, cover: nat)

  function AroundOf(s: Run, i: nat): Around
    requires i < |s.ues| && s.ues[i].gnb < |s.gnbs|
  {
    Around(s.co, s.disp, s.gnbs[s.ues[i].gnb].cover)
  }

  /** The calls a stage got for one item: this many ended it, are open, began. */
  predicate Booked(k: Counters, ended: int, open: int, begun: int) {
    k.Ended() == ended && k.inFlight == open && k.Begun() == begun
  }

  predicate NoCpCalls(b: Book) {
    b.cpReg.inFlight == 0 && b.cpDereg.inFlight == 0 && b.registered == 0 && b.cycles == b.cpDereg.accepted
  }

  predicate Unplanned(u: Ue) { Booked(u.book.dereg, 0, 0, 0) && !u.todo && !u.counted && u.deregAttempts == 0 }

  /** The registration stage holds UE u at pc; Start also stands for its queue and hand. */
  predicate RegHolds(c: Config, a: Around, i: nat, u: Ue, pc: Pc) {
    var k, n := u.book.reg, u.regAttempts;
    && !u.cp && !u.pduDone && i < a.cover && Unplanned(u) && NoCpCalls(u.book) && u.pduAttempts == 0
    && (pc != FinLock ==> Booked(u.book.pdu, 0, 0, 0))
    && (u.regDone <==> pc == AccPush)
    && (match pc
        case Start => Booked(k, 0, 0, n) && u.state == UePending && n <= c.regRetries
        case Requeue => Booked(k, 0, 0, n) && u.state == UePending && n <= c.regRetries
        case Begin => Booked(k, 0, 0, n - 1) && u.state == UeRegistering
        case Wait => Booked(k, 0, 1, n) && u.state == UeRegistering
        case Acc => Booked(k, 0, 1, n) && u.state == UeRegistering
        case Fin => Booked(k, 0, 1, n) && u.state == UeRegistering
        case Retry => Booked(k, 0, 1, n) && u.state == UeRegistering && n <= c.regRetries
        case RetryLock => Booked(k, 0, 0, n) && u.state == UeRegistering && n <= c.regRetries
        case AccLock => Booked(k, 1, 0, n) && u.state == UeRegistering
        case AccPush => Booked(k, 1, 0, n) && u.state == UeRegistered
        case FinSkip => Booked(k, 1, 0, n) && u.state == UeRegistering
        case FinLock => Booked(k, 1, 0, n) && u.state == UeRegistering && Booked(u.book.pdu, 1, 0, 0)
        case _ => false)
  }

  predicate PduHolds(c: Config, a: Around, i: nat, u: Ue, pc: Pc) {
    var k, n := u.book.pdu, u.pduAttempts;
    && !u.cp && u.regDone && !u.pduDone && i < a.cover && Unplanned(u) && NoCpCalls(u.book)
    && Booked(u.book.reg, 1, 0, u.regAttempts)
    && (match pc
        case Start => Booked(k, 0, 0, n) && u.state == UeRegistered && n <= c.pduRetries
        case Requeue => Booked(k, 0, 0, n) && u.state == UeRegistered && n <= c.pduRetries
        case Begin => Booked(k, 0, 0, n - 1) && u.state == UeEstablishing
        case Wait => Booked(k, 0, 1, n) && u.state == UeEstablishing
        case Acc => Booked(k, 0, 1, n) && u.state == UeEstablishing
        case Fin => Booked(k, 0, 1, n) && u.state == UeEstablishing
        case Retry => Booked(k, 0, 1, n) && u.state == UeEstablishing && n <= c.pduRetries
        case RetryLock => Booked(k, 0, 0, n) && u.state == UeEstablishing && n <= c.pduRetries
        case AccLock => Booked(k, 1, 0, n) && u.state == UeEstablishing
        case FinLock => Booked(k, 1, 0, n) && u.state == UeEstablishing
        case _ => false)
  }

  predicate CpBooked(b: Book, regOpen: int, deregOpen: int, registered: int, uncounted: int) {
    b.cpReg.inFlight == regOpen && b.cpDereg.inFlight == deregOpen && b.registered == registered
    && b.cycles == b.cpDereg.accepted + uncounted
  }

  predicate CpHolds(u: Ue, pc: Pc) {
    && u.cp && u.regDone && u.pduDone && Unplanned(u) && u.regAttempts == 0 && u.pduAttempts == 0
    && Booked(u.book.reg, 0, 0, 0) && Booked(u.book.pdu, 0, 0, 0)
    && (match pc
        case CpStart => CpBooked(u.book, 0, 0, 0, 0)
            && (u.state == UePending || u.state == UeRegistered || u.state == UeSkipped)
        case CpBegin => CpBooked(u.book, 0, 0, 0, 0) && u.state == UeRegistering
        case CpRegWait => CpBooked(u.book, 1, 0, 0, 0) && u.state == UeRegistering
        case CpRegOk => CpBooked(u.book, 1, 0, 0, 0) && u.state == UeRegistering
        case CpRegFail => CpBooked(u.book, 1, 0, 0, 0) && u.state == UeRegistering
        case CpRegLock => CpBooked(u.book, 0, 0, 0, 0) && u.state == UeRegistering
        case CpHoldIn => CpBooked(u.book, 0, 0, 0, 0) && u.state == UeRegistered
        case CpHold => CpBooked(u.book, 0, 0, 1, 0) && u.state == UeRegistered
        case CpLeave => CpBooked(u.book, 0, 0, 1, 0) && u.state == UeRegistered
        case CpDeregLock => CpBooked(u.book, 0, 0, 1, 0) && u.state == UeRegistered
        case CpDeregBegin => CpBooked(u.book, 0, 0, 1, 0) && u.state == UeDeregistering
        case CpDeregWait => CpBooked(u.book, 0, 1, 1, 0) && u.state == UeDeregistering
        case CpDetach(_) => CpBooked(u.book, 0, 1, 1, 0) && u.state == UeDeregistering
        case CpCount(_) => CpBooked(u.book, 0, 1, 1, 0) && u.state == UeDeregistering
        case CpDeregFin(ok) => CpBooked(u.book, 0, 1, 0, B(ok)) && u.state == UeDeregistering
        case CpIdle(cycled) => CpBooked(u.book, 0, 0, 0, 0)
            && u.state == (if cycled then UeDeregistering else UeRegistering)
        case CpRet => CpBooked(u.book, 0, 0, 0, 0) && u.state == UePending
        case _ => false)
  }

  predicate CleanupDone(st: UeState) { st == UeDeregistered || st == UeCancelled || st == UeFailed }

  predicate CleaningUp(st: UeState) { st == UeDeregistering || st == UeFailed }

  predicate SettledState(st: UeState) {
    st == UeEstablished || st == UeFailed || st == UeSkipped || st == UeCancelled || st == UeDeregistered
  }

  /** skipUnfinished is done with the UE: both setup stages have ended it. */
  predicate Settled(u: Ue) {
    && u.regDone && u.pduDone && NoCpCalls(u.book) && (u.cp ==> u.regAttempts == 0 && u.pduAttempts == 0)
    && Booked(u.book.reg, B(!u.cp), 0, u.regAttempts) && Booked(u.book.pdu, B(!u.cp), 0, u.pduAttempts)
  }

  predicate DeregHolds(c: Config, a: Around, i: nat, u: Ue, pc: Pc) {
    var k, n := u.book.dereg, u.deregAttempts;
    && Settled(u) && u.todo && !u.counted && Listed(a.co, i)
    && (match pc
        case Start => Booked(k, 0, 0, n) && (SettledState(u.state) || u.state == UeDeregistering) && n <= c.deregRetries
        case Requeue => Booked(k, 0, 0, n) && CleaningUp(u.state) && n <= c.deregRetries
        case Begin => Booked(k, 0, 0, n - 1) && CleaningUp(u.state)
        case Wait => Booked(k, 0, 1, n) && CleaningUp(u.state)
        case Acc => Booked(k, 0, 1, n) && CleaningUp(u.state)
        case Fin => Booked(k, 0, 1, n) && CleaningUp(u.state)
        case Abort => Booked(k, 0, 1, n) && CleaningUp(u.state)
        case Retry => Booked(k, 0, 1, n) && CleaningUp(u.state) && n <= c.deregRetries
        case AccLock => Booked(k, 1, 0, n) && CleaningUp(u.state)
        case FinLock => Booked(k, 1, 0, n) && CleaningUp(u.state)
        case AbortLock => Booked(k, 1, 0, n) && CleaningUp(u.state)
        case Left => Booked(k, 1, 0, n) && CleanupDone(u.state)
        case _ => false)
  }

  predicate ProcHolds(c: Config, a: Around, i: nat, u: Ue, p: Proc, pc: Pc) {
    match p
    case Reg => RegHolds(c, a, i, u, pc)
    case Pdu => PduHolds(c, a, i, u, pc)
    case Cp => CpHolds(u, pc)
    case Dereg => DeregHolds(c, a, i, u, pc)
  }

  /** Attempts of stage p exist only while its dispatcher has not returned. */
  predicate Attempting(a: Around, p: Proc) {
    Active(a.disp.Get(p)) && (if p == Dereg then a.co == CoDereg else Pipes(a.co))
  }

  /** May stage p's queue hold UE i? */
  predicate Queueing(a: Around, p: Proc, i: nat) {
    if p == Dereg then 10 <= Rank(a.co) <= 12
    else (Pipes(a.co) || a.co == CoDrain) && (p == Cp ==> CpReached(a.disp.cp, i))
  }

  /** A control-plane UE is queued only once runCpLoop has come to it. */
  predicate CpReached(d: Disp, i: nat) { Active(d) || d == Done || (d.Enq? && i < d.k) }

  predicate Holds(c: Config, a: Around, i: nat, u: Ue, x: Place) {
    match x
    case Queued(p) => Queueing(a, p, i) && ProcHolds(c, a, i, u, p, StartPc(p))
    case InHand(p) => Attempting(a, p) && a.disp.Get(p) == Holding(i) && ProcHolds(c, a, i, u, p, StartPc(p))
    case Attempt(p, pc) => Attempting(a, p) && ProcHolds(c, a, i, u, p, pc)
    case Drained(skipped) =>
      && a.co == CoDeregDrain
      && (if skipped then Settled(u) && u.todo && !u.counted && Booked(u.book.dereg, 1, 0, u.deregAttempts)
          else DeregHolds(c, a, i, u, Start))
  }

  /**
   * Nothing holds the UE. Until skipUnfinished, a throughput UE whose gNB is up then has its
   * final PDU outcome: no UE is lost on the way.
   */
  predicate PipelineRest(a: Around, i: nat, u: Ue) {
    if UeSettled(a.co, i) then Settled(u) && SettledState(u.state)
    else
      && NoCpCalls(u.book)
      && Booked(u.book.reg, B(u.regDone && !u.cp), 0, u.regAttempts)
      && Booked(u.book.pdu, B(u.pduDone && !u.cp), 0, u.pduAttempts)
      && if u.cp then
           u.regDone && u.pduDone && (u.state == UePending || u.state == UeRegistered || u.state == UeSkipped)
           && u.regAttempts == 0 && u.pduAttempts == 0
         else
           && (u.pduDone ==> u.regDone)
           && (if u.pduDone then u.state == UeEstablished || u.state == UeFailed || u.state == UeSkipped
               else u.state == if u.regDone then UeRegistered else UePending)
           && (i >= a.cover ==> !u.regDone && u.regAttempts == 0 && u.pduAttempts == 0)
           && (i < a.cover && Rank(a.co) <= 5 ==> u.pduDone)
  }

  predicate CleanupRest(a: Around, i: nat, u: Ue) {
    if !Planned(a.co, i) then Unplanned(u)
    else if u.todo && !Listed(a.co, i) then Booked(u.book.dereg, 0, 0, 0) && !u.counted && u.deregAttempts == 0
    else
      && Booked(u.book.dereg, 1, 0, u.deregAttempts)
      && (if u.todo then CleanupDone(u.state) && (Rank(a.co) <= 11 ==> u.counted) else !u.counted)
  }

  /** No stage tries an item more often than its retries allow. */
  predicate Bounded(c: Config, u: Ue) {
    && u.regAttempts <= c.regRetries + 1
    && u.pduAttempts <= c.pduRetries + 1
    && u.deregAttempts <= c.deregRetries + 1
  }

  predicate SpotOk(c: Config, a: Around, i: nat, u: Ue, x: Spot) {
    && Bounded(c, u)
    && match x
       case Free => PipelineRest(a, i, u) && CleanupRest(a, i, u)
       case By(y) => Holds(c, a, i, u, y)
  }

  ghost function SpotOf(held: multiset<Place>): Spot {
    if held == multiset{} then Free else var x :| x in held; By(x)
  }

  ghost predicate UeOk(c: Config, a: Around, i: nat, u: Ue) {
    |u.held| <= 1 && SpotOk(c, a, i, u, SpotOf(u.held))
  }

  // --------------------------------------------------------------- one gNB

  datatype GAround = GAround(co: Co, hand: int, ues: nat)

  function GAroundOf(s: Run): GAround { GAround(s.co, s.n2Hand, |s.ues|) }

  predicate UpOrLost(st: GnbState) { st == GnbUp || st == GnbLost }

  /** The gNB was never connected. */
  predicate Untouched(r: Gnb) {
    !r.fin && r.cover == 0 && !r.conn && !r.assoc && r.watch == WNone && r.state == GnbPending
  }

  predicate N2Holds(c: Config, a: GAround, r: Gnb, pc: GPc) {
    var k, n := r.n2, r.attempts;
    && (a.co == CoN2 || a.co == CoN2Wait) && !r.fin && Booked(r.release, 0, 0, 0) && r.cover <= a.ues
    && (if pc == GEnq || pc == GDone then true else !r.conn && !r.assoc && r.watch == WNone)
    && (if pc == GDone then r.cover == a.ues else pc == GEnq || pc == GSkip || r.cover == 0)
    && (match pc
        case GStart => Booked(k, 0, 0, n) && r.state == GnbPending && n <= c.n2Retries
        case GRequeue => Booked(k, 0, 0, n) && r.state == GnbPending && n <= c.n2Retries
        case GBegin => Booked(k, 0, 0, n - 1) && r.state == GnbConnecting
        case GWait => Booked(k, 0, 1, n) && r.state == GnbConnecting
        case GOk => Booked(k, 0, 1, n) && r.state == GnbConnecting
        case GFail => Booked(k, 0, 1, n) && r.state == GnbConnecting
        case GRetry => Booked(k, 0, 1, n) && r.state == GnbConnecting && n <= c.n2Retries
        case GRetryLock => Booked(k, 0, 0, n) && r.state == GnbConnecting && n <= c.n2Retries
        case GUp => Booked(k, 1, 0, n) && r.state == GnbConnecting
        case GFailState => Booked(k, 1, 0, n) && r.state == GnbConnecting
        case GConn => Booked(k, 1, 0, n) && r.state == GnbUp
        case GEnq => Booked(k, 1, 0, n) && UpOrLost(r.state)
        case GSkip => Booked(k, 1, 0, n) && r.state == GnbFailed
        case GDone => Booked(k, 1, 0, n) && (UpOrLost(r.state) || r.state == GnbFailed)
        case _ => false)
  }

  predicate Closing(pc: GPc) { pc == RBegin || pc == RClose || pc == RState }

  predicate GHolds(c: Config, a: GAround, g: nat, r: Gnb, x: GPlace) {
    match x
    case GQueued =>
      Untouched(r) && r.attempts <= c.n2Retries && Booked(r.n2, B(GnbSettled(a.co, g)), 0, r.attempts)
      && Booked(r.release, B(Released(a.co, g)), 0, 0)
    case GHand =>
      a.co == CoN2 && a.hand == g && Untouched(r) && r.attempts <= c.n2Retries && Booked(r.n2, 0, 0, r.attempts)
      && Booked(r.release, 0, 0, 0)
    case GAtt(pc) =>
      if Closing(pc) then
        13 <= Rank(a.co) <= 14 && Released(a.co, g) && r.fin && Booked(r.n2, 1, 0, r.attempts) && !r.conn
            && r.cover == a.ues
        && r.state != GnbPending && r.state != GnbConnecting
        && Booked(r.release, B(pc == RState), B(pc == RClose), B(pc != RBegin))
      else N2Holds(c, a, r, pc)
  }

  /** No goroutine works on the gNB: it has its N2 outcome, or runN2 dropped it when Stop came. */
  predicate GRest(a: GAround, g: nat, r: Gnb) {
    && r.release.Ended() == B(Released(a.co, g)) && r.release.inFlight == 0
       && 0 <= r.release.Begun() <= B(Released(a.co, g))
    && (if r.fin then
          Booked(r.n2, 1, 0, r.attempts) && r.cover == a.ues && r.state != GnbPending && r.state != GnbConnecting
          && (Released(a.co, g) ==> !r.conn)
        else
          2 <= Rank(a.co) && Untouched(r) && Booked(r.n2, B(GnbSettled(a.co, g)), 0, r.attempts))
  }

  predicate GSpotOk(c: Config, a: GAround, g: nat, r: Gnb, x: GSpot) {
    && r.attempts <= c.n2Retries + 1
    && match x
       case GFree => GRest(a, g, r)
       case GBy(y) => GHolds(c, a, g, r, y)
  }

  ghost function GSpotOf(held: multiset<GPlace>): GSpot {
    if held == multiset{} then GFree else var x :| x in held; GBy(x)
  }

  ghost predicate GnbOk(c: Config, a: GAround, g: nat, r: Gnb) {
    |r.held| <= 1 && GSpotOk(c, a, g, r, GSpotOf(r.held))
  }

  // ---------------------------------------------------- counters as sums

  /** Everything the run counts about UEs. */
  datatype Ledger = Ledger(
    reg: Counters, pdu: Counters, dereg: Counters, cleanup: Counters, cpReg: Counters, cpDereg: Counters,
    registered: int, cycles: int, pduLeft: int, todoLeft: int, throughput: int)
  {
    function Plus(o: Ledger): Ledger {
      Ledger(reg.Plus(o.reg), pdu.Plus(o.pdu), dereg.Plus(o.dereg), cleanup.Plus(o.cleanup),
             cpReg.Plus(o.cpReg), cpDereg.Plus(o.cpDereg),
             registered + o.registered, cycles + o.cycles, pduLeft + o.pduLeft, todoLeft + o.todoLeft,
                 throughput + o.throughput)
    }
  }

  function NoLedger(): Ledger { Ledger(Zero(), Zero(), Zero(), Zero(), Zero(), Zero(), 0, 0, 0, 0, 0) }

  /** One UE's share. */
  function Share(u: Ue): Ledger {
    Ledger(u.book.reg, u.book.pdu, if u.cp then Zero() else u.book.dereg, if u.cp then u.book.dereg else Zero(),
           u.book.cpReg, u.book.cpDereg, u.book.registered, u.book.cycles,
           B(!u.pduDone), B(u.todo && !u.counted), B(!u.cp))
  }

  function Total(us: seq<Ue>): Ledger {
    if us == [] then NoLedger() else Total(us[..|us| - 1]).Plus(Share(us[|us| - 1]))
  }

  /** The counters a run keeps. */
  function Kept(c: Config, s: Run): Ledger {
    Ledger(s.reg, s.pdu, s.dereg, s.cleanup, s.cpReg, s.cpDereg, s.cpRegistered, s.cpCycles, s.tpLeft, s.left,
        c.throughput)
  }

  function StatesOf(us: seq<Ue>): seq<UeState> { seq(|us|, i requires 0 <= i < |us| => us[i].state) }

  /** UEs in state st. */
  function CountIn(us: seq<Ue>, st: UeState): nat { CountState(StatesOf(us), st) }

  /** Everything the run counts about gNBs. */
  datatype GLedger = GLedger(n2: Counters, release: Counters, left: int) {
    function Plus(o: GLedger): GLedger { GLedger(n2.Plus(o.n2), release.Plus(o.release), left + o.left) }
  }

  function GShare(r: Gnb): GLedger { GLedger(r.n2, r.release, B(!r.fin)) }

  function GTotal(rs: seq<Gnb>): GLedger {
    if rs == [] then GLedger(Zero(), Zero(), 0) else GTotal(rs[..|rs| - 1]).Plus(GShare(rs[|rs| - 1]))
  }

  // ------------------------------------------------------------ the whole run

  ghost predicate UesOk(c: Config, s: Run) {
    forall i :: 0 <= i < |s.ues| ==> s.ues[i].gnb < |s.gnbs| && UeOk(c, AroundOf(s, i), i, s.ues[i])
  }

  ghost predicate GnbsOk(c: Config, s: Run) {
    forall g :: 0 <= g < |s.gnbs| ==> GnbOk(c, GAroundOf(s), g, s.gnbs[g])
  }

  ghost predicate Balanced(c: Config, s: Run) {
    && Kept(c, s) == Total(s.ues)
    && GLedger(s.n2, s.release, s.n2Left) == GTotal(s.gnbs)
    && forall st: UeState :: s.summary.Of(st) == CountIn(s.ues, st)
  }

  ghost predicate Gates(s: Run) {
    && (s.disp.cp != Off ==> 3 <= Rank(s.co))
    && (s.disp.cp == Off || s.disp.cp == WaitTp || s.disp.cp == Done || s.tpLeft == 0)
    && (s.disp.dereg != Off ==> 11 <= Rank(s.co))
    && (s.disp.dereg == Off || Active(s.disp.dereg) || s.disp.dereg == Done)
    && (s.disp.reg == Off || Active(s.disp.reg) || s.disp.reg == Done)
    && (s.disp.pdu == Off || Active(s.disp.pdu) || s.disp.pdu == Done)
    && (s.disp.cp.Enq? ==> s.disp.cp.k <= |s.ues|)
    && (Rank(s.co) == 0 ==> s.disp == Disps(Off, Off, Off, Off))
    && (6 <= Rank(s.co) ==> Joined(s.disp.reg) && Joined(s.disp.pdu) && Joined(s.disp.cp))
    && (s.co == CoDereg ==> s.disp.dereg != Off)
    && (12 <= Rank(s.co) ==> Joined(s.disp.dereg))
    && (5 <= Rank(s.co) ==> s.ctxDone)
    && s.tpCloses == B(s.tpLeft == 0)
    && s.n2Closes == B(s.n2Left == 0 && |s.gnbs| > 0)
    && (Rank(s.co) < 10 ==> !s.deregOver)
    && (10 <= Rank(s.co) <= 12 ==> (s.deregOver <==> s.left == 0))
    && (s.n2Hand == -1 || (s.co == CoN2 && 0 <= s.n2Hand < |s.gnbs| && GHand in s.gnbs[s.n2Hand].held))
    && (match s.co
        case CoSkipGnb(k) => k <= |s.gnbs|
        case CoSkipUe(k) => k <= |s.ues|
        case CoPlan(k) => k <= |s.ues|
        case CoEnqueue(k) => k <= |s.ues|
        case CoClose(k) => k <= |s.gnbs|
        case _ => true)
  }

  ghost predicate Inv(c: Config, s: Run) {
    UesOk(c, s) && GnbsOk(c, s) && Balanced(c, s) && Gates(s)
  }

  // --------------------------------------------------------- sums, one change

  lemma LedgerSwaps(a: Ledger, b: Ledger, x: Ledger)
    ensures a.Plus(b).Plus(x) == a.Plus(x).Plus(b)
  {
    PlusSwaps(a.reg, b.reg, x.reg);
    PlusSwaps(a.pdu, b.pdu, x.pdu);
    PlusSwaps(a.dereg, b.dereg, x.dereg);
    PlusSwaps(a.cleanup, b.cleanup, x.cleanup);
    PlusSwaps(a.cpReg, b.cpReg, x.cpReg);
    PlusSwaps(a.cpDereg, b.cpDereg, x.cpDereg);
    hide Counters.Plus;
  }

  lemma LedgerCancels(a: Ledger, b: Ledger, x: Ledger)
    requires a.Plus(x) == b.Plus(x)
    ensures a == b
  {
    PlusCancels(a.reg, b.reg, x.reg);
    PlusCancels(a.pdu, b.pdu, x.pdu);
    PlusCancels(a.dereg, b.dereg, x.dereg);
    PlusCancels(a.cleanup, b.cleanup, x.cleanup);
    PlusCancels(a.cpReg, b.cpReg, x.cpReg);
    PlusCancels(a.cpDereg, b.cpDereg, x.cpDereg);
    hide Counters.Plus;
  }

  /** Replacing u by v in a sum: what v adds over u, as an equation without subtraction. */
  lemma {:induction false} TotalUpdate(us: seq<Ue>, i: nat, v: Ue)
    requires i < |us|
    ensures Total(us[i := v]).Plus(Share(us[i])) == Total(us).Plus(Share(v))
  {
    hide Share, Ledger.Plus;
    var n := |us| - 1;
    var front, last := Total(us[..n]), Share(us[n]);
    if i == n {
      assert us[i := v][..n] == us[..n];
      LedgerSwaps(front, last, Share(v));
    } else {
      TotalUpdate(us[..n], i, v);
      assert us[i := v][..n] == us[..n][i := v];
      LedgerSwaps(Total(us[..n][i := v]), last, Share(us[i]));
      LedgerSwaps(front, last, Share(v));
    }
  }

  lemma CountInUpdate(us: seq<Ue>, i: nat, v: Ue, st: UeState)
    requires i < |us|
    ensures CountIn(us[i := v], st) == CountIn(us, st) - B(us[i].state == st) + B(v.state == st)
  {
    CountStateUpdate(StatesOf(us), i, v.state, st);
    assert StatesOf(us[i := v]) == StatesOf(us)[i := v.state];
  }

  lemma GLedgerSwaps(a: GLedger, b: GLedger, x: GLedger)
    ensures a.Plus(b).Plus(x) == a.Plus(x).Plus(b)
  {
    PlusSwaps(a.n2, b.n2, x.n2);
    PlusSwaps(a.release, b.release, x.release);
    hide Counters.Plus;
  }

  lemma GTotalOf(rs: seq<Gnb>, n: nat)
    requires |rs| == n + 1
    ensures GTotal(rs) == GTotal(rs[..n]).Plus(GShare(rs[n]))
  {
  }

  lemma {:induction false} GTotalUpdate(rs: seq<Gnb>, g: nat, r: Gnb)
    requires g < |rs|
    ensures GTotal(rs[g := r]).Plus(GShare(rs[g])) == GTotal(rs).Plus(GShare(r))
  {
    hide GShare, GTotal, GLedger.Plus;
    var n := |rs| - 1;
    GTotalOf(rs, n);
    GTotalOf(rs[g := r], n);
    if g == n {
      assert rs[g := r][..n] == rs[..n];
      GLedgerSwaps(GTotal(rs[..n]), GShare(r), GShare(rs[g]));
    } else {
      GTotalUpdate(rs[..n], g, r);
      assert rs[g := r][..n] == rs[..n][g := r];
      GLedgerSwaps(GTotal(rs[..n][g := r]), GShare(rs[n]), GShare(rs[g]));
      GLedgerSwaps(GTotal(rs[..n]), GShare(rs[n]), GShare(r));
    }
  }

  /** The gates count UEs, so they are never negative, and a UE they count keeps them positive. */
  lemma {:induction false} TotalGates(us: seq<Ue>, i: nat)
    ensures 0 <= Total(us).pduLeft && 0 <= Total(us).todoLeft
    ensures i < |us| && !us[i].pduDone ==> 1 <= Total(us).pduLeft
    ensures i < |us| && us[i].todo && !us[i].counted ==> 1 <= Total(us).todoLeft
  {
    hide Counters.Plus;
    if us != [] {
      TotalGates(us[..|us| - 1], i);
    }
  }

  lemma {:induction false} GTotalLeft(rs: seq<Gnb>, g: nat)
    ensures 0 <= GTotal(rs).left
    ensures g < |rs| && !rs[g].fin ==> 1 <= GTotal(rs).left
  {
    hide Counters.Plus;
    if rs != [] {
      GTotalLeft(rs[..|rs| - 1], g);
    }
  }

  /** A multiset of at most one element is what it contains. */
  lemma Sole<T>(h: multiset<T>, x: T)
    requires |h| <= 1 && x in h
    ensures h == multiset{x} && h - multiset{x} == multiset{}
  {
    assert h == multiset{x} + (h - multiset{x});
    assert |h - multiset{x}| == 0;
  }
}
