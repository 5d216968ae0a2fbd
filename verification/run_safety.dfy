/** Every step of a run keeps the invariant, hence it holds in every state of every run. */
module RunSafety {
  import opened MetricsStage
  import opened UeSummaries
  import opened RunModel
  import opened RunInvariant
  import opened RunPreserve
  import opened RunSteps
  import opened RunExecute
  import opened RunAttempts
  import opened RunGnbs

  lemma ExecuteKeeps(c: Config, s: Run, k: CoStep, t: Run)
    requires Inv(c, s) && Execute(s, t, k)
    ensures Inv(c, t)
  {
    hide Inv, Ready, NextCo, NextDisp, Taken, N2Returns, SkipsGnb, Settles, Plans, PlansEnd, Enqueues, Closes;
    match k
    case GoOn(turn) => TurnKeeps(c, s, t, turn);
    case N2Return => N2ReturnKeeps(c, s, t);
    case DrainOne(p, i) => DrainOneKeeps(c, s, t, p, i);
    case SkipGnb(g) => SkipGnbKeeps(c, s, t, g);
    case SkipUe(i) => SkipUeKeeps(c, s, t, i);
    case Plan(i, alive) => PlanKeeps(c, s, t, i, alive);
    case PlanEnd => PlanEndKeeps(c, s, t);
    case Enqueue(i) => EnqueueKeeps(c, s, t, i);
    case CloseOne(g) => CloseKeeps(c, s, t, g);
  }

  lemma CpLoopKeeps(c: Config, s: Run, k: CpLoopStep, t: Run)
    requires Inv(c, s) && CpLoop(s, t, k)
    ensures Inv(c, t)
  {
    hide Inv;
    if k.CpEnqueue? {
      CpEnqueueKeeps(c, s, t, k.i, t.ues[k.i]);
    } else {
      CpTurnKeeps(c, s, t, k);
    }
  }

  lemma DispatchKeeps(c: Config, s: Run, t: Run, p: Proc, k: DispStep, i: nat)
    requires Inv(c, s) && Dispatch(s, t, p, k, i)
    ensures Inv(c, t)
  {
    hide Inv, Dispatch;
    if k.PopStop? || k.Return? {
      DispatchStops(c, s, t, p, k, i);
    } else {
      DispatchMoves(c, s, t, p, k, i);
    }
  }

  /** The main lemma: no step of any goroutine breaks the invariant. */
  lemma StepKeeps(c: Config, s: Run, a: Action, t: Run)
    requires Inv(c, s) && Step(c, s, a, t)
    ensures Inv(c, t)
  {
    hide Inv, Execute, Dispatch, RegMove, PduMove, DeregMove, CpMove, CpLoop, N2Move, RunN2, WatchReady, ChangeGnb,
         CloseMove, Taken, GTaken;
    match a
    case RequestStop => StopKeeps(c, s, t);
    case AbortCleanup => StopKeeps(c, s, t);
    case Coordinator(k) => ExecuteKeeps(c, s, k, t);
    case Dispatcher(p, k, i) => DispatchKeeps(c, s, t, p, k, i);
    case RegAttempt(i, k) => RegKeeps(c, s, t, i, k);
    case PduAttempt(i, k) => PduKeeps(c, s, t, i, k);
    case DeregAttempt(i, k) => DeregKeeps(c, s, t, i, k);
    case CpAttempt(i, k) => CpKeeps(c, s, t, i, k);
    case CpLoopBody(k) => CpLoopKeeps(c, s, k, t);
    case N2Attempt(g, k) => N2Keeps(c, s, t, g, k);
    case N2Dispatcher(g, k) => RoundKeeps(c, s, t, g, k);
    case Watcher(g, k) => WatcherKeeps(c, s, t, g, k);
    case Closer(g, k) => CloserKeeps(c, s, t, g, k);
  }
}
