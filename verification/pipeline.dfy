/**
 * One paced dispatcher, its attempts and the clock: a stage's (tester/run/pipeline.go), and runN2's
 * (tester/run/controller.go), which drops a popped gNB when it is stopped and returns when all are done.
 */
module Pipeline {
  import opened Basics

  /** The dispatcher's place in run, with the UE it has popped. */
  datatype Phase = Popping | Pacing(ue: int) | Acquiring(ue: int) | Waiting | Returned {
    function Hand(x: int): nat { if (Pacing? || Acquiring?) && ue == x then 1 else 0 }
  }

  /** tokens and starts are the times at which a token was taken and an attempt started, for the proofs only. */
  datatype Stage = Stage(
    now: real, next: real, phase: Phase, ctxDone: bool,
    queue: multiset<int>, running: multiset<int>, slots: nat,
    enqueued: multiset<int>, ended: multiset<int>, dropped: multiset<int>,
    tokens: seq<real>, starts: seq<real>)

  /** n2: the dispatcher is runN2's. */
  datatype Rate = Rate(interval: real, maxInFlight: nat, n2: bool)

  datatype StageStep =
    | Tick(d: real) | Enqueue(ue: int) | Stop
    | Pop(ue: int) | PopStop | TakeToken | PaceStop | Launch | AcquireStop | Return
    | AttemptEnds(ue: int, retry: bool) | Release

  /** The dispatcher stops with a popped UE: run puts it back, runN2 drops it. */
  function GaveUp(r: Rate, s: Stage, ue: int): Stage {
    if r.n2 then s.(phase := Waiting, dropped := s.dropped + multiset{ue})
    else s.(phase := Waiting, queue := s.queue + multiset{ue})
  }

  ghost predicate Step(r: Rate, s: Stage, k: StageStep, t: Stage) {
    match k
    case Tick(d) => d > 0.0 && t == s.(now := s.now + d)
    case Enqueue(ue) => t == s.(queue := s.queue + multiset{ue}, enqueued := s.enqueued + multiset{ue})
    case Stop => t == s.(ctxDone := true)
    case Pop(ue) => s.phase == Popping && ue in s.queue && t == s.(queue := s.queue - multiset{ue}, phase := Pacing(ue))
    case PopStop =>
      s.phase == Popping && (s.ctxDone || (r.n2 && s.ended == s.enqueued)) && t == s.(phase := Waiting)
    case TakeToken =>
      s.phase.Pacing? && s.now >= s.next
      && t == s.(phase := Acquiring(s.phase.ue), next := RealMax(s.next, s.now) + r.interval,
                 tokens := s.tokens + [s.now])
    case PaceStop => s.phase.Pacing? && s.ctxDone && t == GaveUp(r, s, s.phase.ue)
    case Launch =>
      s.phase.Acquiring? && s.slots < r.maxInFlight
      && t == s.(phase := Popping, slots := s.slots + 1, running := s.running + multiset{s.phase.ue},
         starts := s.starts + [s.now])
    case AcquireStop => s.phase.Acquiring? && s.ctxDone && t == GaveUp(r, s, s.phase.ue)
    case Return => s.phase == Waiting && s.slots == 0 && t == s.(phase := Returned)
    case AttemptEnds(ue, retry) =>
      ue in s.running
      && t == s.(running := s.running - multiset{ue},
                 queue := if retry then s.queue + multiset{ue} else s.queue,
                 ended := if retry then s.ended else s.ended + multiset{ue})
    case Release => s.slots > |s.running| && t == s.(slots := s.slots - 1)
  }

  ghost predicate Init(s: Stage) {
    s == Stage(s.now, s.now, Popping, false, multiset{}, multiset{}, 0, multiset{}, multiset{}, multiset{}, [], [])
  }

  ghost predicate IsRun(r: Rate, states: seq<Stage>, steps: seq<StageStep>) {
    && |states| == |steps| + 1 && Init(states[0])
    && forall n :: 0 <= n < |steps| ==> Step(r, states[n], steps[n], states[n + 1])
  }

  // ------------------------------------------------------ who has each UE

  /**
   * Every UE enqueued is queued, in the dispatcher's hand, in an attempt, dropped, or its last attempt wanted
   * no retry.
   */
  ghost predicate Conserved(s: Stage) {
    forall x: int :: ConservedOf(s, x)
  }

  predicate ConservedOf(s: Stage, x: int) {
    s.enqueued[x] == s.queue[x] + s.phase.Hand(x) + s.running[x] + s.ended[x] + s.dropped[x]
  }

  ghost predicate Kept(r: Rate, s: Stage) {
    Conserved(s) && Bounded(r, s)
  }

  /** Permits bound the attempts, and runN2 drops at most one gNB, as it stops. */
  predicate Bounded(r: Rate, s: Stage) {
    && |s.running| <= s.slots <= r.maxInFlight && (s.phase == Returned ==> s.slots == 0)
    && |s.dropped| <= (if r.n2 && (s.phase == Waiting || s.phase == Returned) then 1 else 0)
  }

  lemma OneLess(m: multiset<int>, ue: int)
    requires ue in m
    ensures |m - multiset{ue}| == |m| - 1
  {
  }

  lemma StillConserved(s: Stage, k: StageStep, t: Stage, r: Rate)
    requires Conserved(s) && Step(r, s, k, t)
    ensures Conserved(t)
  {
    hide Step, ConservedOf;
    forall x: int ensures ConservedOf(t, x) {
      ConservedAt(s, k, t, r, x);
    }
  }

  lemma ConservedAt(s: Stage, k: StageStep, t: Stage, r: Rate, x: int)
    requires ConservedOf(s, x) && Step(r, s, k, t)
    ensures ConservedOf(t, x)
  {
    hide GaveUp;
    match k
    case PaceStop => GaveUpAt(r, s, x);
    case AcquireStop => GaveUpAt(r, s, x);
    case AttemptEnds(ue, retry) => EndedAt(r, s, t, ue, retry, x);
    case _ =>
  }

  lemma GaveUpAt(r: Rate, s: Stage, x: int)
    requires ConservedOf(s, x) && (s.phase.Pacing? || s.phase.Acquiring?)
    ensures ConservedOf(GaveUp(r, s, s.phase.ue), x)
  {
  }

  lemma EndedAt(r: Rate, s: Stage, t: Stage, ue: int, retry: bool, x: int)
    requires ConservedOf(s, x) && Step(r, s, AttemptEnds(ue, retry), t)
    ensures ConservedOf(t, x)
  {
  }

  lemma StillBounded(r: Rate, s: Stage, k: StageStep, t: Stage)
    requires Bounded(r, s) && Step(r, s, k, t)
    ensures Bounded(r, t)
  {
    if k.AttemptEnds? {
      OneLess(s.running, k.ue);
    } else if k.PaceStop? || k.AcquireStop? {
      assert |s.dropped + multiset{s.phase.ue}| == |s.dropped| + 1;
    } else if k.Launch? {
      assert |s.running + multiset{s.phase.ue}| == |s.running| + 1;
    } else {
      assert t.running == s.running && t.dropped == s.dropped;
    }
  }

  lemma StillKept(r: Rate, s: Stage, k: StageStep, t: Stage)
    requires Kept(r, s) && Step(r, s, k, t)
    ensures Kept(r, t)
  {
    hide Conserved, Bounded;
    StillConserved(s, k, t, r);
    StillBounded(r, s, k, t);
  }

  // ---------------------------------------------------------------- pacing

  /** Tokens are an interval apart; each attempt starts between its token and the next one. */
  ghost predicate Paced(r: Rate, s: Stage) {
    var n, m := |s.tokens|, |s.starts|;
    && (n > 0 ==> s.next == s.tokens[n - 1] + r.interval)
    && (if s.phase.Popping? || s.phase.Pacing? then n == m else if s.phase.Acquiring? then n == m + 1
       else m <= n <= m + 1)
    && (forall k :: 0 <= k < n ==> s.tokens[k] <= s.now && s.tokens[k] + r.interval <= s.next)
    && (forall k, l :: 0 <= k && l == k + 1 && l < n ==> s.tokens[k] + r.interval <= s.tokens[l])
    && (forall k :: 0 <= k < m ==> s.tokens[k] <= s.starts[k] <= s.now)
    && (forall k, l :: 0 <= k < m && l == k + 1 && l < n ==> s.starts[k] <= s.tokens[l])
  }

  lemma TokenPaced(r: Rate, s: Stage, t: Stage)
    requires r.interval >= 0.0 && Paced(r, s) && Step(r, s, TakeToken, t)
    ensures Paced(r, t)
  {
  }

  lemma LaunchPaced(r: Rate, s: Stage, t: Stage)
    requires Paced(r, s) && Step(r, s, Launch, t)
    ensures Paced(r, t)
  {
  }

  lemma OthersPaced(r: Rate, s: Stage, k: StageStep, t: Stage)
    requires Paced(r, s) && Step(r, s, k, t) && !k.TakeToken? && !k.Launch?
    ensures Paced(r, t)
  {
    assert t.tokens == s.tokens && t.starts == s.starts && t.next == s.next && t.now >= s.now;
  }

  lemma StepKeeps(r: Rate, s: Stage, k: StageStep, t: Stage)
    requires r.interval >= 0.0 && Kept(r, s) && Paced(r, s) && Step(r, s, k, t)
    ensures Kept(r, t) && Paced(r, t)
  {
    hide Step, Kept, Paced;
    StillKept(r, s, k, t);
    match k
    case TakeToken => TokenPaced(r, s, t);
    case Launch => LaunchPaced(r, s, t);
    case _ => OthersPaced(r, s, k, t);
  }

  lemma {:induction false} InEveryState(r: Rate, states: seq<Stage>, steps: seq<StageStep>, n: nat)
    requires r.interval >= 0.0 && IsRun(r, states, steps) && n < |states|
    ensures Kept(r, states[n]) && Paced(r, states[n])
  {
    hide Step, Kept, Paced;
    if n == 0 {
      Starts(r, states[0]);
    } else {
      InEveryState(r, states, steps, n - 1);
      StepKeeps(r, states[n - 1], steps[n - 1], states[n]);
    }
  }

  lemma Starts(r: Rate, s: Stage)
    requires Init(s)
    ensures Kept(r, s) && Paced(r, s)
  {
  }

  /** However many run at once, never more than MaxInFlight. */
  lemma NeverAboveMaxInFlight(r: Rate, states: seq<Stage>, steps: seq<StageStep>, n: nat)
    requires r.interval >= 0.0 && IsRun(r, states, steps) && n < |states|
    ensures |states[n].running| <= r.maxInFlight
  {
    InEveryState(r, states, steps, n);
  }

  /**
   * After run has returned, what drain finds is exactly the UEs enqueued whose last attempt did not
   * end them, or that never ran.
   */
  lemma DrainFindsTheRest(r: Rate, states: seq<Stage>, steps: seq<StageStep>, n: nat)
    requires r.interval >= 0.0 && !r.n2 && IsRun(r, states, steps) && n < |states| && states[n].phase == Returned
    ensures states[n].enqueued == states[n].queue + states[n].ended
  {
    InEveryState(r, states, steps, n);
    var s := states[n];
    assert s.running == multiset{} && s.dropped == multiset{};
    forall x: int ensures s.enqueued[x] == (s.queue + s.ended)[x] {
      assert ConservedOf(s, x);
    }
  }

  /** After runN2 has returned, every gNB has its outcome or is left pending: still queued, and at most one dropped. */
  lemma RoundLeavesTheRest(r: Rate, states: seq<Stage>, steps: seq<StageStep>, n: nat)
    requires r.interval >= 0.0 && IsRun(r, states, steps) && n < |states| && states[n].phase == Returned
    ensures states[n].enqueued == states[n].queue + states[n].dropped + states[n].ended && |states[n].dropped| <= 1
  {
    InEveryState(r, states, steps, n);
    var s := states[n];
    assert s.running == multiset{};
    forall x: int ensures s.enqueued[x] == (s.queue + s.dropped + s.ended)[x] {
      assert ConservedOf(s, x);
    }
  }

  function Span(k: int, interval: real): real { k as real * interval }

  lemma SpanMore(k: int, interval: real)
    ensures Span(k + 1, interval) == Span(k, interval) + interval
    ensures interval >= 0.0 && k <= 0 ==> Span(k, interval) <= 0.0
  {
  }

  lemma SpanOrder(k: int, l: int, interval: real)
    requires interval >= 0.0 && k <= l
    ensures Span(k, interval) <= Span(l, interval)
  {
    assert (l - k) as real * interval >= 0.0;
    assert l as real * interval == k as real * interval + (l - k) as real * interval;
  }

  lemma {:induction false} TokenGaps(r: Rate, s: Stage, i: nat, j: nat)
    requires r.interval >= 0.0 && Paced(r, s) && i <= j < |s.tokens|
    ensures Span(j - i, r.interval) <= s.tokens[j] - s.tokens[i]
    decreases j - i
  {
    SpanMore(j - i - 1, r.interval);
    SpanMore(0, r.interval);
    hide Span;
    if i < j {
      TokenGaps(r, s, i, j - 1);
    }
  }

  /** Attempts started in the window [a, b]. */
  ghost function Started(s: Stage, a: real, b: real): set<nat> {
    set k: nat | k < |s.starts| && a <= s.starts[k] <= b
  }

  lemma {:induction false} RangeSize(ks: set<nat>, lo: nat, hi: nat)
    requires lo <= hi && forall k :: k in ks ==> lo <= k < hi
    ensures |ks| <= hi - lo
    decreases hi
  {
    if lo == hi {
      assert ks == {};
    } else {
      var last: nat := hi - 1;
      RangeSize(ks - {last}, lo, last);
      assert ks <= (ks - {last}) + {last};
    }
  }

  lemma WindowOf(r: Rate, s: Stage, a: real, b: real, i: nat, j: nat)
    requires r.interval > 0.0 && Paced(r, s) && i <= j < |s.starts| && a <= s.starts[i] && s.starts[j] <= b
    ensures a <= b ==> Span(j - i - 1, r.interval) <= b - a
  {
    SpanMore(j - i - 1, r.interval);
    hide Span;
    if i < j {
      TokenGaps(r, s, i + 1, j);
      assert s.starts[i] <= s.tokens[i + 1] && s.tokens[j] <= s.starts[j];
    }
  }

  /**
   * In any window of length L a stage starts at most L/interval + 2 attempts, even when the semaphore
   * delays some of them.
   */
  lemma WindowBound(r: Rate, states: seq<Stage>, steps: seq<StageStep>, n: nat, a: real, b: real)
    requires r.interval > 0.0 && IsRun(r, states, steps) && n < |states| && a <= b
    ensures Span(|Started(states[n], a, b)| - 2, r.interval) <= b - a
  {
    var s := states[n];
    var ks := Started(s, a, b);
    InEveryState(r, states, steps, n);
    hide Span, Kept, Paced, IsRun;
    SpanMore(|ks| - 2, r.interval);
    if ks != {} {
      var i: nat, j: nat := Least(ks), Greatest(ks);
      assert i in ks && j in ks;
      RangeSize(ks, i, j + 1);
      WindowOf(r, s, a, b, i, j);
      SpanOrder(|ks| - 2, j - i - 1, r.interval);
    }
  }

  /** Two starts with another one between them are at least an interval apart. */
  lemma EverySecondStart(r: Rate, states: seq<Stage>, steps: seq<StageStep>, n: nat, k: nat)
    requires r.interval >= 0.0 && IsRun(r, states, steps) && n < |states| && k + 2 < |states[n].starts|
    ensures states[n].starts[k] + r.interval <= states[n].starts[k + 2]
  {
    InEveryState(r, states, steps, n);
    var s := states[n];
    assert s.tokens[k + 1] + r.interval <= s.tokens[k + 2];
  }

  // ------------------------------------ when every start is an interval apart

  /** The last start was made at once, when its token was taken: the semaphore had a free slot. */
  predicate Prompt(s: Stage) { |s.tokens| == |s.starts| > 0 && s.starts[|s.starts| - 1] == s.tokens[|s.starts| - 1] }

  /** The first run and then some. */
  ghost predicate GoesOn(r: Rate, states: seq<Stage>, steps: seq<StageStep>, more: seq<Stage>,
                         moreSteps: seq<StageStep>)
  {
    IsRun(r, more, moreSteps) && states <= more && steps <= moreSteps
  }

  /** Start k + 1, if there is one, is an interval after start k. */
  predicate Spaced(r: Rate, s: Stage, k: nat) { k + 1 < |s.starts| ==> s.starts[k] + r.interval <= s.starts[k + 1] }

  ghost predicate AlwaysSpaced(r: Rate, states: seq<Stage>, steps: seq<StageStep>, k: nat)
    requires |states| > 0
  {
    forall more, moreSteps :: GoesOn(r, states, steps, more, moreSteps) ==> Spaced(r, more[|more| - 1], k)
  }

  lemma StartsStay(r: Rate, s: Stage, k: StageStep, t: Stage)
    requires Step(r, s, k, t)
    ensures s.starts <= t.starts && s.tokens <= t.tokens
  {
  }

  lemma {:induction false} StartsKept(r: Rate, states: seq<Stage>, steps: seq<StageStep>, m: nat, n: nat)
    requires IsRun(r, states, steps) && m <= n < |states|
    ensures states[m].starts <= states[n].starts && states[m].tokens <= states[n].tokens
  {
    hide Step, Init;
    if m < n {
      StartsKept(r, states, steps, m, n - 1);
      StartsStay(r, states[n - 1], steps[n - 1], states[n]);
    }
  }

  /** A start made at once is followed by the next one an interval later, or more. */
  lemma PromptIsSpaced(r: Rate, states: seq<Stage>, steps: seq<StageStep>, m: nat, n: nat)
    requires r.interval >= 0.0 && IsRun(r, states, steps) && m <= n < |states| && Prompt(states[m])
    ensures Spaced(r, states[n], |states[m].starts| - 1)
  {
    hide Step, Init, IsRun, Kept;
    StartsKept(r, states, steps, m, n);
    InEveryState(r, states, steps, n);
  }

  lemma OneStep(r: Rate, states: seq<Stage>, steps: seq<StageStep>, more: seq<Stage>, moreSteps: seq<StageStep>,
                k: StageStep, t: Stage)
    requires GoesOn(r, states, steps, more, moreSteps) && Step(r, more[|more| - 1], k, t)
    ensures GoesOn(r, states, steps, more + [t], moreSteps + [k])
  {
    hide Step, Init;
  }

  /** One more UE is enqueued and popped, and its token is taken as soon as it is due. */
  lemma NextToken(r: Rate, states: seq<Stage>, steps: seq<StageStep>)
    returns (more: seq<Stage>, moreSteps: seq<StageStep>)
    requires IsRun(r, states, steps) && states[|states| - 1].phase == Popping
    ensures GoesOn(r, states, steps, more, moreSteps)
    ensures var s, t := states[|states| - 1], more[|more| - 1];
            t.phase.Acquiring? && t.starts == s.starts && t.running == s.running && t.slots == s.slots
            && t.now == RealMax(s.now, s.next) && t.next == t.now + r.interval
  {
    var s := states[|states| - 1];
    more, moreSteps := states, steps;
    hide GoesOn, IsRun;
    StartOver(r, states, steps);
    var a := s.(queue := s.queue + multiset{0}, enqueued := s.enqueued + multiset{0});
    OneStep(r, states, steps, more, moreSteps, Enqueue(0), a);
    more, moreSteps := more + [a], moreSteps + [Enqueue(0)];
    var b := a.(queue := a.queue - multiset{0}, phase := Pacing(0));
    OneStep(r, states, steps, more, moreSteps, Pop(0), b);
    more, moreSteps := more + [b], moreSteps + [Pop(0)];
    var c := b.(now := RealMax(s.now, s.next));
    if s.now < s.next {
      assert c == b.(now := b.now + (s.next - s.now));
      OneStep(r, states, steps, more, moreSteps, Tick(s.next - s.now), c);
      more, moreSteps := more + [c], moreSteps + [Tick(s.next - s.now)];
    }
    var d := c.(phase := Acquiring(0), next := RealMax(c.next, c.now) + r.interval, tokens := c.tokens + [c.now]);
    OneStep(r, states, steps, more, moreSteps, TakeToken, d);
    more, moreSteps := more + [d], moreSteps + [TakeToken];
  }

  lemma StartOver(r: Rate, states: seq<Stage>, steps: seq<StageStep>)
    requires IsRun(r, states, steps)
    ensures GoesOn(r, states, steps, states, steps)
  {
  }

  /** An attempt ends, and the slot it frees is taken at once. */
  lemma NextLaunch(r: Rate, states: seq<Stage>, steps: seq<StageStep>, was: seq<Stage>, wasSteps: seq<StageStep>,
                   ue: int)
    returns (more: seq<Stage>, moreSteps: seq<StageStep>)
    requires GoesOn(r, states, steps, was, wasSteps) && was[|was| - 1].phase.Acquiring? && ue in was[|was| - 1].running
    requires |was[|was| - 1].running| <= was[|was| - 1].slots <= r.maxInFlight
    ensures GoesOn(r, states, steps, more, moreSteps) && moreSteps != [] && moreSteps[|moreSteps| - 1] == Launch
    ensures var s, t := was[|was| - 1], more[|more| - 1];
            t.starts == s.starts + [s.now] && t.now == s.now && t.next == s.next
  {
    var s := was[|was| - 1];
    more, moreSteps := was, wasSteps;
    hide GoesOn;
    OneLess(s.running, ue);
    var a := s.(running := s.running - multiset{ue}, queue := s.queue, ended := s.ended + multiset{ue});
    OneStep(r, states, steps, more, moreSteps, AttemptEnds(ue, false), a);
    more, moreSteps := more + [a], moreSteps + [AttemptEnds(ue, false)];
    var b := a.(slots := a.slots - 1);
    OneStep(r, states, steps, more, moreSteps, Release, b);
    more, moreSteps := more + [b], moreSteps + [Release];
    var c := b.(phase := Popping, slots := b.slots + 1, running := b.running + multiset{b.phase.ue},
                starts := b.starts + [b.now]);
    OneStep(r, states, steps, more, moreSteps, Launch, c);
    more, moreSteps := more + [c], moreSteps + [Launch];
  }

  /** After a start that the semaphore held up, the next one can come too early, as soon as its token is due. */
  lemma DelayedComesClose(r: Rate, states: seq<Stage>, steps: seq<StageStep>)
    returns (more: seq<Stage>, moreSteps: seq<StageStep>)
    requires !r.n2 && r.interval > 0.0 && IsRun(r, states, steps) && steps != [] && steps[|steps| - 1] == Launch
    ensures GoesOn(r, states, steps, more, moreSteps)
    ensures var s, t := states[|states| - 1], more[|more| - 1];
            t.starts == s.starts + [RealMax(s.now, s.next)] && t.now == RealMax(s.now, s.next)
            && |s.starts| > 0 && s.starts[|s.starts| - 1] == s.now
            && (!Prompt(s) ==> RealMax(s.now, s.next) < s.now + r.interval)
  {
    hide Step;
    var s := states[|states| - 1];
    InEveryState(r, states, steps, |states| - 1);
    var ue := JustStarted(r, states, steps);
    var was, wasSteps := NextToken(r, states, steps);
    InEveryState(r, was, wasSteps, |was| - 1);
    hide Paced, IsRun, GoesOn;
    more, moreSteps := NextLaunch(r, states, steps, was, wasSteps, ue);
  }

  lemma JustStarted(r: Rate, states: seq<Stage>, steps: seq<StageStep>) returns (ue: int)
    requires IsRun(r, states, steps) && steps != [] && steps[|steps| - 1] == Launch
    ensures var s := states[|states| - 1];
            s.phase == Popping && ue in s.running && |s.starts| > 0 && s.starts[|s.starts| - 1] == s.now
  {
    var n := |steps| - 1;
    assert Step(r, states[n], steps[n], states[n + 1]);
    ue := states[n].phase.ue;
  }

  /**
   * Exactly the starts that were made at once are always followed by the next one an interval later:
   * whenever the semaphore held a start up, however little, the run can go on with a start too early.
   */
  lemma SpacedIfPrompt(r: Rate, states: seq<Stage>, steps: seq<StageStep>)
    requires !r.n2 && r.interval > 0.0 && IsRun(r, states, steps) && steps != [] && steps[|steps| - 1] == Launch
    ensures var s := states[|states| - 1];
            |s.starts| > 0 && (AlwaysSpaced(r, states, steps, |s.starts| - 1) <==> Prompt(s))
  {
    hide Step;
    var s := states[|states| - 1];
    var _ := JustStarted(r, states, steps);
    if Prompt(s) {
      forall more, moreSteps | GoesOn(r, states, steps, more, moreSteps)
        ensures Spaced(r, more[|more| - 1], |s.starts| - 1)
      {
        assert more[|states| - 1] == s;
        PromptIsSpaced(r, more, moreSteps, |states| - 1, |more| - 1);
      }
    } else {
      var more, moreSteps := DelayedComesClose(r, states, steps);
      assert !Spaced(r, more[|more| - 1], |s.starts| - 1);
    }
  }

  /**
   * A run with two starts at the same instant: the second attempt got its token after one interval, but its slot
   * only after two, when the third one's token was due. So WindowBound's two extra starts are needed.
   */
  lemma TwoAtOnce(i: real) returns (more: seq<Stage>, moreSteps: seq<StageStep>)
    requires i > 0.0
    ensures IsRun(Rate(i, 1, false), more, moreSteps)
    ensures var s := more[|more| - 1]; s.starts == [0.0, i + i, i + i] && |Started(s, i + i, i + i)| == 2
  {
    hide Step;
    var r := Rate(i, 1, false);
    var first := Stage(0.0, 0.0, Popping, false, multiset{}, multiset{}, 0, multiset{}, multiset{}, multiset{}, [], []);
    more, moreSteps := NextToken(r, [first], []);
    more, moreSteps := FreeLaunch(r, more, moreSteps);
    var ue := JustStarted(r, more, moreSteps);
    more, moreSteps := NextToken(r, more, moreSteps);
    more, moreSteps := Idle(r, more, moreSteps, i);
    InEveryState(r, more, moreSteps, |more| - 1);
    more, moreSteps := NextLaunch(r, more, moreSteps, more, moreSteps, ue);
    more, moreSteps := DelayedComesClose(r, more, moreSteps);
    var s := more[|more| - 1];
    assert Started(s, i + i, i + i) == {1, 2};
  }

  lemma FreeLaunch(r: Rate, states: seq<Stage>, steps: seq<StageStep>)
    returns (more: seq<Stage>, moreSteps: seq<StageStep>)
    requires IsRun(r, states, steps) && states[|states| - 1].phase.Acquiring?
    requires states[|states| - 1].slots < r.maxInFlight
    ensures GoesOn(r, states, steps, more, moreSteps) && moreSteps != [] && moreSteps[|moreSteps| - 1] == Launch
    ensures var s, t := states[|states| - 1], more[|more| - 1];
            t.starts == s.starts + [s.now] && t.now == s.now && t.next == s.next && t.slots == s.slots + 1
  {
    var s := states[|states| - 1];
    var t := s.(phase := Popping, slots := s.slots + 1, running := s.running + multiset{s.phase.ue},
                starts := s.starts + [s.now]);
    OneStep(r, states, steps, states, steps, Launch, t);
    more, moreSteps := states + [t], steps + [Launch];
  }

  lemma Idle(r: Rate, states: seq<Stage>, steps: seq<StageStep>, d: real)
    returns (more: seq<Stage>, moreSteps: seq<StageStep>)
    requires IsRun(r, states, steps) && d > 0.0
    ensures GoesOn(r, states, steps, more, moreSteps)
    ensures var s := states[|states| - 1]; more[|more| - 1] == s.(now := s.now + d)
  {
    var s := states[|states| - 1];
    OneStep(r, states, steps, states, steps, Tick(d), s.(now := s.now + d));
    more, moreSteps := states + [s.(now := s.now + d)], steps + [Tick(d)];
  }

  ghost function Least(ks: set<nat>): (i: nat)
    requires ks != {}
    ensures i in ks && forall k :: k in ks ==> i <= k
  {
    var x :| x in ks;
    if ks == {x} then x
    else
      var rest := ks - {x};
      var y := Least(rest);
      assert forall k :: k in ks ==> k == x || k in rest;
      if x < y then x else y
  }

  ghost function Greatest(ks: set<nat>): (i: nat)
    requires ks != {}
    ensures i in ks && forall k :: k in ks ==> k <= i
  {
    var x :| x in ks;
    if ks == {x} then x
    else
      var rest := ks - {x};
      var y := Greatest(rest);
      assert forall k :: k in ks ==> k == x || k in rest;
      if x > y then x else y
  }
}
