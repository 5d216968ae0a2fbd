/** The steps of execute, the dispatchers and runCpLoop keep the invariant. */
module RunSteps {
  import opened MetricsStage
  import opened UeSummaries
  import opened RunModel
  import opened RunInvariant
  import opened RunPreserve

  // --------------------------------------------- other UEs see a step go by

  /** Stage p's dispatcher goes on to d; UE j is not the one it works on. */
  lemma DispatchSeen(c: Config, a: Around, p: Proc, d: Disp, j: nat, u: Ue, x: Spot)
    requires SpotOk(c, a, j, u, x) && Active(a.disp.Get(p)) && a.disp.Get(p) != Holding(j)
    requires Active(d) || (d == Done && !(x.By? && x.x.Attempt? && x.x.p == p))
    ensures SpotOk(c, a.(disp := a.disp.Set(p, d)), j, u, x)
  {
    hide Bounded, ProcHolds;
    assert x.By? && x.x.Attempt? && x.x.p == Dereg ==> a.co == CoDereg;
    ProcHoldsSeen(c, a, a.(disp := a.disp.Set(p, d)), j, u);
  }

  /**
   * A procedure's condition reads of its surroundings only how far the gNB's UEs are queued and
   * deregisterAll's list.
   */
  lemma ProcHoldsSeen(c: Config, a: Around, b: Around, j: nat, u: Ue)
    requires b.cover >= a.cover && (Listed(a.co, j) ==> Listed(b.co, j))
    ensures forall p, pc :: ProcHolds(c, a, j, u, p, pc) ==> ProcHolds(c, b, j, u, p, pc)
  {
  }

  /** What every other UE, and the same UE under other surroundings, makes of a step. */
  ghost predicate Seen(c: Config, s: Run, t: Run, j: nat)
    requires j < |s.ues| && s.ues[j].gnb < |s.gnbs| && s.ues[j].gnb < |t.gnbs|
  {
    var x := SpotOf(s.ues[j].held);
    var b := Around(t.co, t.disp, t.gnbs[s.ues[j].gnb].cover);
    SpotOk(c, AroundOf(s, j), j, s.ues[j], x) ==> SpotOk(c, b, j, s.ues[j], x)
  }

  ghost predicate SeenBut(c: Config, s: Run, t: Run, i: int) {
    && |t.gnbs| == |s.gnbs|
    && forall j :: 0 <= j < |s.ues| && j != i ==> s.ues[j].gnb < |s.gnbs| && Seen(c, s, t, j)
  }

  /** A step that changes UE i and moves execute or a dispatcher. */
  lemma Assembled(c: Config, s: Run, t: Run, i: nat, v: Ue, e: Effect)
    requires Inv(c, s) && i < |s.ues| && s.ues[i].gnb < |s.gnbs| && Fair(s.ues[i], v, e)
    requires t == Change(s, i, v, e).(co := t.co, disp := t.disp)
    requires UeOk(c, AroundOf(t, i), i, v.(book := e.Note(s.ues[i].book)))
    requires SeenBut(c, s, t, i)
    requires GnbsOk(c, t) && Gates(t)
    ensures Inv(c, t)
  {
    hide SpotOk, GnbsOk, Gates;
    BalancedUpdate(c, s, i, v, e);
    assert Balanced(c, t) by { hide Total, GTotal, Change, CountIn; }
    hide Balanced;
    assert t.ues == s.ues[i := v.(book := e.Note(s.ues[i].book))] && t.gnbs == s.gnbs;
    hide Change;
    forall j | 0 <= j < |t.ues| ensures t.ues[j].gnb < |t.gnbs| && UeOk(c, AroundOf(t, j), j, t.ues[j]) {
      if j != i {
        assert Seen(c, s, t, j);
      }
    }
  }

  /** A step that changes no UE and no gNB. */
  lemma Moved1(c: Config, s: Run, t: Run)
    requires Inv(c, s)
    requires t == s.(co := t.co, disp := t.disp, ctxDone := t.ctxDone, abort := t.abort)
    requires SeenBut(c, s, t, -1)
    requires GnbsOk(c, t) && Gates(t)
    ensures Inv(c, t)
  {
    hide SpotOk, GnbsOk, Gates;
    assert Balanced(c, t) by { hide Total, GTotal, CountIn; }
    hide Balanced;
    forall j | 0 <= j < |t.ues| ensures t.ues[j].gnb < |t.gnbs| && UeOk(c, AroundOf(t, j), j, t.ues[j]) {
      assert Seen(c, s, t, j);
    }
  }

  lemma InvGnbs(c: Config, s: Run)
    requires Inv(c, s)
    ensures GnbsOk(c, s) && Gates(s) && Balanced(c, s)
    ensures forall j :: 0 <= j < |s.ues| ==> s.ues[j].gnb < |s.gnbs|
  {
    hide UeOk, GnbsOk, Gates, Balanced;
  }

  /** Stop and a second Stop only cancel contexts. */
  lemma StopKeeps(c: Config, s: Run, t: Run)
    requires Inv(c, s) && (t == s.(ctxDone := true) || t == s.(abort := true))
    ensures Inv(c, t)
  {
    InvGnbs(c, s);
    assert GnbsOk(c, t) by { hide GnbOk, Inv; assert GAroundOf(t) == GAroundOf(s); }
    assert Gates(t) by { hide GnbOk, Inv; }
    hide Inv, SpotOk, Gates, GnbsOk;
    Moved1(c, s, t);
  }

  // ---------------------------------------------------------- dispatchers

  lemma DispatchGates(c: Config, s: Run, t: Run, p: Proc, k: DispStep, i: nat)
    requires GnbsOk(c, s) && Gates(s) && Dispatch(s, t, p, k, i)
    ensures GnbsOk(c, t) && Gates(t)
  {
    hide GnbOk, NoneInFlight;
    assert GAroundOf(t) == GAroundOf(s);
  }

  lemma DispatchStops(c: Config, s: Run, t: Run, p: Proc, k: DispStep, i: nat)
    requires Inv(c, s) && Dispatch(s, t, p, k, i) && (k.PopStop? || k.Return?)
    ensures Inv(c, t)
  {
    hide Inv, GnbsOk, Gates;
    InvGnbs(c, s);
    DispatchGates(c, s, t, p, k, i);
    OthersSeen(c, s, t, p, t.disp.Get(p), -1);
    hide Seen;
    Moved1(c, s, t);
  }

  lemma ActiveWhere(s: Run, p: Proc)
    requires Gates(s) && Active(s.disp.Get(p))
    ensures if p == Dereg then s.co == CoDereg else Pipes(s.co)
  {
  }

  lemma ProcHoldsApart(c: Config, a: Around, i: nat, u: Ue, v: Ue)
    requires v == u.(held := v.held)
    ensures forall p, pc :: ProcHolds(c, a, i, u, p, pc) == ProcHolds(c, a, i, v, p, pc)
  {
  }

  /** A UE goes between a stage's queue, its dispatcher's hand and the start of an attempt. */
  lemma DispatchOk(c: Config, a: Around, p: Proc, d: Disp, i: nat, u: Ue, v: Ue, x: Place, y: Place)
    requires SpotOk(c, a, i, u, By(x)) && v == u.(held := v.held)
    requires x == Queued(p) || x == InHand(p)
    requires y == Queued(p) || y == InHand(p) || y == Attempt(p, StartPc(p))
    requires Active(d) && (y == InHand(p) ==> d == Holding(i))
    requires if p == Dereg then a.co == CoDereg else Pipes(a.co)
    ensures SpotOk(c, a.(disp := a.disp.Set(p, d)), i, v, By(y))
  {
    hide ProcHolds;
    var b := a.(disp := a.disp.Set(p, d));
    assert ProcHolds(c, a, i, u, p, StartPc(p));
    ProcHoldsSeen(c, a, b, i, u);
    ProcHoldsApart(c, b, i, u, v);
  }

  lemma NothingNotes(b: Book)
    ensures Nothing.Note(b) == b
  {
  }

  /** The other UEs see stage p's dispatcher turn from or to UE i, or stop. */
  lemma OthersSeen(c: Config, s: Run, t: Run, p: Proc, d: Disp, i: int)
    requires forall j :: 0 <= j < |s.ues| ==> s.ues[j].gnb < |s.gnbs|
    requires Active(s.disp.Get(p)) && (s.disp.Get(p).Holding? ==> s.disp.Get(p).i == i)
    requires t.co == s.co && t.disp == s.disp.Set(p, d) && t.gnbs == s.gnbs
    requires Active(d) || (d == Done && NoneInFlight(s, p))
    ensures SeenBut(c, s, t, i)
  {
    forall j | 0 <= j < |s.ues| && j != i ensures Seen(c, s, t, j) {
      var u := s.ues[j];
      if SpotOk(c, AroundOf(s, j), j, u, SpotOf(u.held)) {
        hide SpotOk;
        DispatchSeen(c, AroundOf(s, j), p, d, j, u, SpotOf(u.held));
      }
    }
  }

  /** y has UE i in place of x: one of the dispatcher's three moves. */
  predicate HandsOver(p: Proc, d: Disp, i: nat, x: Place, y: Place) {
    && (x == Queued(p) || x == InHand(p))
    && (y == Queued(p) || y == InHand(p) || y == Attempt(p, StartPc(p)))
    && Active(d) && (y == InHand(p) ==> d == Holding(i))
  }

  lemma HandedOver(c: Config, s: Run, p: Proc, d: Disp, i: nat, x: Place, y: Place)
    requires Inv(c, s) && i < |s.ues| && x in s.ues[i].held && HandsOver(p, d, i, x, y)
    requires if p == Dereg then s.co == CoDereg else Pipes(s.co)
    ensures s.ues[i].gnb < |s.gnbs| && s.ues[i].held == multiset{x}
    ensures UeOk(c, AroundOf(s, i).(disp := s.disp.Set(p, d)), i, s.ues[i].(held := multiset{y}))
  {
    var u := s.ues[i];
    var v := u.(held := multiset{y});
    hide Inv, SpotOk;
    InvAt(c, s, i, x);
    DispatchOk(c, AroundOf(s, i), p, d, i, u, v, x, y);
    assert SpotOf(v.held) == By(y);
  }

  lemma UeIs(s: Run, i: nat, v: Ue)
    requires i < |s.ues| && v.state == s.ues[i].state && v.book == s.ues[i].book
    ensures Change(s, i, v, Nothing) == s.(ues := s.ues[i := v])
  {
    NothingNotes(v.book);
    assert s.summary.Move(v.state, v.state) == s.summary;
  }

  lemma SameIsFair(u: Ue, v: Ue)
    requires v == u.(held := v.held)
    ensures Fair(u, v, Nothing) && v.(book := Nothing.Note(u.book)) == v
  {
    NothingNotes(u.book);
  }

  /** A step that only hands one UE on. */
  lemma OnlyHeld(c: Config, s: Run, t: Run, i: nat, v: Ue)
    requires Inv(c, s) && i < |s.ues| && s.ues[i].gnb < |s.gnbs|
    requires v == s.ues[i].(held := v.held) && t == s.(ues := s.ues[i := v], disp := t.disp)
    requires UeOk(c, AroundOf(t, i), i, v) && SeenBut(c, s, t, i) && GnbsOk(c, t) && Gates(t)
    ensures Inv(c, t)
  {
    hide Inv, UeOk, GnbsOk, Gates, SeenBut, AroundOf, Fair, Change, Effect.Note;
    UeIs(s, i, v);
    SameIsFair(s.ues[i], v);
    Assembled(c, s, t, i, v, Nothing);
  }

  lemma HandedTo(s: Run, t: Run, p: Proc, d: Disp, i: nat, x: Place, y: Place)
    requires i < |s.ues| && s.ues[i].gnb < |s.gnbs| && s.ues[i].held == multiset{x}
    requires t == Take(s, i, Move(x, By(y), s.ues[i], Nothing)).(disp := s.disp.Set(p, d))
    ensures t == s.(ues := s.ues[i := s.ues[i].(held := multiset{y})], disp := s.disp.Set(p, d))
    ensures AroundOf(t, i) == AroundOf(s, i).(disp := s.disp.Set(p, d))
  {
    hide Change;
    assert Given(multiset{x}, x, By(y)) == multiset{y};
    UeIs(s, i, s.ues[i].(held := multiset{y}));
  }

  lemma Redispatched(c: Config, s: Run, t: Run, p: Proc, d: Disp, i: nat, x: Place, y: Place)
    requires Inv(c, s) && i < |s.ues| && x in s.ues[i].held && (s.disp.Get(p) == Popping || s.disp.Get(p) == Holding(i))
    requires HandsOver(p, d, i, x, y)
    requires t == Take(s, i, Move(x, By(y), s.ues[i], Nothing)).(disp := s.disp.Set(p, d))
    requires GnbsOk(c, t) && Gates(t) && t.gnbs == s.gnbs && t.co == s.co
    requires if p == Dereg then s.co == CoDereg else Pipes(s.co)
    ensures Inv(c, t)
  {
    hide Inv, GnbsOk, Gates, UeOk, Take, NoneInFlight, SeenBut, AroundOf;
    HandedOver(c, s, p, d, i, x, y);
    HandedTo(s, t, p, d, i, x, y);
    InvGnbs(c, s);
    OthersSeen(c, s, t, p, d, i);
    OnlyHeld(c, s, t, i, s.ues[i].(held := multiset{y}));
  }

  lemma DispatchMoves(c: Config, s: Run, t: Run, p: Proc, k: DispStep, i: nat)
    requires Inv(c, s) && Dispatch(s, t, p, k, i) && (k.Pop? || k.Launch? || k.PutBack?)
    ensures Inv(c, t)
  {
    hide Inv, GnbsOk, Gates;
    InvGnbs(c, s);
    DispatchGates(c, s, t, p, k, i);
    ActiveWhere(s, p);
    assert t.gnbs == s.gnbs && t.co == s.co;
    hide Change, Take, NoneInFlight;
    match k
    case Pop => Redispatched(c, s, t, p, Holding(i), i, Queued(p), InHand(p));
    case Launch => Redispatched(c, s, t, p, Popping, i, InHand(p), Attempt(p, StartPc(p)));
    case PutBack => Redispatched(c, s, t, p, Waiting, i, InHand(p), Queued(p));
    case _ =>
  }
}
