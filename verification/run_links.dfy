/**
 * Every UE that registered deregisters: who has a link to its gNB's
 * association, and what deregisterAll does with it.
 */
module RunLinks {
  import opened MetricsStage
  import opened UeSummaries
  import opened RunModel
  import opened RunInvariant
  import opened RunPreserve
  import opened RunGnbs
  import opened RunSafety
  import opened RunTheorems

  // ------------------------------------------------------------ the invariant

  predicate Up(st: UeState) { st == UeRegistered || st == UeEstablishing || st == UeEstablished }

  /** What holding a UE says: the setup stages and the loop only have UEs of gNBs with an association. */
  predicate PlaceLinked(u: Ue, x: Place, assoc: bool) {
    match x
    case Queued(p) => p == Dereg || assoc
    case InHand(p) => p == Dereg || assoc
    case Attempt(p, pc) =>
      && (p == Dereg || assoc)
      && (p == Reg && (pc == Acc || pc == AccLock || pc == AccPush) ==> u.link)
      && (p == Dereg && pc != Start ==> u.deregAttempts >= 1)
    case Drained(_) => true
  }

  /** A UE that is up has a link, a link needs the gNB's association, and only an attempt ends a deregistration. */
  predicate SpotLinked(u: Ue, x: Spot, assoc: bool) {
    && (Up(u.state) ==> u.link) && (u.link ==> assoc) && (u.counted ==> u.deregAttempts >= 1)
    && (x.By? ==> PlaceLinked(u, x.x, assoc))
  }

  ghost predicate UeLinked(u: Ue, assoc: bool) { SpotLinked(u, SpotOf(u.held), assoc) }

  ghost predicate UesLinked(s: Run) {
    forall i :: 0 <= i < |s.ues| ==> s.ues[i].gnb < |s.gnbs| && UeLinked(s.ues[i], s.gnbs[s.ues[i].gnb].assoc)
  }

  /** startGnb queues UEs only of a gNB it has given an association. */
  ghost predicate GnbsLinked(s: Run) {
    forall g :: 0 <= g < |s.gnbs| && GAtt(GEnq) in s.gnbs[g].held ==> s.gnbs[g].assoc
  }

  /** Unless it is aborted, the deregistration stage ends only when all on its list are counted. */
  predicate Over(s: Run) {
    && (!s.abort && (s.disp.dereg == Waiting || s.disp.dereg == Done) ==> s.deregOver)
    && (!s.abort && 12 <= Rank(s.co) ==> s.left == 0)
  }

  ghost predicate Linked(s: Run) { UesLinked(s) && GnbsLinked(s) && Over(s) }

  // -------------------------------------------------------- one step, one UE

  lemma RegLinked(c: Config, a: Around, ctxDone: bool, i: nat, u: Ue, k: RegStep, assoc: bool)
    requires var m := RegMove(c, ctxDone, u, k); SpotOk(c, a, i, u, By(m.from)) && SpotLinked(u, By(m.from), assoc)
    ensures var m := RegMove(c, ctxDone, u, k); SpotLinked(m.ue, m.to, assoc) && !m.effect.leftDown && m.ue.gnb == u.gnb
  {
    hide Booked, Unplanned, NoCpCalls, PduHolds, DeregHolds, CpHolds, Attempting, PipelineRest, CleanupRest;
  }

  lemma PduLinked(c: Config, a: Around, ctxDone: bool, i: nat, u: Ue, k: PduStep, assoc: bool)
    requires var m := PduMove(c, ctxDone, u, k); SpotOk(c, a, i, u, By(m.from)) && SpotLinked(u, By(m.from), assoc)
    ensures var m := PduMove(c, ctxDone, u, k); SpotLinked(m.ue, m.to, assoc) && !m.effect.leftDown && m.ue.gnb == u.gnb
  {
    hide Booked, Unplanned, NoCpCalls, RegHolds, DeregHolds, CpHolds, Attempting, PipelineRest, CleanupRest;
  }

  lemma DeregLinked(c: Config, a: Around, abort: bool, i: nat, u: Ue, k: DeregStep, assoc: bool)
    requires var m := DeregMove(c, abort, u, k); SpotOk(c, a, i, u, By(m.from)) && SpotLinked(u, By(m.from), assoc)
    ensures var m := DeregMove(c, abort, u, k); SpotLinked(m.ue, m.to, assoc) && m.ue.gnb == u.gnb
    ensures DeregMove(c, abort, u, k).effect.leftDown ==> a.co == CoDereg
  {
    hide Booked, Settled, SettledState, CleanupDone, RegHolds, PduHolds, CpHolds, PipelineRest, CleanupRest, Listed;
  }

  lemma CpLinked(c: Config, a: Around, ctxDone: bool, i: nat, u: Ue, k: CpStep, assoc: bool)
    requires var m := CpMove(ctxDone, u, k); SpotOk(c, a, i, u, By(m.from)) && SpotLinked(u, By(m.from), assoc)
    ensures var m := CpMove(ctxDone, u, k); SpotLinked(m.ue, m.to, assoc) && !m.effect.leftDown && m.ue.gnb == u.gnb
  {
    hide SpotOk, CpMove;
    CpKeepsList(ctxDone, u, k);
    CpUeIs(ctxDone, u, k);
    CpKeepsUe(u, k);
    hide CpUe;
    CpStaysCp(ctxDone, u, k);
    if k.CDetached? {
      CpDetaches(ctxDone, u, k);
      Detaching(c, a, i, u, k.ok);
    }
  }

  lemma CpKeepsList(ctxDone: bool, u: Ue, k: CpStep)
    ensures var m := CpMove(ctxDone, u, k); !m.effect.leftDown && m.ue.gnb == u.gnb
  {
  }

  predicate OfCp(x: Spot) { x.By? ==> (x.x.Queued? || x.x.Attempt?) && x.x.p == Cp }

  /** What a control-plane step makes of the UE's record. */
  function CpUe(u: Ue, k: CpStep): Ue {
    match k
    case CEnter(alive) => u.(state := if alive then UeRegistering else UeSkipped)
    case CRegLocked => u.(link := true, state := UeRegistered)
    case CDeregLocked => u.(state := UeDeregistering)
    case CDetached(_) => u.(link := false)
    case CIdled(cycled) => u.(cpCycled := u.cpCycled || cycled, state := UePending)
    case _ => u
  }

  lemma CpUeIs(ctxDone: bool, u: Ue, k: CpStep)
    ensures CpMove(ctxDone, u, k).ue == CpUe(u, k)
  {
    if !k.CEnter? && !k.CRegLocked? && !k.CDeregLocked? && !k.CDetached? && !k.CIdled? {
      CpSameUe(ctxDone, u, k);
    }
    hide Nothing;
  }

  lemma CpSameUe(ctxDone: bool, u: Ue, k: CpStep)
    requires !k.CEnter? && !k.CRegLocked? && !k.CDeregLocked? && !k.CDetached? && !k.CIdled?
    ensures CpMove(ctxDone, u, k).ue == u
  {
    hide Nothing;
  }

  lemma CpKeepsUe(u: Ue, k: CpStep)
    ensures var v := CpUe(u, k);
            && v.counted == u.counted && v.deregAttempts == u.deregAttempts && (u.link && !k.CDetached? ==> v.link)
            && (v.link && !u.link ==> k.CRegLocked?) && (Up(v.state) ==> v.link || v.state == u.state)
  {
    hide Up;
    DownStates();
    match k
    case CEnter(_) =>
    case CRegLocked =>
    case CDeregLocked =>
    case CDetached(_) =>
    case CIdled(_) =>
    case _ =>
  }

  lemma DownStates()
    ensures !Up(UeRegistering) && !Up(UeSkipped) && !Up(UeDeregistering) && !Up(UePending)
  {
  }

  lemma CpStaysCp(ctxDone: bool, u: Ue, k: CpStep)
    ensures var m := CpMove(ctxDone, u, k); OfCp(By(m.from)) && OfCp(m.to)
  {
    hide Nothing;
  }

  lemma CpDetaches(ctxDone: bool, u: Ue, k: CpStep)
    requires k.CDetached?
    ensures var m := CpMove(ctxDone, u, k); m.from == Attempt(Cp, CpDetach(k.ok)) && m.ue == u.(link := false)
  {
    hide Nothing;
  }

  lemma Detaching(c: Config, a: Around, i: nat, u: Ue, ok: bool)
    requires SpotOk(c, a, i, u, By(Attempt(Cp, CpDetach(ok))))
    ensures u.state == UeDeregistering
  {
    hide CpBooked, Unplanned, RegHolds, PduHolds, DeregHolds, Attempting, PipelineRest, CleanupRest, Booked;
  }

  // ------------------------------------------------------- one step, the run

  /** A step may give gNBs associations, and takes none away. */
  ghost predicate AssocsStay(s: Run, t: Run) {
    |t.gnbs| == |s.gnbs| && forall g :: 0 <= g < |s.gnbs| && s.gnbs[g].assoc ==> t.gnbs[g].assoc
  }

  lemma MoreAssoc(u: Ue, x: Spot, assoc: bool)
    requires SpotLinked(u, x, assoc)
    ensures SpotLinked(u, x, true)
  {
  }

  /** All UEs but i are as they were. */
  lemma OneRelinked(s: Run, t: Run, i: int)
    requires UesLinked(s) && AssocsStay(s, t) && |t.ues| == |s.ues|
    requires forall j :: 0 <= j < |s.ues| && j != i ==> t.ues[j] == s.ues[j]
    requires 0 <= i < |s.ues| ==>
               t.ues[i].gnb == s.ues[i].gnb < |s.gnbs| && UeLinked(t.ues[i], s.gnbs[s.ues[i].gnb].assoc)
    ensures UesLinked(t)
  {
    hide SpotLinked;
    forall j | 0 <= j < |t.ues| ensures t.ues[j].gnb < |t.gnbs| && UeLinked(t.ues[j], t.gnbs[t.ues[j].gnb].assoc) {
      var u := t.ues[j];
      assert UeLinked(u, s.gnbs[u.gnb].assoc);
      MoreAssoc(u, SpotOf(u.held), s.gnbs[u.gnb].assoc);
    }
  }

  /** A step that changes only a UE's record. */
  lemma ChangeRelinked(s: Run, t: Run, i: nat, v: Ue, e: Effect)
    requires Linked(s) && i < |s.ues| && t == Change(s, i, v, e) && (e.leftDown ==> Rank(s.co) < 12)
    requires v.gnb == s.ues[i].gnb < |s.gnbs| && UeLinked(v, s.gnbs[v.gnb].assoc)
    ensures Linked(t)
  {
    hide UesLinked, SpotLinked, Effect.Note, StageCall.On, GnbsLinked;
    ChangeOnly(s, i, v, e);
    Same(v, t.ues[i], s.gnbs[v.gnb].assoc);
    OneRelinked(s, t, i);
    SameGnbs(s, t);
  }

  lemma ChangeOnly(s: Run, i: nat, v: Ue, e: Effect)
    requires i < |s.ues|
    ensures var t := Change(s, i, v, e);
            && |t.ues| == |s.ues| && t.ues[i] == v.(book := t.ues[i].book) && t.gnbs == s.gnbs && t.co == s.co
            && t.disp == s.disp && t.abort == s.abort && (s.deregOver ==> t.deregOver)
            && t.left == (if e.leftDown then s.left - 1 else s.left)
            && forall j :: 0 <= j < |s.ues| && j != i ==> t.ues[j] == s.ues[j]
  {
    hide Effect.Note, StageCall.On;
  }

  /** Who has made which calls is of no account. */
  lemma Same(v: Ue, w: Ue, assoc: bool)
    requires UeLinked(v, assoc) && w == v.(book := w.book)
    ensures UeLinked(w, assoc)
  {
  }

  lemma SameGnbs(s: Run, t: Run)
    requires GnbsLinked(s) && t.gnbs == s.gnbs
    ensures GnbsLinked(t)
  {
  }

  lemma TakenRelinked(c: Config, s: Run, t: Run, i: nat, m: Move)
    requires Inv(c, s) && Linked(s) && Taken(s, t, i, m) && s.ues[i].gnb < |s.gnbs|
    requires m.ue.gnb == s.ues[i].gnb && (m.effect.leftDown ==> s.co == CoDereg)
    requires SpotLinked(m.ue, m.to, s.gnbs[m.ue.gnb].assoc)
    ensures Linked(t)
  {
    hide Inv, Linked, SpotLinked, Change;
    InvAt(c, s, i, m.from);
    var v := m.ue.(held := Given(s.ues[i].held, m.from, m.to));
    GivenSpot(s.ues[i].held, m.from, m.to);
    HeldElsewhere(m.ue, v, m.to, s.gnbs[m.ue.gnb].assoc);
    ChangeRelinked(s, t, i, v, m.effect);
  }

  lemma GivenSpot(held: multiset<Place>, x: Place, y: Spot)
    requires held == multiset{x}
    ensures SpotOf(Given(held, x, y)) == y
  {
    match y
    case Free => assert Given(held, x, y) == multiset{};
    case By(p) => assert Given(held, x, y) == multiset{p};
  }

  lemma HeldElsewhere(u: Ue, v: Ue, x: Spot, assoc: bool)
    requires SpotLinked(u, x, assoc) && v == u.(held := v.held)
    ensures SpotLinked(v, x, assoc)
  {
  }

  /** What is known of a UE that a step moves. */
  lemma At(c: Config, s: Run, i: nat, x: Place)
    requires Inv(c, s) && UesLinked(s) && i < |s.ues| && x in s.ues[i].held
    ensures s.ues[i].gnb < |s.gnbs| && s.ues[i].held == multiset{x}
    ensures SpotOk(c, AroundOf(s, i), i, s.ues[i], By(x))
    ensures SpotLinked(s.ues[i], By(x), s.gnbs[s.ues[i].gnb].assoc)
  {
    hide Inv, SpotOk, SpotLinked;
    InvAt(c, s, i, x);
    assert SpotOf(s.ues[i].held) == By(x);
    assert UeLinked(s.ues[i], s.gnbs[s.ues[i].gnb].assoc);
  }

  /** A UE goes from one place to another of the same stage, at its start. */
  lemma PassedRelinked(c: Config, s: Run, t: Run, i: nat, p: Proc, d: Disp, x: Place, y: Spot)
    requires Inv(c, s) && Linked(s) && i < |s.ues| && x in s.ues[i].held
    requires t == Take(s, i, Move(x, y, s.ues[i], Nothing)).(disp := s.disp.Set(p, d))
    requires x == Queued(p) || x == InHand(p)
    requires y == Free || y == By(Queued(p)) || y == By(InHand(p)) || y == By(Attempt(p, StartPc(p)))
    requires p == Dereg && (d == Waiting || d == Done) ==> s.abort || s.deregOver
    ensures Linked(t)
  {
    hide Inv, Change, UesLinked, GnbsLinked, Taken;
    At(c, s, i, x);
    var t0 := Take(s, i, Move(x, y, s.ues[i], Nothing));
    assert Taken(s, t0, i, Move(x, y, s.ues[i], Nothing)) by { TakenIs(s, i, Move(x, y, s.ues[i], Nothing)); }
    TakenRelinked(c, s, t0, i, Move(x, y, s.ues[i], Nothing));
    ChangeOnly(s, i, s.ues[i].(held := Given(s.ues[i].held, x, y)), Nothing);
    SameUes(t0, t);
    SameGnbs(t0, t);
  }

  lemma TakenIs(s: Run, i: nat, m: Move)
    requires i < |s.ues| && m.from in s.ues[i].held
    ensures Taken(s, Take(s, i, m), i, m)
  {
  }

  lemma SameUes(s: Run, t: Run)
    requires UesLinked(s) && t.ues == s.ues && t.gnbs == s.gnbs
    ensures UesLinked(t)
  {
    hide UeLinked;
  }

  lemma DispatchRelinked(c: Config, s: Run, t: Run, p: Proc, k: DispStep, i: nat)
    requires Inv(c, s) && Linked(s) && Dispatch(s, t, p, k, i)
    ensures Linked(t)
  {
    hide Inv, Take, UesLinked, GnbsLinked, NoneInFlight;
    match k
    case Pop => PassedRelinked(c, s, t, i, p, Holding(i), Queued(p), By(InHand(p)));
    case Launch => PassedRelinked(c, s, t, i, p, Popping, InHand(p), By(Attempt(p, StartPc(p))));
    case PutBack => PassedRelinked(c, s, t, i, p, Waiting, InHand(p), By(Queued(p)));
    case _ =>
      SameUes(s, t);
      SameGnbs(s, t);
  }

  // -------------------------------------------------------- pushes and gNBs

  /** A UE pushed onto a queue it may be in. */
  lemma PushedLinked(c: Config, t: Run, i: nat, u: Ue, p: Proc, assoc: bool)
    requires Inv(c, t) && i < |t.ues| && t.ues[i] == u.(held := u.held + multiset{Queued(p)})
    requires UeLinked(u, assoc) && (p == Dereg || assoc)
    ensures UeLinked(t.ues[i], assoc)
  {
    hide Inv, SpotOk;
    assert Queued(p) in t.ues[i].held;
    InvAt(c, t, i, Queued(p));
    assert SpotOf(t.ues[i].held) == By(Queued(p));
  }

  /** A step of a gNB's goroutine. */
  lemma GnbRelinked(s: Run, t: Run, g: nat)
    requires Linked(s) && g < |s.gnbs| && |t.gnbs| == |s.gnbs| && t.ues == s.ues
    requires forall h :: 0 <= h < |s.gnbs| && h != g ==> t.gnbs[h] == s.gnbs[h]
    requires (s.gnbs[g].assoc ==> t.gnbs[g].assoc) && (GAtt(GEnq) in t.gnbs[g].held ==> t.gnbs[g].assoc)
    requires t.disp == s.disp && t.abort == s.abort && t.deregOver == s.deregOver && t.left == s.left
    requires Rank(t.co) >= 12 ==> Rank(s.co) >= 12
    ensures Linked(t)
  {
    hide UeLinked;
    forall j | 0 <= j < |t.ues| ensures t.ues[j].gnb < |t.gnbs| && UeLinked(t.ues[j], t.gnbs[t.ues[j].gnb].assoc) {
      Regained(s, t, j);
    }
  }

  lemma Regained(s: Run, t: Run, j: nat)
    requires UesLinked(s) && AssocsStay(s, t) && t.ues == s.ues && j < |s.ues|
    ensures t.ues[j].gnb < |t.gnbs| && UeLinked(t.ues[j], t.gnbs[t.ues[j].gnb].assoc)
  {
    OneRelinked(s, t, -1);
  }

  lemma GTakenRelinked(s: Run, t: Run, g: nat, m: GMove)
    requires Linked(s) && GTaken(s, t, g, m)
    requires (s.gnbs[g].assoc ==> m.gnb.assoc) && (m.to == GBy(GAtt(GEnq)) ==> m.gnb.assoc)
    ensures Linked(t)
  {
    hide UesLinked, StageCall.On;
    GnbRelinked(s, t, g);
  }

  lemma N2Linked(c: Config, ctxDone: bool, r: Gnb, k: N2Step)
    ensures var m := N2Move(c, ctxDone, r, k); (r.assoc ==> m.gnb.assoc) && (m.to == GBy(GAtt(GEnq)) ==> m.gnb.assoc)
  {
  }

  lemma CoveredRelinked(s: Run, t: Run, g: nat)
    requires Linked(s) && g < |s.gnbs| && t == Covered(s, g)
    ensures Linked(t)
  {
    hide UesLinked;
    GnbRelinked(s, t, g);
  }

  lemma EnqueueRegRelinked(c: Config, s: Run, t: Run, g: nat, i: nat)
    requires Inv(c, t) && Linked(s) && g < |s.gnbs| && i < |s.ues| && GAtt(GEnq) in s.gnbs[g].held
    requires t == Covered(if s.ues[i].gnb == g && !s.ues[i].cp then Pushed(s, i, Reg) else s, g)
    ensures Linked(t)
  {
    hide Inv, UeLinked;
    var m := if s.ues[i].gnb == g && !s.ues[i].cp then Pushed(s, i, Reg) else s;
    if s.ues[i].gnb == g && !s.ues[i].cp {
      PushedLinked(c, t, i, s.ues[i], Reg, true);
      OneRelinked(s, m, i);
    }
    hide UesLinked;
    assert Linked(m) by { SameGnbs(s, m); }
    CoveredRelinked(m, t, g);
  }

  lemma SkipUesRelinked(s: Run, t: Run, g: nat, i: nat)
    requires Linked(s) && g < |s.gnbs| && i < |s.ues|
    requires t == Covered(if s.ues[i].gnb == g then Change(s, i, SkippedUe(s.ues[i]), SkipEffect(s.ues[i])) else s, g)
    ensures Linked(t)
  {
    hide Change, Covered, GnbsLinked;
    if s.ues[i].gnb == g {
      var v := SkippedUe(s.ues[i]);
      assert UeLinked(s.ues[i], s.gnbs[g].assoc);
      assert UeLinked(v, s.gnbs[g].assoc);
      ChangeRelinked(s, Change(s, i, v, SkipEffect(s.ues[i])), i, v, SkipEffect(s.ues[i]));
      ChangeOnly(s, i, v, SkipEffect(s.ues[i]));
      CoveredRelinked(Change(s, i, v, SkipEffect(s.ues[i])), t, g);
    } else {
      CoveredRelinked(s, t, g);
    }
  }

  lemma RunN2Relinked(c: Config, s: Run, t: Run, g: nat, k: N2Round)
    requires Inv(c, t) && Linked(s) && g < |s.gnbs| && RunN2(s, t, g, k)
    ensures Linked(t)
  {
    hide Inv, Linked, Covered, Pushed, Change, SkippedUe, SkipEffect;
    match k
    case NEnqueue(i) => EnqueueRegRelinked(c, s, t, g, i);
    case NSkip(i) => SkipUesRelinked(s, t, g, i);
    case _ => GnbStepRelinked(s, t, g, k);
  }

  lemma GnbStepRelinked(s: Run, t: Run, g: nat, k: N2Round)
    requires Linked(s) && g < |s.gnbs| && RunN2(s, t, g, k) && !k.NEnqueue? && !k.NSkip?
    ensures Linked(t)
  {
    assert GAtt(GEnq) in s.gnbs[g].held ==> s.gnbs[g].assoc;
    hide Linked;
    match k
    case NFinished => RoundFrame(s, t, g, k); GnbRelinked(s, t, g);
    case NEnqueueEnd => RoundFrame(s, t, g, k); GnbRelinked(s, t, g);
    case NSkipEnd => RoundFrame(s, t, g, k); GnbRelinked(s, t, g);
    case _ => PopFrame(s, t, g, k); GnbRelinked(s, t, g);
  }

  /** A step of gNB g that moves it on and leaves the UEs alone. */
  ghost predicate GnbMoves(s: Run, t: Run, g: nat)
    requires g < |s.gnbs|
  {
    && |t.gnbs| == |s.gnbs| && t.ues == s.ues && (forall h :: 0 <= h < |s.gnbs| && h != g ==> t.gnbs[h] == s.gnbs[h])
    && t.gnbs[g].assoc == s.gnbs[g].assoc && (GAtt(GEnq) in t.gnbs[g].held ==> GAtt(GEnq) in s.gnbs[g].held)
    && t.disp == s.disp && t.abort == s.abort && t.deregOver == s.deregOver && t.left == s.left && t.co == s.co
  }

  lemma PopFrame(s: Run, t: Run, g: nat, k: N2Round)
    requires g < |s.gnbs| && RunN2(s, t, g, k) && (k.NPop? || k.NLaunch?)
    ensures GnbMoves(s, t, g)
  {
    hide StageCall.On;
  }

  lemma RoundFrame(s: Run, t: Run, g: nat, k: N2Round)
    requires g < |s.gnbs| && RunN2(s, t, g, k) && (k.NEnqueueEnd? || k.NSkipEnd? || k.NFinished?)
    ensures GnbMoves(s, t, g)
  {
    hide StageCall.On;
  }

  lemma CpLoopRelinked(c: Config, s: Run, t: Run, k: CpLoopStep)
    requires Inv(c, t) && Linked(s) && CpLoop(s, t, k)
    ensures Linked(t)
  {
    hide Inv, UeLinked;
    if k.CpEnqueue? && s.ues[k.i].cp && k.alive && s.gnbs[s.ues[k.i].gnb].assoc {
      PushedLinked(c, t, k.i, s.ues[k.i], Cp, true);
      OneRelinked(s, t, k.i);
    } else {
      SameUes(s, t);
    }
  }

  // ----------------------------------------------------------------- execute

  lemma TurnRelinked(c: Config, s: Run, t: Run, k: Turn)
    requires Gates(s) && Linked(s) && Ready(s, k) && t == s.(co := NextCo(k), disp := NextDisp(s.disp, k))
    ensures Linked(t)
  {
    SameUes(s, t);
    SameGnbs(s, t);
    hide UesLinked, GnbsLinked;
  }

  lemma N2ReturnRelinked(s: Run, t: Run)
    requires Linked(s) && N2Returns(s, t)
    ensures Linked(t)
  {
    hide UesLinked;
    if 0 <= s.n2Hand < |s.gnbs| {
      GnbRelinked(s, t, s.n2Hand);
    } else {
      SameUes(s, t);
    }
  }

  lemma SettlesRelinked(s: Run, t: Run, i: nat)
    requires Linked(s) && Settles(s, t, i)
    ensures Linked(t)
  {
    hide Change;
    var v, e := SettledUe(s.ues[i]), SettleEffect(s.ues[i]);
    assert UeLinked(s.ues[i], s.gnbs[s.ues[i].gnb].assoc);
    assert UeLinked(v, s.gnbs[v.gnb].assoc);
    hide UesLinked, GnbsLinked, SpotLinked, SettledUe;
    var m := Change(s, i, v, e);
    ChangeRelinked(s, m, i, v, e);
    ChangeOnly(s, i, v, e);
    SameUes(m, t);
    SameGnbs(m, t);
  }

  lemma PlansRelinked(s: Run, t: Run, i: nat, alive: bool)
    requires Linked(s) && Plans(s, t, i, alive)
    ensures Linked(t)
  {
    hide Change, UesLinked, GnbsLinked, SpotLinked;
    var u := s.ues[i];
    LinkedAt(s, i);
    if !u.link || !s.gnbs[u.gnb].assoc || !alive || s.abort {
      var m := Change(s, i, u, Nothing.(dereg := DoSkip));
      ChangeRelinked(s, m, i, u, Nothing.(dereg := DoSkip));
      ChangeOnly(s, i, u, Nothing.(dereg := DoSkip));
      SameUes(m, t);
      SameGnbs(m, t);
    } else {
      Listing(u, s.gnbs[u.gnb].assoc);
      OneRelinked(s, t, i);
      SameGnbs(s, t);
    }
  }

  lemma LinkedAt(s: Run, i: nat)
    requires UesLinked(s) && i < |s.ues|
    ensures s.ues[i].gnb < |s.gnbs| && UeLinked(s.ues[i], s.gnbs[s.ues[i].gnb].assoc)
  {
    hide UeLinked;
  }

  lemma Listing(u: Ue, assoc: bool)
    requires UeLinked(u, assoc)
    ensures UeLinked(u.(todo := true), assoc)
  {
  }

  lemma EnqueuesRelinked(c: Config, s: Run, t: Run, i: nat)
    requires Inv(c, t) && Linked(s) && Enqueues(s, t, i)
    ensures Linked(t)
  {
    hide Inv, UeLinked, GnbsLinked;
    LinkedAt(s, i);
    if s.ues[i].todo {
      PushedLinked(c, t, i, s.ues[i], Dereg, s.gnbs[s.ues[i].gnb].assoc);
      OneRelinked(s, t, i);
    } else {
      SameUes(s, t);
    }
    SameGnbs(s, t);
  }

  lemma SkipGnbRelinked(s: Run, t: Run, g: nat)
    requires Linked(s) && SkipsGnb(s, t, g)
    ensures Linked(t)
  {
    hide UesLinked, StageCall.On;
    GnbRelinked(s, t, g);
  }

  lemma CloseRelinked(s: Run, t: Run, g: nat)
    requires Linked(s) && Closes(s, t, g)
    ensures Linked(t)
  {
    hide UesLinked, StageCall.On;
    GnbRelinked(s, t, g);
  }

  lemma PlansEndRelinked(c: Config, s: Run, t: Run)
    requires Linked(s) && PlansEnd(s, t)
    ensures Linked(t)
  {
    SameUes(s, t);
    SameGnbs(s, t);
    hide UesLinked, GnbsLinked;
  }

  lemma ExecuteRelinked(c: Config, s: Run, t: Run, k: CoStep)
    requires Inv(c, s) && Inv(c, t) && Linked(s) && Execute(s, t, k)
    ensures Linked(t)
  {
    hide Linked, N2Returns, SkipsGnb, Closes, Settles, Plans, PlansEnd, Enqueues, Ready, NextCo, NextDisp, Taken,
         UesOk, GnbsOk, Balanced, Gates;
    match k
    case GoOn(turn) => TurnRelinked(c, s, t, turn);
    case N2Return => N2ReturnRelinked(s, t);
    case DrainOne(p, i) => DrainOneRelinked(c, s, t, p, i);
    case SkipGnb(g) => SkipGnbRelinked(s, t, g);
    case CloseOne(g) => CloseRelinked(s, t, g);
    case SkipUe(i) => SettlesRelinked(s, t, i);
    case Plan(i, alive) => PlansRelinked(s, t, i, alive);
    case PlanEnd => PlansEndRelinked(c, s, t);
    case Enqueue(i) => EnqueuesRelinked(c, s, t, i);
  }

  lemma DrainOneRelinked(c: Config, s: Run, t: Run, p: Proc, i: nat)
    requires i < |s.ues| && Inv(c, s) && Linked(s) && Taken(s, t, i, Move(Queued(p), Free, s.ues[i], Nothing))
    ensures Linked(t)
  {
    hide Inv, UesLinked, GnbsLinked;
    At(c, s, i, Queued(p));
    TakenRelinked(c, s, t, i, Move(Queued(p), Free, s.ues[i], Nothing));
  }

  // ---------------------------------------------------------------- any step

  lemma RegRelinked(c: Config, s: Run, t: Run, i: nat, k: RegStep)
    requires Inv(c, s) && Linked(s) && i < |s.ues| && Taken(s, t, i, RegMove(c, s.ctxDone, s.ues[i], k))
    ensures Linked(t)
  {
    hide Inv, Linked, RegMove, SpotOk, SpotLinked;
    var m := RegMove(c, s.ctxDone, s.ues[i], k);
    AtTaken(c, s, t, i, m);
    RegLinked(c, AroundOf(s, i), s.ctxDone, i, s.ues[i], k, s.gnbs[s.ues[i].gnb].assoc);
    TakenRelinked(c, s, t, i, m);
  }

  lemma PduRelinked(c: Config, s: Run, t: Run, i: nat, k: PduStep)
    requires Inv(c, s) && Linked(s) && i < |s.ues| && Taken(s, t, i, PduMove(c, s.ctxDone, s.ues[i], k))
    ensures Linked(t)
  {
    hide Inv, Linked, PduMove, SpotOk, SpotLinked;
    var m := PduMove(c, s.ctxDone, s.ues[i], k);
    AtTaken(c, s, t, i, m);
    PduLinked(c, AroundOf(s, i), s.ctxDone, i, s.ues[i], k, s.gnbs[s.ues[i].gnb].assoc);
    TakenRelinked(c, s, t, i, m);
  }

  lemma DeregRelinked(c: Config, s: Run, t: Run, i: nat, k: DeregStep)
    requires Inv(c, s) && Linked(s) && i < |s.ues| && Taken(s, t, i, DeregMove(c, s.abort, s.ues[i], k))
    ensures Linked(t)
  {
    hide Inv, Linked, DeregMove, SpotOk, SpotLinked;
    var m := DeregMove(c, s.abort, s.ues[i], k);
    AtTaken(c, s, t, i, m);
    DeregLinked(c, AroundOf(s, i), s.abort, i, s.ues[i], k, s.gnbs[s.ues[i].gnb].assoc);
    TakenRelinked(c, s, t, i, m);
  }

  lemma CpRelinked(c: Config, s: Run, t: Run, i: nat, k: CpStep)
    requires Inv(c, s) && Linked(s) && i < |s.ues| && Taken(s, t, i, CpMove(s.ctxDone, s.ues[i], k))
    ensures Linked(t)
  {
    hide Inv, Linked, CpMove, SpotOk, SpotLinked;
    var m := CpMove(s.ctxDone, s.ues[i], k);
    AtTaken(c, s, t, i, m);
    CpLinked(c, AroundOf(s, i), s.ctxDone, i, s.ues[i], k, s.gnbs[s.ues[i].gnb].assoc);
    TakenRelinked(c, s, t, i, m);
  }

  lemma AtTaken(c: Config, s: Run, t: Run, i: nat, m: Move)
    requires Inv(c, s) && Linked(s) && Taken(s, t, i, m)
    ensures s.ues[i].gnb < |s.gnbs| && SpotOk(c, AroundOf(s, i), i, s.ues[i], By(m.from))
    ensures SpotLinked(s.ues[i], By(m.from), s.gnbs[s.ues[i].gnb].assoc)
  {
    hide Inv, UesLinked, GnbsLinked, SpotOk, SpotLinked, Take;
    At(c, s, i, m.from);
  }

  lemma WatcherRelinked(s: Run, t: Run, g: nat, k: WatchStep)
    requires Linked(s) && g < |s.gnbs| && t == ChangeGnb(s, g, Watched(s.ctxDone, s.gnbs[g], k), NoCall, NoCall)
    ensures Linked(t)
  {
    hide UesLinked;
    GnbRelinked(s, t, g);
  }

  lemma StopRelinked(c: Config, s: Run, a: Action, t: Run)
    requires Linked(s) && (a.RequestStop? || a.AbortCleanup?) && Step(c, s, a, t)
    ensures Linked(t)
  {
    SameUes(s, t);
    SameGnbs(s, t);
    hide UesLinked, GnbsLinked;
  }

  lemma StepLinked(c: Config, s: Run, a: Action, t: Run)
    requires Inv(c, s) && Inv(c, t) && Linked(s) && Step(c, s, a, t)
    ensures Linked(t)
  {
    hide Inv, Linked, Execute, Dispatch, RegMove, PduMove, DeregMove, CpMove, CpLoop, N2Move, RunN2, WatchReady,
         ChangeGnb, CloseMove, Taken, GTaken, Watched;
    match a
    case Coordinator(k) => ExecuteRelinked(c, s, t, k);
    case Dispatcher(p, k, i) => DispatchRelinked(c, s, t, p, k, i);
    case RegAttempt(i, k) => RegRelinked(c, s, t, i, k);
    case PduAttempt(i, k) => PduRelinked(c, s, t, i, k);
    case DeregAttempt(i, k) => DeregRelinked(c, s, t, i, k);
    case CpAttempt(i, k) => CpRelinked(c, s, t, i, k);
    case CpLoopBody(k) => CpLoopRelinked(c, s, t, k);
    case N2Attempt(g, k) =>
      N2Linked(c, s.ctxDone, s.gnbs[g], k);
      GTakenRelinked(s, t, g, N2Move(c, s.ctxDone, s.gnbs[g], k));
    case N2Dispatcher(g, k) => RunN2Relinked(c, s, t, g, k);
    case Watcher(g, k) => WatcherRelinked(s, t, g, k);
    case Closer(g, k) =>
      CloseLinked(s.gnbs[g], k);
      GTakenRelinked(s, t, g, CloseMove(s.gnbs[g], k));
    case _ => StopRelinked(c, s, a, t);
  }

  lemma CloseLinked(r: Gnb, k: CloseStep)
    ensures var m := CloseMove(r, k); (r.assoc ==> m.gnb.assoc) && m.to != GBy(GAtt(GEnq))
  {
  }

  lemma InitLinked(c: Config, s: Run, gnbs: nat, plan: seq<(nat, bool)>)
    requires Init(c, s, gnbs, plan)
    ensures Linked(s)
  {
    hide Zero;
    forall i | 0 <= i < |s.ues| ensures s.ues[i].gnb < |s.gnbs| && UeLinked(s.ues[i], s.gnbs[s.ues[i].gnb].assoc) {
      assert s.ues[i] == NewUe(plan[i]);
    }
  }

  /** The links are as stated in every state of every run. */
  lemma {:induction false} RunLinked(c: Config, states: seq<Run>, actions: seq<Action>, gnbs: nat,
          plan: seq<(nat, bool)>, n: nat)
    requires IsRun(c, states, actions) && Init(c, states[0], gnbs, plan) && c.throughput == Throughputs(plan)
    requires n < |states|
    ensures Linked(states[n])
  {
    hide Inv, Step, Init, Linked, Throughputs;
    if n == 0 {
      InitLinked(c, states[0], gnbs, plan);
    } else {
      RunLinked(c, states, actions, gnbs, plan, n - 1);
      Reachable(c, states, actions, gnbs, plan, n - 1);
      Reachable(c, states, actions, gnbs, plan, n);
      StepLinked(c, states[n - 1], actions[n - 1], states[n]);
    }
  }

  // -------------------------------------------- what becomes of an established UE

  /** deregisterAll reaches UE i, and its association is gone or the cleanup is aborted. */
  predicate ExcuseAt(s: Run, a: Action, i: nat) {
    a.Coordinator? && a.co.Plan? && a.co.i == i && (!a.co.alive || s.abort)
  }

  ghost predicate Excused(states: seq<Run>, actions: seq<Action>, i: nat, n: nat)
    requires n <= |actions| <= |states|
  {
    exists m :: 0 <= m < n && ExcuseAt(states[m], actions[m], i)
  }

  predicate StaysEstablished(u: Ue, v: Ue) {
    (u.todo ==> v.todo) && (v.state == UeEstablished ==> u.state == UeEstablished) && v.deregAttempts >= u.deregAttempts
  }

  /** Nothing but a PDU attempt makes a UE established, and nothing takes one off deregisterAll's list. */
  ghost predicate AllStay(s: Run, t: Run) {
    |t.ues| == |s.ues| && forall i :: 0 <= i < |s.ues| ==> StaysEstablished(s.ues[i], t.ues[i])
  }

  lemma ChangeStays(s: Run, i: nat, v: Ue, e: Effect)
    requires i < |s.ues| && StaysEstablished(s.ues[i], v)
    ensures AllStay(s, Change(s, i, v, e))
  {
    hide Change;
    ChangeOnly(s, i, v, e);
  }

  lemma TakenStays(s: Run, t: Run, i: nat, m: Move)
    requires Taken(s, t, i, m) && StaysEstablished(s.ues[i], m.ue)
    ensures AllStay(s, t)
  {
    hide Change;
    ChangeStays(s, i, m.ue.(held := Given(s.ues[i].held, m.from, m.to)), m.effect);
  }

  lemma RegStays(c: Config, ctxDone: bool, u: Ue, k: RegStep)
    ensures StaysEstablished(u, RegMove(c, ctxDone, u, k).ue)
  {
    hide Nothing;
  }

  lemma DeregStays(c: Config, abort: bool, u: Ue, k: DeregStep)
    ensures StaysEstablished(u, DeregMove(c, abort, u, k).ue)
  {
    hide Nothing;
  }

  lemma CpStays(ctxDone: bool, u: Ue, k: CpStep)
    ensures StaysEstablished(u, CpMove(ctxDone, u, k).ue)
  {
    hide CpMove;
    CpUeIs(ctxDone, u, k);
  }

  lemma DispatchStays(s: Run, t: Run, p: Proc, k: DispStep, i: nat)
    requires Dispatch(s, t, p, k, i)
    ensures AllStay(s, t)
  {
    hide NoneInFlight, Change;
    match k
    case Pop => ChangeStays(s, i, s.ues[i].(held := Given(s.ues[i].held, Queued(p), By(InHand(p)))), Nothing);
    case Launch =>
      ChangeStays(s, i, s.ues[i].(held := Given(s.ues[i].held, InHand(p), By(Attempt(p, StartPc(p))))), Nothing);
    case PutBack => ChangeStays(s, i, s.ues[i].(held := Given(s.ues[i].held, InHand(p), By(Queued(p)))), Nothing);
    case _ =>
  }

  lemma ExecuteStays(s: Run, t: Run, k: CoStep)
    requires Execute(s, t, k)
    ensures AllStay(s, t)
  {
    hide Ready, NextCo, NextDisp, Change, SettleEffect, AllStay;
    match k
    case DrainOne(p, i) => ChangeStays(s, i, s.ues[i].(held := Given(s.ues[i].held, Queued(p), Free)), Nothing);
    case SkipUe(i) => SettleStays(s, t, i);
    case Plan(i, alive) => PlanStays(s, t, i, alive);
    case Enqueue(i) => EnqueueStays(s, t, i);
    case _ => SameStay(s, t);
  }

  lemma SettleStays(s: Run, t: Run, i: nat)
    requires Settles(s, t, i)
    ensures AllStay(s, t)
  {
    hide Change, SettleEffect;
    ChangeStays(s, i, SettledUe(s.ues[i]), SettleEffect(s.ues[i]));
  }

  lemma PlanStays(s: Run, t: Run, i: nat, alive: bool)
    requires Plans(s, t, i, alive)
    ensures AllStay(s, t)
  {
    hide Change;
    ChangeStays(s, i, s.ues[i], Nothing.(dereg := DoSkip));
  }

  lemma EnqueueStays(s: Run, t: Run, i: nat)
    requires Enqueues(s, t, i)
    ensures AllStay(s, t)
  {
  }

  lemma SameStay(s: Run, t: Run)
    requires t.ues == s.ues
    ensures AllStay(s, t)
  {
  }

  lemma RunN2Stays(s: Run, t: Run, g: nat, k: N2Round)
    requires g < |s.gnbs| && RunN2(s, t, g, k)
    ensures AllStay(s, t)
  {
    hide Change, SkipEffect, StageCall.On;
    if k.NSkip? {
      ChangeStays(s, k.i, SkippedUe(s.ues[k.i]), SkipEffect(s.ues[k.i]));
    }
  }

  lemma CpLoopStays(s: Run, t: Run, k: CpLoopStep)
    requires CpLoop(s, t, k)
    ensures AllStay(s, t)
  {
  }

  lemma StepStays(c: Config, s: Run, a: Action, t: Run)
    requires Step(c, s, a, t) && !a.PduAttempt?
    ensures AllStay(s, t)
  {
    hide Dispatch, Execute, RunN2, CpLoop, Taken, GTaken, RegMove, DeregMove, CpMove, N2Move, Watched, WatchReady,
         CloseMove, StageCall.On, StaysEstablished;
    match a
    case Coordinator(k) => ExecuteStays(s, t, k);
    case Dispatcher(p, k, i) => DispatchStays(s, t, p, k, i);
    case RegAttempt(i, k) =>
      RegStays(c, s.ctxDone, s.ues[i], k);
      TakenStays(s, t, i, RegMove(c, s.ctxDone, s.ues[i], k));
    case DeregAttempt(i, k) =>
      DeregStays(c, s.abort, s.ues[i], k);
      TakenStays(s, t, i, DeregMove(c, s.abort, s.ues[i], k));
    case CpAttempt(i, k) =>
      CpStays(s.ctxDone, s.ues[i], k);
      TakenStays(s, t, i, CpMove(s.ctxDone, s.ues[i], k));
    case CpLoopBody(k) => CpLoopStays(s, t, k);
    case N2Dispatcher(g, k) => RunN2Stays(s, t, g, k);
    case N2Attempt(g, k) => SameRecords(s, t, g, N2Move(c, s.ctxDone, s.gnbs[g], k));
    case Closer(g, k) => SameRecords(s, t, g, CloseMove(s.gnbs[g], k));
    case _ => NoChange(s, t);
  }

  lemma SameRecords(s: Run, t: Run, g: nat, m: GMove)
    requires GTaken(s, t, g, m)
    ensures AllStay(s, t)
  {
    hide StageCall.On;
    NoChange(s, t);
  }

  lemma NoChange(s: Run, t: Run)
    requires t.ues == s.ues
    ensures AllStay(s, t)
  {
  }

  /** PDU attempts run only until the pipelines are down. */
  lemma PduEarly(c: Config, s: Run, t: Run, j: nat, k: PduStep)
    requires Inv(c, s) && j < |s.ues| && Taken(s, t, j, PduMove(c, s.ctxDone, s.ues[j], k))
    ensures Rank(s.co) <= 5
  {
    hide Inv, ProcHolds, Take;
    InvAt(c, s, j, PduMove(c, s.ctxDone, s.ues[j], k).from);
    PduFromWhere(c, s.ctxDone, s.ues[j], k);
  }

  lemma PduFromWhere(c: Config, ctxDone: bool, u: Ue, k: PduStep)
    ensures var x := PduMove(c, ctxDone, u, k).from; x.Attempt? && x.p == Pdu
  {
    hide Nothing;
  }

  // ------------------------------------------- when deregisterAll looks at a UE

  lemma TakenCo(s: Run, t: Run, i: nat, m: Move)
    requires Taken(s, t, i, m)
    ensures t.co == s.co && t.abort == s.abort
  {
    hide Change;
    ChangeOnly(s, i, m.ue.(held := Given(s.ues[i].held, m.from, m.to)), m.effect);
  }

  lemma GTakenCo(s: Run, t: Run, g: nat, m: GMove)
    requires GTaken(s, t, g, m)
    ensures t.co == s.co && t.abort == s.abort
  {
  }

  lemma DispatchCo(s: Run, t: Run, p: Proc, k: DispStep, i: nat)
    requires Dispatch(s, t, p, k, i)
    ensures t.co == s.co && t.abort == s.abort
  {
    hide Effect.Note, StageCall.On, NoneInFlight, Given;
  }

  lemma RunN2Co(s: Run, t: Run, g: nat, k: N2Round)
    requires g < |s.gnbs| && RunN2(s, t, g, k)
    ensures t.co == s.co && t.abort == s.abort
  {
    hide Effect.Note, StageCall.On, SkippedUe, SkipEffect;
  }

  lemma CpLoopCo(s: Run, t: Run, k: CpLoopStep)
    requires CpLoop(s, t, k)
    ensures t.co == s.co && t.abort == s.abort
  {
  }

  /** Only execute's own steps move execute. */
  lemma OthersCo(c: Config, s: Run, a: Action, t: Run)
    requires Step(c, s, a, t) && !a.Coordinator?
    ensures t.co == s.co && (t.abort == s.abort || a.AbortCleanup?)
  {
    hide Dispatch, RunN2, CpLoop, RegMove, PduMove, DeregMove, CpMove, N2Move, Watched, WatchReady, CloseMove, Taken,
         GTaken;
    match a
    case Dispatcher(p, k, i) => DispatchCo(s, t, p, k, i);
    case RegAttempt(i, k) => TakenCo(s, t, i, RegMove(c, s.ctxDone, s.ues[i], k));
    case PduAttempt(i, k) => TakenCo(s, t, i, PduMove(c, s.ctxDone, s.ues[i], k));
    case DeregAttempt(i, k) => TakenCo(s, t, i, DeregMove(c, s.abort, s.ues[i], k));
    case CpAttempt(i, k) => TakenCo(s, t, i, CpMove(s.ctxDone, s.ues[i], k));
    case CpLoopBody(k) => CpLoopCo(s, t, k);
    case N2Dispatcher(g, k) => RunN2Co(s, t, g, k);
    case N2Attempt(g, k) => GTakenCo(s, t, g, N2Move(c, s.ctxDone, s.gnbs[g], k));
    case Closer(g, k) => GTakenCo(s, t, g, CloseMove(s.gnbs[g], k));
    case _ =>
  }

  /** execute's steps one after the other: what each does to where execute is. */
  lemma ExecuteCo(s: Run, t: Run, k: CoStep)
    requires Execute(s, t, k)
    ensures t.abort == s.abort
    ensures match k
            case GoOn(turn) => Ready(s, turn) && t.co == NextCo(turn)
            case N2Return => t.co == CoN2Wait
            case DrainOne(_, _) => t.co == s.co
            case SkipGnb(g) => t.co == CoSkipGnb(g + 1)
            case SkipUe(i) => t.co == CoSkipUe(i + 1)
            case Plan(i, alive) => s.co == CoPlan(i) && t.co == CoPlan(i + 1) && Plans(s, t, i, alive)
            case PlanEnd => s.co == CoPlan(|s.ues|)
            case Enqueue(i) => s.co == CoEnqueue(i)
            case CloseOne(g) => s.co == CoClose(g)
  {
    hide Ready, NextCo, NextDisp, Effect.Note, StageCall.On, SettledUe, SettleEffect;
  }

  lemma ReadyCo(s: Run, k: Turn)
    requires Ready(s, k)
    ensures Rank(NextCo(k)) <= 8 || NextCo(k) == CoPlan(0) || Rank(s.co) >= 10
  {
  }

  /** execute goes past UE i in one step: the one in which deregisterAll looks at it. */
  lemma WhenPlanned(c: Config, s: Run, a: Action, t: Run, i: nat)
    requires Step(c, s, a, t) && i < |s.ues| && !Planned(s.co, i) && Planned(t.co, i)
    ensures a.Coordinator? && a.co.Plan? && a.co.i == i && Plans(s, t, i, a.co.alive)
  {
    hide Step, Execute, Plans;
    if a.Coordinator? {
      Executes(c, s, a, t);
      ExecuteCo(s, t, a.co);
      if a.co.GoOn? {
        ReadyCo(s, a.co.turn);
      }
    } else {
      OthersCo(c, s, a, t);
    }
  }

  lemma Executes(c: Config, s: Run, a: Action, t: Run)
    requires Step(c, s, a, t) && a.Coordinator?
    ensures Execute(s, t, a.co)
  {
  }

  lemma {:induction false} NeverUndone(c: Config, states: seq<Run>, actions: seq<Action>, m: nat, n: nat)
    requires IsRun(c, states, actions) && m <= n < |states| && states[m].abort
    ensures states[n].abort
  {
    hide Step;
    if m < n {
      NeverUndone(c, states, actions, m, n - 1);
      AbortStays(c, states[n - 1], actions[n - 1], states[n]);
    }
  }

  lemma AbortStays(c: Config, s: Run, a: Action, t: Run)
    requires Step(c, s, a, t) && s.abort
    ensures t.abort
  {
    hide Step;
    if a.Coordinator? {
      Executes(c, s, a, t);
      ExecuteCo(s, t, a.co);
    } else {
      OthersCo(c, s, a, t);
      if a.AbortCleanup? {
        Aborts(c, s, a, t);
      }
    }
  }

  lemma Aborts(c: Config, s: Run, a: Action, t: Run)
    requires Step(c, s, a, t) && a.AbortCleanup?
    ensures t.abort
  {
  }

  // -------------------------------------------------------------- the theorems

  /** deregisterAll's look at a UE with a link: onto the list, unless it has an excuse. */
  lemma PlansLinked(s: Run, t: Run, i: nat, alive: bool)
    requires Linked(s) && Plans(s, t, i, alive) && (s.ues[i].link || Up(s.ues[i].state))
    ensures !alive || s.abort || t.ues[i].todo
    ensures t.ues[i].todo || t.ues[i].state == s.ues[i].state
  {
    hide Change;
    LinkedAt(s, i);
    ChangeOnly(s, i, s.ues[i], Nothing.(dereg := DoSkip));
  }

  /** A UE still established behind deregisterAll's loop is on the list, or had an excuse. */
  lemma {:induction false} ListedOrExcused(c: Config, states: seq<Run>, actions: seq<Action>, gnbs: nat,
          plan: seq<(nat, bool)>, n: nat, i: nat)
    requires IsRun(c, states, actions) && Init(c, states[0], gnbs, plan) && c.throughput == Throughputs(plan)
    requires n < |states| && i < |states[n].ues| && Planned(states[n].co, i)
    requires states[n].ues[i].state == UeEstablished && !states[n].ues[i].todo
    ensures Excused(states, actions, i, n)
  {
    hide Inv, Step, Linked, Throughputs, Init, Plans, AllStay, Planned, ExcuseAt;
    if n == 0 {
      NotPlannedFirst(c, states[0], gnbs, plan, i);
    } else {
      var s, a, t := states[n - 1], actions[n - 1], states[n];
      StepStaysOn(c, s, a, t);
      Reachable(c, states, actions, gnbs, plan, n - 1);
      RunLinked(c, states, actions, gnbs, plan, n - 1);
      if Planned(s.co, i) {
        StillEstablished(c, s, a, t, i);
        ListedOrExcused(c, states, actions, gnbs, plan, n - 1, i);
        var m :| 0 <= m < n - 1 && ExcuseAt(states[m], actions[m], i);
        assert ExcuseAt(states[m], actions[m], i);
      } else {
        WhenPlanned(c, s, a, t, i);
        Untodo(s, a, t, i);
        assert ExcuseAt(states[n - 1], actions[n - 1], i);
      }
    }
  }

  lemma NotPlannedFirst(c: Config, s: Run, gnbs: nat, plan: seq<(nat, bool)>, i: nat)
    requires Init(c, s, gnbs, plan)
    ensures !Planned(s.co, i)
  {
    hide Zero;
  }

  lemma StillEstablished(c: Config, s: Run, a: Action, t: Run, i: nat)
    requires Inv(c, s) && Step(c, s, a, t) && i < |s.ues| && Planned(s.co, i)
    requires i < |t.ues| && t.ues[i].state == UeEstablished && !t.ues[i].todo
    ensures s.ues[i].state == UeEstablished && !s.ues[i].todo
  {
    hide Inv, Step, Taken, PduMove;
    if a.PduAttempt? {
      PduTaken(c, s, a, t);
      PduEarly(c, s, t, a.i, a.pdu);
    } else {
      StepStays(c, s, a, t);
    }
  }

  lemma PduTaken(c: Config, s: Run, a: Action, t: Run)
    requires Step(c, s, a, t) && a.PduAttempt?
    ensures a.i < |s.ues| && Taken(s, t, a.i, PduMove(c, s.ctxDone, s.ues[a.i], a.pdu))
  {
  }

  lemma Untodo(s: Run, a: Action, t: Run, i: nat)
    requires Linked(s) && a.Coordinator? && a.co.Plan? && a.co.i == i && Plans(s, t, i, a.co.alive)
    requires t.ues[i].state == UeEstablished && !t.ues[i].todo
    ensures ExcuseAt(s, a, i)
  {
    hide Linked, Change;
    PlansSame(s, t, i, a.co.alive);
    PlansLinked(s, t, i, a.co.alive);
  }

  lemma PlansSame(s: Run, t: Run, i: nat, alive: bool)
    requires Plans(s, t, i, alive)
    ensures t.ues[i].state == s.ues[i].state
  {
    hide Change;
    ChangeOnly(s, i, s.ues[i], Nothing.(dereg := DoSkip));
  }

  /**
   * A UE that is established when the run has stopped was so because, when deregisterAll came to it, its gNB's
   * association was lost or a second Stop had aborted the cleanup.
   */
  lemma EstablishedIsExcused(c: Config, states: seq<Run>, actions: seq<Action>, gnbs: nat, plan: seq<(nat, bool)>,
          n: nat, i: nat)
    requires IsRun(c, states, actions) && Init(c, states[0], gnbs, plan) && c.throughput == Throughputs(plan)
    requires n < |states| && states[n].co == CoStopped && i < |states[n].ues|
    ensures states[n].ues[i].state == UeEstablished ==> Excused(states, actions, i, n)
  {
    hide Inv, Step, Init, Throughputs, Excused;
    Reachable(c, states, actions, gnbs, plan, n);
    InvStates(c, states[n]);
    if states[n].ues[i].state == UeEstablished {
      ListedOrExcused(c, states, actions, gnbs, plan, n, i);
    }
  }

  /** So with no association lost then and no abort, none is left established. */
  lemma NoneEstablished(c: Config, states: seq<Run>, actions: seq<Action>, gnbs: nat, plan: seq<(nat, bool)>, n: nat)
    requires IsRun(c, states, actions) && Init(c, states[0], gnbs, plan) && c.throughput == Throughputs(plan)
    requires n < |states| && states[n].co == CoStopped
    requires forall i: nat :: i < |states[n].ues| ==> !Excused(states, actions, i, n)
    ensures states[n].summary.established == 0
  {
    hide Inv, Step, Init, Throughputs, Excused, CountIn, Summary.Total;
    Reachable(c, states, actions, gnbs, plan, n);
    InvSummary(c, states[n]);
    forall i | 0 <= i < |states[n].ues| ensures states[n].ues[i].state != UeEstablished {
      EstablishedIsExcused(c, states, actions, gnbs, plan, n, i);
    }
    NoneIn(states[n].ues, UeEstablished);
  }

  lemma {:induction false} StaysListed(c: Config, states: seq<Run>, actions: seq<Action>, gnbs: nat,
          plan: seq<(nat, bool)>, m: nat, n: nat, i: nat)
    requires IsRun(c, states, actions) && Init(c, states[0], gnbs, plan) && c.throughput == Throughputs(plan)
    requires m <= n < |states| && i < |states[m].ues| && states[m].ues[i].todo
    ensures i < |states[n].ues| && states[n].ues[i].todo
  {
    hide Inv, Step, Init, Throughputs;
    if m < n {
      StaysListed(c, states, actions, gnbs, plan, m, n - 1, i);
      TodoStays(c, states[n - 1], actions[n - 1], states[n], i);
    }
  }

  lemma TodoStays(c: Config, s: Run, a: Action, t: Run, i: nat)
    requires Step(c, s, a, t) && i < |s.ues| && s.ues[i].todo
    ensures i < |t.ues| && t.ues[i].todo
  {
    hide Step, Taken, PduMove;
    if a.PduAttempt? {
      PduTaken(c, s, a, t);
      PduTodo(c, s, t, a.i, a.pdu, i);
    } else {
      StepStays(c, s, a, t);
    }
  }

  lemma PduTodo(c: Config, s: Run, t: Run, j: nat, k: PduStep, i: nat)
    requires j < |s.ues| && Taken(s, t, j, PduMove(c, s.ctxDone, s.ues[j], k)) && i < |s.ues| && s.ues[i].todo
    ensures i < |t.ues| && t.ues[i].todo
  {
    var m := PduMove(c, s.ctxDone, s.ues[j], k);
    assert m.ue.todo == s.ues[j].todo;
    hide PduMove, Change;
    ChangeOnly(s, j, m.ue.(held := Given(s.ues[j].held, m.from, m.to)), m.effect);
  }

  /**
   * Every UE that registered deregisters: when deregisterAll comes to a UE with a link whose association is alive,
   * and no second Stop aborts the cleanup, the stopped run has made at least one attempt to deregister it.
   */
  lemma EveryLinkDeregisters(c: Config, states: seq<Run>, actions: seq<Action>, gnbs: nat, plan: seq<(nat, bool)>,
          m: nat, n: nat, i: nat)
    requires IsRun(c, states, actions) && Init(c, states[0], gnbs, plan) && c.throughput == Throughputs(plan)
    requires m < n < |states| && states[n].co == CoStopped && !states[n].abort
    requires actions[m] == Coordinator(Plan(i, true)) && i < |states[m].ues|
    requires states[m].ues[i].link || Up(states[m].ues[i].state)
    ensures i < |states[n].ues| && states[n].ues[i].deregAttempts >= 1
  {
    hide Inv, Step, Init, Throughputs, Linked, Plans;
    if states[m].abort {
      NeverUndone(c, states, actions, m, n);
    }
    RunLinked(c, states, actions, gnbs, plan, m);
    assert Step(c, states[m], actions[m], states[m + 1]);
    Executes(c, states[m], actions[m], states[m + 1]);
    ExecuteCo(states[m], states[m + 1], actions[m].co);
    PlansLinked(states[m], states[m + 1], i, true);
    StepStaysOn(c, states[m], actions[m], states[m + 1]);
    StaysListed(c, states, actions, gnbs, plan, m + 1, n, i);
    Reachable(c, states, actions, gnbs, plan, n);
    RunLinked(c, states, actions, gnbs, plan, n);
    ListIsDone(c, states[n], i);
  }

  lemma ListIsDone(c: Config, s: Run, i: nat)
    requires Inv(c, s) && Linked(s) && s.co == CoStopped && !s.abort && i < |s.ues| && s.ues[i].todo
    ensures s.ues[i].deregAttempts >= 1
  {
    hide UesOk, GnbsOk, Gates, UesLinked, GnbsLinked, Total, GTotal, CountIn;
    TotalGates(s.ues, i);
    LinkedAt(s, i);
  }
}
