/** The steps that change a gNB keep the invariant: N2 attempts and their round, watchers, closing. */
module RunGnbs {
  import opened MetricsStage
  import opened UeSummaries
  import opened RunModel
  import opened RunInvariant
  import opened RunPreserve
  import opened RunSteps
  import opened RunExecute

  // ----------------------------------------------------------- changing one gNB

  lemma InvGAt(c: Config, s: Run, g: nat, x: GPlace)
    requires GnbsOk(c, s) && g < |s.gnbs| && x in s.gnbs[g].held
    ensures s.gnbs[g].held == multiset{x}
    ensures GSpotOk(c, GAroundOf(s), g, s.gnbs[g], GBy(x))
  {
    hide GSpotOk;
    assert GnbOk(c, GAroundOf(s), g, s.gnbs[g]);
    Sole(s.gnbs[g].held, x);
  }

  lemma GHeldApart(c: Config, a: GAround, g: nat, r: Gnb, q: Gnb, x: GSpot)
    requires q == r.(held := q.held)
    ensures GSpotOk(c, a, g, r, x) == GSpotOk(c, a, g, q, x)
  {
    hide Booked, UpOrLost, Rank, Past;
  }

  /** The record q of gNB r adds the calls n2 and release, and may be its round's last. */
  predicate GFair(s: Run, t: Run, r: Gnb, q: Gnb, n2: StageCall, release: StageCall) {
    && q.n2 == n2.On(r.n2) && q.release == release.On(r.release)
    && t.n2 == n2.On(s.n2) && t.release == release.On(s.release)
    && t.n2Left == s.n2Left - B(!r.fin) + B(!q.fin)
  }

  lemma GBalancedUpdate(c: Config, s: Run, t: Run, g: nat, q: Gnb, n2: StageCall, release: StageCall)
    requires Balanced(c, s) && g < |s.gnbs| && GFair(s, t, s.gnbs[g], q, n2, release)
    requires t.gnbs == s.gnbs[g := q] && t.ues == s.ues && t.summary == s.summary && Kept(c, t) == Kept(c, s)
    ensures Balanced(c, t)
  {
    var r := s.gnbs[g];
    var before, after := GLedger(s.n2, s.release, s.n2Left), GLedger(t.n2, t.release, t.n2Left);
    CallAdds(n2, s.n2, r.n2);
    CallAdds(release, s.release, r.release);
    assert after.Plus(GShare(r)) == before.Plus(GShare(q)) by {
      hide Counters.Plus, StageCall.On, Total, GTotal, CountIn;
    }
    hide GFair, Kept, Total, CountIn, GShare, GTotal;
    GTotalUpdate(s.gnbs, g, q);
    GLedgerCancels(after, GTotal(t.gnbs), GShare(r));
  }

  lemma GLedgerCancels(a: GLedger, b: GLedger, x: GLedger)
    requires a.Plus(x) == b.Plus(x)
    ensures a == b
  {
    PlusCancels(a.n2, b.n2, x.n2);
    PlusCancels(a.release, b.release, x.release);
    hide Counters.Plus;
  }

  /** The other gNBs see a step go by. */
  ghost predicate GSeenBut(s: Run, t: Run, g: nat) {
    forall h :: 0 <= h < |s.gnbs| && h != g ==> GStillThere(GAroundOf(s), GAroundOf(t), h, GSpotOf(s.gnbs[h].held))
  }

  lemma GOthers(c: Config, s: Run, t: Run, g: nat)
    requires GnbsOk(c, s) && g < |s.gnbs| && |t.gnbs| == |s.gnbs| && GSeenBut(s, t, g)
    requires forall h :: 0 <= h < |s.gnbs| && h != g ==> t.gnbs[h] == s.gnbs[h]
    requires GnbOk(c, GAroundOf(t), g, t.gnbs[g])
    ensures GnbsOk(c, t)
  {
    hide GSpotOk, GStillThere;
    forall h | 0 <= h < |t.gnbs| ensures GnbOk(c, GAroundOf(t), h, t.gnbs[h]) {
      if h != g {
        assert GnbOk(c, GAroundOf(s), h, s.gnbs[h]);
        assert GStillThere(GAroundOf(s), GAroundOf(t), h, GSpotOf(s.gnbs[h].held));
        GSpotSeen(c, GAroundOf(s), GAroundOf(t), h, s.gnbs[h], GSpotOf(s.gnbs[h].held));
      }
    }
  }

  /** A step that changes gNB g and, of the UEs' surroundings, at most where execute is. */
  lemma GAssembled(c: Config, s: Run, t: Run, g: nat, q: Gnb, n2: StageCall, release: StageCall)
    requires Inv(c, s) && g < |s.gnbs| && GFair(s, t, s.gnbs[g], q, n2, release)
    requires t == s.(co := t.co, gnbs := s.gnbs[g := q], n2 := t.n2, release := t.release, n2Left := t.n2Left,
            n2Closes := t.n2Closes, n2Hand := t.n2Hand)
    requires q.cover == s.gnbs[g].cover && GnbOk(c, GAroundOf(t), g, q) && GSeenBut(s, t, g)
    requires SeenBut(c, s, t, -1)
    requires Gates(t)
    ensures Inv(c, t)
  {
    assert Kept(c, t) == Kept(c, s);
    hide SpotOk, GSpotOk, GFair, GSeenBut, Kept, Gates;
    GBalancedUpdate(c, s, t, g, q, n2, release);
    GOthers(c, s, t, g);
    hide Balanced, GnbsOk;
    forall j | 0 <= j < |t.ues| ensures t.ues[j].gnb < |t.gnbs| && UeOk(c, AroundOf(t, j), j, t.ues[j]) {
      assert Seen(c, s, t, j);
    }
  }

  /** What a move must do for one gNB, whatever the rest of the run is. */
  predicate GMoveOk(c: Config, a: GAround, g: nat, r: Gnb, m: GMove) {
    && GSpotOk(c, a, g, m.gnb.(n2 := m.n2.On(r.n2), release := m.release.On(r.release)), m.to)
    && m.gnb.cover == r.cover && m.gnb.fin == r.fin
  }

  lemma SeenSame(c: Config, s: Run, t: Run)
    requires t.co == s.co && t.disp == s.disp && |t.gnbs| == |s.gnbs|
    requires forall g :: 0 <= g < |s.gnbs| ==> t.gnbs[g].cover == s.gnbs[g].cover
    requires forall j :: 0 <= j < |s.ues| ==> s.ues[j].gnb < |s.gnbs|
    ensures SeenBut(c, s, t, -1)
  {
    hide SpotOk;
  }

  lemma GSeenSame(s: Run, t: Run)
    requires GAroundOf(t) == GAroundOf(s)
    ensures forall h :: 0 <= h < |s.gnbs| ==> GStillThere(GAroundOf(s), GAroundOf(t), h, GSpotOf(s.gnbs[h].held))
  {
  }

  /** A step that changes only gNB g. */
  lemma OneGnb(c: Config, s: Run, t: Run, g: nat, q: Gnb, n2: StageCall, release: StageCall)
    requires Inv(c, s) && g < |s.gnbs| && q.cover == s.gnbs[g].cover && q.fin == s.gnbs[g].fin
    requires q.n2 == n2.On(s.gnbs[g].n2) && q.release == release.On(s.gnbs[g].release)
    requires t == s.(gnbs := s.gnbs[g := q], n2 := n2.On(s.n2), release := release.On(s.release))
    requires GnbOk(c, GAroundOf(s), g, q)
    requires Gates(t)
    ensures Inv(c, t)
  {
    hide Inv, GnbOk, GnbsOk, Gates, Balanced, UesOk;
    InvGnbs(c, s);
    assert GFair(s, t, s.gnbs[g], q, n2, release) by { hide StageCall.On; }
    assert GAroundOf(t) == GAroundOf(s);
    SeenSame(c, s, t);
    GSeenSame(s, t);
    hide SeenBut, GFair, GStillThere, StageCall.On;
    GAssembled(c, s, t, g, q, n2, release);
  }

  lemma GMoveKeeps(c: Config, s: Run, t: Run, g: nat, m: GMove)
    requires Inv(c, s) && GTaken(s, t, g, m)
    requires s.n2Hand == g ==> m.from != GHand
    requires GSpotOk(c, GAroundOf(s), g, s.gnbs[g], GBy(m.from)) ==> GMoveOk(c, GAroundOf(s), g, s.gnbs[g], m)
    ensures Inv(c, t)
  {
    var r := s.gnbs[g];
    hide Inv, GSpotOk, GnbsOk, Gates, StageCall.On;
    InvGnbs(c, s);
    InvGAt(c, s, g, m.from);
    var p := m.gnb.(n2 := m.n2.On(r.n2), release := m.release.On(r.release));
    var q := p.(held := GGiven(r.held, m.from, m.to));
    GHeldApart(c, GAroundOf(s), g, p, q, m.to);
    assert GSpotOf(q.held) == m.to && |q.held| <= 1;
    MovedGates(s, t, g, m.from, q);
    OneGnb(c, s, t, g, q, m.n2, m.release);
  }

  /** A gNB that runN2 has in its hand is not moved by anyone else. */
  lemma MovedGates(s: Run, t: Run, g: nat, x: GPlace, q: Gnb)
    requires Gates(s) && g < |s.gnbs| && s.gnbs[g].held == multiset{x} && (s.n2Hand == g ==> x != GHand)
    requires t == s.(gnbs := s.gnbs[g := q], n2 := t.n2, release := t.release)
    ensures Gates(t)
  {
  }

  // ------------------------------------------------------------------ attemptN2

  lemma N2Tries(c: Config, a: GAround, ctxDone: bool, g: nat, r: Gnb, k: N2Step)
    requires k.NLock? || k.NCall? || k.NAnswer? || k.NGiveBack? || k.NBackState? || k.NAgain?
    requires GSpotOk(c, a, g, r, GBy(N2Move(c, ctxDone, r, k).from))
    ensures GMoveOk(c, a, g, r, N2Move(c, ctxDone, r, k))
  {
    hide GRest;
  }

  lemma N2Ends(c: Config, a: GAround, ctxDone: bool, g: nat, r: Gnb, k: N2Step)
    requires k.NFinish? || k.NUp? || k.NFailed? || k.NConn?
    requires GSpotOk(c, a, g, r, GBy(N2Move(c, ctxDone, r, k).from))
    ensures GMoveOk(c, a, g, r, N2Move(c, ctxDone, r, k))
  {
    hide GRest;
  }

  lemma CloserOk(c: Config, a: GAround, g: nat, r: Gnb, k: CloseStep)
    requires GSpotOk(c, a, g, r, GBy(CloseMove(r, k).from))
    ensures GMoveOk(c, a, g, r, CloseMove(r, k))
  {
    hide N2Holds;
  }

  lemma N2Keeps(c: Config, s: Run, t: Run, g: nat, k: N2Step)
    requires Inv(c, s) && g < |s.gnbs| && GTaken(s, t, g, N2Move(c, s.ctxDone, s.gnbs[g], k))
    ensures Inv(c, t)
  {
    var a, r := GAroundOf(s), s.gnbs[g];
    var m := N2Move(c, s.ctxDone, r, k);
    assert m.from != GHand;
    hide Inv, GSpotOk, GMoveOk, N2Move, GTaken, GnbsOk;
    InvGnbs(c, s);
    assert GSpotOk(c, a, g, r, GBy(m.from)) ==> GMoveOk(c, a, g, r, m) by {
      if GSpotOk(c, a, g, r, GBy(m.from)) {
        if k.NFinish? || k.NUp? || k.NFailed? || k.NConn? {
          N2Ends(c, a, s.ctxDone, g, r, k);
        } else {
          N2Tries(c, a, s.ctxDone, g, r, k);
        }
      }
    }
    GMoveKeeps(c, s, t, g, m);
  }

  lemma CloserKeeps(c: Config, s: Run, t: Run, g: nat, k: CloseStep)
    requires Inv(c, s) && g < |s.gnbs| && GTaken(s, t, g, CloseMove(s.gnbs[g], k))
    ensures Inv(c, t)
  {
    var a, r := GAroundOf(s), s.gnbs[g];
    var m := CloseMove(r, k);
    assert m.from != GHand;
    hide Inv, GSpotOk, GMoveOk, CloseMove, GTaken;
    assert GSpotOk(c, a, g, r, GBy(m.from)) ==> GMoveOk(c, a, g, r, m) by {
      if GSpotOk(c, a, g, r, GBy(m.from)) {
        CloserOk(c, a, g, r, k);
      }
    }
    GMoveKeeps(c, s, t, g, m);
  }

  // ------------------------------------------------------------ watchAssociation

  lemma WatcherOk(c: Config, a: GAround, ctxDone: bool, g: nat, r: Gnb, k: WatchStep, x: GSpot)
    requires GSpotOk(c, a, g, r, x) && WatchReady(r, k)
    ensures GSpotOk(c, a, g, Watched(ctxDone, r, k), x)
  {
    hide Booked, Past, Rank;
  }

  lemma WatcherKeeps(c: Config, s: Run, t: Run, g: nat, k: WatchStep)
    requires Inv(c, s) && g < |s.gnbs| && WatchReady(s.gnbs[g], k)
    requires t == ChangeGnb(s, g, Watched(s.ctxDone, s.gnbs[g], k), NoCall, NoCall)
    ensures Inv(c, t)
  {
    var a, r := GAroundOf(s), s.gnbs[g];
    var q := Watched(s.ctxDone, r, k);
    hide Inv, GSpotOk, GnbsOk, Gates;
    InvGnbs(c, s);
    InvG(c, s, g);
    WatcherOk(c, a, s.ctxDone, g, r, k, GSpotOf(r.held));
    assert q == r.(state := q.state, conn := q.conn, watch := q.watch);
    hide Watched, WatchReady;
    assert t == s.(gnbs := s.gnbs[g := q]);
    hide ChangeGnb;
    SameHandGates(s, t, g, q);
    OneGnb(c, s, t, g, q, NoCall, NoCall);
  }

  lemma InvG(c: Config, s: Run, g: nat)
    requires GnbsOk(c, s) && g < |s.gnbs|
    ensures GnbOk(c, GAroundOf(s), g, s.gnbs[g])
  {
  }

  lemma SameHandGates(s: Run, t: Run, g: nat, q: Gnb)
    requires Gates(s) && g < |s.gnbs| && q.held == s.gnbs[g].held && t == s.(gnbs := s.gnbs[g := q])
    ensures Gates(t)
  {
  }

  // ------------------------------------------------- runN2, and execute's gNB loops

  /** Where execute may go while a gNB changes, and whom runN2 may then have in its hand. */
  predicate GTurns(a: Run, b: Run, g: nat) {
    || (a.co == b.co && (a.n2Hand == b.n2Hand || a.n2Hand == -1 || a.n2Hand == g))
    || (a.co == CoN2 && b.co == CoN2Wait && a.n2Hand == g)
    || (a.co == CoSkipGnb(g) && b.co == CoSkipGnb(g + 1))
    || (a.co == CoClose(g) && b.co == CoClose(g + 1))
  }

  lemma GTurnSeen(c: Config, s: Run, t: Run, g: nat)
    requires Gates(s) && GTurns(s, t, g) && |t.ues| == |s.ues| && t.disp == s.disp && |t.gnbs| == |s.gnbs|
    requires forall h :: 0 <= h < |s.gnbs| ==> t.gnbs[h].cover == s.gnbs[h].cover
    requires forall j :: 0 <= j < |s.ues| ==> s.ues[j].gnb < |s.gnbs|
    ensures GSeenBut(s, t, g) && SeenBut(c, s, t, -1)
  {
    forall j | 0 <= j < |s.ues| ensures Seen(c, s, t, j) {
      var x := SpotOf(s.ues[j].held);
      var a := AroundOf(s, j);
      var b := a.(co := t.co);
      assert StillThere(a, b, j, x) && (Listed(a.co, j) ==> Listed(b.co, j)) by { hide SpotOk; }
      hide SpotOk, StillThere, Listed;
      if SpotOk(c, a, j, s.ues[j], x) {
        SpotSeen(c, a, b, j, s.ues[j], x);
      }
    }
  }

  lemma GTurnKeeps(c: Config, s: Run, t: Run, g: nat, q: Gnb, n2: StageCall, release: StageCall)
    requires Inv(c, s) && g < |s.gnbs| && GFair(s, t, s.gnbs[g], q, n2, release) && GTurns(s, t, g)
    requires t == s.(co := t.co, gnbs := s.gnbs[g := q], n2 := t.n2, release := t.release, n2Left := t.n2Left,
            n2Closes := t.n2Closes, n2Hand := t.n2Hand)
    requires q.cover == s.gnbs[g].cover && GnbOk(c, GAroundOf(t), g, q)
    requires Gates(t)
    ensures Inv(c, t)
  {
    hide Inv, GnbOk, GnbsOk, Balanced;
    InvGnbs(c, s);
    GTurnSeen(c, s, t, g);
    hide Gates, GFair, GTurns, SeenBut, GSeenBut;
    GAssembled(c, s, t, g, q, n2, release);
  }

  lemma HandOk(c: Config, a: GAround, g: nat, r: Gnb, q: Gnb, k: N2Round)
    requires k.NPop? || k.NLaunch?
    requires a.co == CoN2 && q == r.(held := q.held) && (k.NLaunch? ==> a.hand == g)
    requires GSpotOk(c, a, g, r, GBy(if k.NPop? then GQueued else GHand))
    requires q.held == multiset{if k.NPop? then GHand else GAtt(GStart)}
    ensures GnbOk(c, a.(hand := if k.NPop? then g else -1), g, q)
  {
    hide Booked;
    assert GSpotOf(q.held) == GBy(if k.NPop? then GHand else GAtt(GStart));
    GHeldApart(c, a.(hand := if k.NPop? then g else -1), g, r, q, GSpotOf(q.held));
  }

  lemma HandKeeps(c: Config, s: Run, t: Run, g: nat, k: N2Round)
    requires Inv(c, s) && g < |s.gnbs| && (k.NPop? || k.NLaunch?) && RunN2(s, t, g, k)
    ensures Inv(c, t)
  {
    var r := s.gnbs[g];
    var x, y := if k.NPop? then GQueued else GHand, if k.NPop? then GHand else GAtt(GStart);
    var q := r.(held := multiset{y});
    hide Inv, GSpotOk, GnbsOk, Gates;
    InvGnbs(c, s);
    InvGAt(c, s, g, x);
    assert multiset{x} - multiset{x} + multiset{y} == multiset{y};
    HandOk(c, GAroundOf(s), g, r, q, k);
    assert t == s.(gnbs := s.gnbs[g := q], n2Hand := if k.NPop? then g else -1) by { hide GnbOk; }
    hide RunN2, GnbOk;
    HandGates(s, t, g, q);
    assert GFair(s, t, r, q, NoCall, NoCall);
    assert GTurns(s, t, g);
    hide GFair, GTurns;
    GTurnKeeps(c, s, t, g, q, NoCall, NoCall);
  }

  lemma HandGates(s: Run, t: Run, g: nat, q: Gnb)
    requires Gates(s) && g < |s.gnbs| && s.co == CoN2
    requires (t.n2Hand == g && GHand in q.held) || t.n2Hand == -1
    requires t == s.(gnbs := s.gnbs[g := q], n2Hand := t.n2Hand)
    ensures Gates(t)
  {
  }

  // ------------------------------------------------- the round, dropping, skipping, closing

  lemma CoveredAllKeeps(c: Config, s: Run, t: Run, g: nat, k: N2Round)
    requires Inv(c, s) && g < |s.gnbs| && (k.NEnqueueEnd? || k.NSkipEnd?) && RunN2(s, t, g, k)
    ensures Inv(c, t)
  {
    var a, r := GAroundOf(s), s.gnbs[g];
    var m := GMove(GAtt(if k.NEnqueueEnd? then GEnq else GSkip), GBy(GAtt(GDone)), r, NoCall, NoCall);
    FromRound(s, t, g, k, m);
    hide Inv, GTaken, GTake, GSpotOk, GMoveOk, RunN2;
    if GSpotOk(c, a, g, r, GBy(m.from)) {
      CoveredAllOk(c, a, g, r, m);
    }
    GMoveKeeps(c, s, t, g, m);
  }

  lemma CoveredAllOk(c: Config, a: GAround, g: nat, r: Gnb, m: GMove)
    requires r.cover == a.ues && (m.from == GAtt(GEnq) || m.from == GAtt(GSkip))
    requires m == GMove(m.from, GBy(GAtt(GDone)), r, NoCall, NoCall)
    requires GSpotOk(c, a, g, r, GBy(m.from))
    ensures GMoveOk(c, a, g, r, m)
  {
  }

  lemma FromRound(s: Run, t: Run, g: nat, k: N2Round, m: GMove)
    requires g < |s.gnbs| && (k.NEnqueueEnd? || k.NSkipEnd?) && RunN2(s, t, g, k)
    requires m == GMove(GAtt(if k.NEnqueueEnd? then GEnq else GSkip), GBy(GAtt(GDone)), s.gnbs[g], NoCall, NoCall)
    ensures GTaken(s, t, g, m) && s.gnbs[g].cover == |s.ues|
  {
    hide ChangeGnb, Covered;
  }

  lemma FromFinished(s: Run, t: Run, g: nat)
    requires g < |s.gnbs| && s.gnbs[g].held == multiset{GAtt(GDone)} && RunN2(s, t, g, NFinished)
    ensures t == s.(gnbs := s.gnbs[g := s.gnbs[g].(held := multiset{}, fin := true)], n2Left := s.n2Left - 1,
                    n2Closes := s.n2Closes + (if s.n2Left - 1 == 0 then 1 else 0))
  {
    assert multiset{GAtt(GDone)} - multiset{GAtt(GDone)} == multiset{};
  }

  /** n2Round.finished: left never goes below zero, so allDone is closed once. */
  lemma FinishedKeeps(c: Config, s: Run, t: Run, g: nat)
    requires Inv(c, s) && g < |s.gnbs| && RunN2(s, t, g, NFinished)
    ensures Inv(c, t)
  {
    var r := s.gnbs[g];
    var q := r.(held := multiset{}, fin := true);
    hide Inv, GSpotOk, GnbsOk, Gates;
    InvGnbs(c, s);
    InvGAt(c, s, g, GAtt(GDone));
    FromFinished(s, t, g);
    hide RunN2;
    FinishedOk(c, GAroundOf(s), g, r, q);
    hide GnbOk;
    FinishedGates(c, s, t, g, q);
    assert GFair(s, t, r, q, NoCall, NoCall);
    assert GTurns(s, t, g);
    hide GFair, GTurns;
    GTurnKeeps(c, s, t, g, q, NoCall, NoCall);
  }

  lemma FinishedOk(c: Config, a: GAround, g: nat, r: Gnb, q: Gnb)
    requires GSpotOk(c, a, g, r, GBy(GAtt(GDone))) && q == r.(held := multiset{}, fin := true)
    ensures !r.fin && GnbOk(c, a, g, q)
  {
  }

  lemma FinishedGates(c: Config, s: Run, t: Run, g: nat, q: Gnb)
    requires Gates(s) && Balanced(c, s) && g < |s.gnbs| && !s.gnbs[g].fin && s.gnbs[g].held == multiset{GAtt(GDone)}
    requires t == s.(gnbs := s.gnbs[g := q], n2Left := s.n2Left - 1,
            n2Closes := s.n2Closes + (if s.n2Left - 1 == 0 then 1 else 0))
    ensures Gates(t)
  {
    hide Total, GTotal, CountIn;
    GTotalLeft(s.gnbs, g);
  }

  lemma DroppedOk(c: Config, a: GAround, g: nat, r: Gnb)
    requires GSpotOk(c, a, g, r, GBy(GHand))
    ensures GnbOk(c, a.(co := CoN2Wait, hand := -1), g, r.(held := multiset{}))
  {
  }

  lemma N2ReturnKeeps(c: Config, s: Run, t: Run)
    requires Inv(c, s) && N2Returns(s, t)
    ensures Inv(c, t)
  {
    hide Inv, GSpotOk, GnbsOk, Gates;
    InvGnbs(c, s);
    if 0 <= s.n2Hand < |s.gnbs| {
      var g: nat := s.n2Hand;
      var r := s.gnbs[g];
      var q := r.(held := multiset{});
      assert GHand in r.held by { hide *; InHandOf(s); }
      InvGAt(c, s, g, GHand);
      assert multiset{GHand} - multiset{GHand} == multiset{};
      DroppedOk(c, GAroundOf(s), g, r);
      assert t == s.(gnbs := s.gnbs[g := q], co := CoN2Wait, n2Hand := -1);
      ReturnGates(s, t);
      hide N2Returns, GnbOk;
      assert GFair(s, t, r, q, NoCall, NoCall);
      assert GTurns(s, t, g);
      hide GFair, GTurns;
      GTurnKeeps(c, s, t, g, q, NoCall, NoCall);
    } else {
      assert s.n2Hand == -1 by { InHandOf(s); }
      ReturnGates(s, t);
      EmptyHanded(c, s, t);
    }
  }

  lemma InHandOf(s: Run)
    requires Gates(s)
    ensures s.n2Hand == -1 || (0 <= s.n2Hand < |s.gnbs| && GHand in s.gnbs[s.n2Hand].held)
  {
  }

  lemma ReturnGates(s: Run, t: Run)
    requires Gates(s) && s.co == CoN2 && t == s.(gnbs := t.gnbs, co := CoN2Wait, n2Hand := -1) && |t.gnbs| == |s.gnbs|
    ensures Gates(t)
  {
  }

  lemma EmptyHanded(c: Config, s: Run, t: Run)
    requires Inv(c, s) && s.co == CoN2 && s.n2Hand == -1 && t == s.(co := CoN2Wait, n2Hand := -1) && Gates(t)
    ensures Inv(c, t)
  {
    hide Gates, Balanced, UesOk;
    InvGnbs(c, s);
    forall g | 0 <= g < |t.gnbs| ensures GnbOk(c, GAroundOf(t), g, t.gnbs[g]) {
      InvG(c, s, g);
      assert GStillThere(GAroundOf(s), GAroundOf(t), g, GSpotOf(s.gnbs[g].held));
      hide GSpotOk, GStillThere;
      GSpotSeen(c, GAroundOf(s), GAroundOf(t), g, s.gnbs[g], GSpotOf(s.gnbs[g].held));
    }
    forall j | 0 <= j < |s.ues| ensures Seen(c, s, t, j) {
      hide Inv;
      assert StillThere(AroundOf(s, j), AroundOf(t, j), j, SpotOf(s.ues[j].held));
      assert !Listed(s.co, j);
      hide Seen, StillThere;
      SpotSeenAt(c, s, t, j);
    }
    hide Inv, GnbOk, Seen;
    Moved1(c, s, t);
  }

  /** skipUnfinished counts a gNB without an outcome as skipped: at that point, one no N2 round finished. */
  lemma SkipGnbOk(c: Config, a: GAround, g: nat, r: Gnb)
    requires GnbOk(c, a, g, r) && a.co == CoSkipGnb(g)
    ensures GnbOk(c, a.(co := CoSkipGnb(g + 1)), g,
                  if r.state == GnbPending || r.state == GnbConnecting then r.(n2 := r.n2.Skip()) else r)
  {
  }

  lemma SkipGnbKeeps(c: Config, s: Run, t: Run, g: nat)
    requires Inv(c, s) && SkipsGnb(s, t, g)
    ensures Inv(c, t)
  {
    var r := s.gnbs[g];
    var call := if r.state == GnbPending || r.state == GnbConnecting then DoSkip else NoCall;
    SkipsGnbIs(s, t, g, call);
    hide SkipsGnb, Inv, GnbsOk, GnbOk;
    InvGnbs(c, s);
    InvG(c, s, g);
    SkipGnbOk(c, GAroundOf(s), g, r);
    GLoopKeeps(c, s, t, g, r.(n2 := call.On(r.n2)), call, NoCall);
  }

  lemma SkipsGnbIs(s: Run, t: Run, g: nat, call: StageCall)
    requires SkipsGnb(s, t, g)
    requires call == if s.gnbs[g].state == GnbPending || s.gnbs[g].state == GnbConnecting then DoSkip else NoCall
    ensures t == s.(gnbs := s.gnbs[g := s.gnbs[g].(n2 := call.On(s.gnbs[g].n2))], n2 := call.On(s.n2),
            co := CoSkipGnb(g + 1))
  {
  }

  lemma GLoopGates(s: Run, t: Run, g: nat, q: Gnb)
    requires Gates(s) && g < |s.gnbs|
    requires (s.co == CoSkipGnb(g) && t.co == CoSkipGnb(g + 1)) || (s.co == CoClose(g) && t.co == CoClose(g + 1))
    requires t == s.(gnbs := s.gnbs[g := q], n2 := t.n2, release := t.release, co := t.co)
    ensures Gates(t)
  {
  }

  /** One turn of a loop of execute over the gNBs. */
  lemma GLoopKeeps(c: Config, s: Run, t: Run, g: nat, q: Gnb, n2: StageCall, release: StageCall)
    requires Inv(c, s) && g < |s.gnbs|
    requires (s.co == CoSkipGnb(g) && t.co == CoSkipGnb(g + 1)) || (s.co == CoClose(g) && t.co == CoClose(g + 1))
    requires t == s.(gnbs := s.gnbs[g := q], n2 := n2.On(s.n2), release := release.On(s.release), co := t.co)
    requires q == s.gnbs[g].(conn := q.conn, held := q.held, n2 := n2.On(s.gnbs[g].n2),
            release := release.On(s.gnbs[g].release))
    requires GnbOk(c, GAroundOf(t), g, q)
    ensures Inv(c, t)
  {
    hide Inv, GnbsOk, Gates, GnbOk, StageCall.On;
    InvGnbs(c, s);
    GLoopGates(s, t, g, q);
    assert GFair(s, t, s.gnbs[g], q, n2, release);
    assert GTurns(s, t, g);
    hide GFair, GTurns;
    GTurnKeeps(c, s, t, g, q, n2, release);
  }

  /** closeConns takes the gNB's connection, or counts it skipped. */
  function Taking(r: Gnb): Gnb {
    if r.conn then r.(conn := false, held := r.held + multiset{GAtt(RBegin)}) else r.(release := r.release.Skip())
  }

  lemma CloseOk(c: Config, a: GAround, g: nat, r: Gnb)
    requires GnbOk(c, a, g, r) && a.co == CoClose(g)
    ensures GnbOk(c, a.(co := CoClose(g + 1)), g, Taking(r))
  {
    assert r.held != multiset{} ==> !r.conn;
    if r.conn {
      assert Taking(r).held == multiset{GAtt(RBegin)};
      assert GSpotOf(multiset{GAtt(RBegin)}) == GBy(GAtt(RBegin));
    }
  }

  lemma CloseKeeps(c: Config, s: Run, t: Run, g: nat)
    requires Inv(c, s) && Closes(s, t, g)
    ensures Inv(c, t)
  {
    var r := s.gnbs[g];
    var call := if r.conn then NoCall else DoSkip;
    ClosesIs(s, t, g, call);
    hide Closes, Inv, GnbsOk, GnbOk, Taking;
    InvGnbs(c, s);
    InvG(c, s, g);
    CloseOk(c, GAroundOf(s), g, r);
    GLoopKeeps(c, s, t, g, Taking(r), NoCall, call);
  }

  lemma ClosesIs(s: Run, t: Run, g: nat, call: StageCall)
    requires Closes(s, t, g) && call == if s.gnbs[g].conn then NoCall else DoSkip
    ensures t == s.(gnbs := s.gnbs[g := Taking(s.gnbs[g])], release := call.On(s.release), co := CoClose(g + 1))
    ensures var q, r := Taking(s.gnbs[g]), s.gnbs[g];
            q == r.(conn := q.conn, held := q.held, release := call.On(r.release))
  {
  }

  // ----------------------------- startGnb's and skipGnbUes' loops: one UE of one gNB

  lemma CoverSeen(c: Config, a: Around, b: Around, j: nat, u: Ue, x: Spot)
    requires SpotOk(c, a, j, u, x) && b == a.(cover := a.cover + 1) && (j != a.cover || 6 <= Rank(a.co))
    ensures SpotOk(c, b, j, u, x)
  {
    ProcHoldsSeen(c, a, b, j, u);
    hide ProcHolds, Queueing, Attempting;
    assert x.By? && x.x.Drained? && !x.x.counted ==> DeregHolds(c, a, j, u, Start) == DeregHolds(c, b, j, u, Start);
  }

  /** While gNB g's worker is at UE i, changing UE i (or nothing) and going on to the next. */
  lemma CoverKeeps(c: Config, s: Run, t: Run, g: nat, i: nat, v: Ue, e: Effect)
    requires Inv(c, s) && g < |s.gnbs| && i < |s.ues| && s.gnbs[g].cover == i
    requires s.ues[i].gnb < |s.gnbs| && Fair(s.ues[i], v, e) && !e.leftDown
    requires s.gnbs[g].held == multiset{GAtt(GEnq)} || s.gnbs[g].held == multiset{GAtt(GSkip)}
    requires t == Covered(Change(s, i, v, e), g)
    requires var a := AroundOf(s, i);
             UeOk(c, if s.ues[i].gnb == g then a.(cover := i + 1) else a, i, v.(book := e.Note(s.ues[i].book)))
    ensures Inv(c, t)
  {
    hide Inv, GnbOk, UeOk, Gates, GnbsOk, Balanced;
    CoverIs(s, t, g, i, v, e);
    InvGnbs(c, s);
    CoverCounts(c, s, t, g, i, v, e);
    hide Change, Covered, Fair, Effect.Note;
    CoverGnbs(c, s, t, g, t.gnbs[g]);
    forall j | 0 <= j < |t.ues| ensures t.ues[j].gnb < |t.gnbs| && UeOk(c, AroundOf(t, j), j, t.ues[j]) {
      CoverUe(c, s, t, g, i, j);
    }
    InvParts(c, t);
  }

  lemma InvParts(c: Config, s: Run)
    requires forall j :: 0 <= j < |s.ues| ==> s.ues[j].gnb < |s.gnbs| && UeOk(c, AroundOf(s, j), j, s.ues[j])
    requires GnbsOk(c, s) && Gates(s) && Balanced(c, s)
    ensures Inv(c, s)
  {
    hide UeOk, GnbsOk, Gates, Balanced;
  }

  lemma CoverIs(s: Run, t: Run, g: nat, i: nat, v: Ue, e: Effect)
    requires g < |s.gnbs| && i < |s.ues| && s.gnbs[g].cover == i && Fair(s.ues[i], v, e)
    requires t == Covered(Change(s, i, v, e), g)
    ensures t.ues == s.ues[i := v.(book := e.Note(s.ues[i].book))] && t.ues[i].gnb == s.ues[i].gnb
    ensures t.gnbs == s.gnbs[g := s.gnbs[g].(cover := i + 1)]
    ensures t.co == s.co && t.disp == s.disp && GAroundOf(t) == GAroundOf(s)
  {
  }

  lemma CoverCounts(c: Config, s: Run, t: Run, g: nat, i: nat, v: Ue, e: Effect)
    requires Gates(s) && Balanced(c, s) && g < |s.gnbs| && i < |s.ues| && Fair(s.ues[i], v, e) && !e.leftDown
    requires t == Covered(Change(s, i, v, e), g)
    ensures Gates(t) && Balanced(c, t)
  {
    var m := Change(s, i, v, e);
    var q := m.gnbs[g].(cover := m.gnbs[g].cover + 1);
    GatesCountDown(c, s, i, v, e);
    BalancedUpdate(c, s, i, v, e);
    hide Change, Gates, Fair, Balanced;
    SameHandGates(m, t, g, q);
    GBalancedUpdate(c, m, t, g, q, NoCall, NoCall);
  }

  lemma CoverGnbs(c: Config, s: Run, t: Run, g: nat, q: Gnb)
    requires GnbsOk(c, s) && g < |s.gnbs| && q == s.gnbs[g].(cover := s.gnbs[g].cover + 1) && t.gnbs == s.gnbs[g := q]
    requires GAroundOf(t) == GAroundOf(s) && s.gnbs[g].cover < |s.ues|
    requires s.gnbs[g].held == multiset{GAtt(GEnq)} || s.gnbs[g].held == multiset{GAtt(GSkip)}
    ensures GnbsOk(c, t)
  {
    var x := if s.gnbs[g].held == multiset{GAtt(GEnq)} then GAtt(GEnq) else GAtt(GSkip);
    assert x in s.gnbs[g].held;
    InvGAt(c, s, g, x);
    assert GSpotOf(q.held) == GBy(x) && |q.held| <= 1;
    assert GSpotOk(c, GAroundOf(t), g, q, GBy(x));
    hide GSpotOk, GnbsOk;
    GSeenSame(s, t);
    hide GStillThere;
    GOthers(c, s, t, g);
  }

  lemma CoverUe(c: Config, s: Run, t: Run, g: nat, i: nat, j: nat)
    requires Inv(c, s) && g < |s.gnbs| && i < |s.ues| && s.gnbs[g].cover == i && j < |s.ues|
    requires t.co == s.co && t.disp == s.disp && t.gnbs == s.gnbs[g := s.gnbs[g].(cover := i + 1)] && |t.ues| == |s.ues|
    requires j != i ==> t.ues[j] == s.ues[j]
    requires t.ues[i].gnb == s.ues[i].gnb && s.ues[i].gnb < |s.gnbs|
    requires var a := AroundOf(s, i); UeOk(c, if s.ues[i].gnb == g then a.(cover := i + 1) else a, i, t.ues[i])
    ensures t.ues[j].gnb < |t.gnbs| && UeOk(c, AroundOf(t, j), j, t.ues[j])
  {
    hide Inv, SpotOk;
    InvUe(c, s, j);
    var a := AroundOf(s, j);
    if j == i {
      hide UeOk;
    } else if s.ues[j].gnb == g {
      CoverSeen(c, a, a.(cover := a.cover + 1), j, s.ues[j], SpotOf(s.ues[j].held));
    } else {
      assert AroundOf(t, j) == a;
    }
  }

  /** startGnb reaches a UE of its gNB: nothing has it yet, and now registration's queue does. */
  lemma EnqueueRegOk(c: Config, a: Around, i: nat, u: Ue)
    requires UeOk(c, a, i, u) && a.cover == i && 1 <= Rank(a.co) <= 2 && a.disp.cp == Off
    ensures u.held == multiset{}
    ensures var b := a.(cover := i + 1); UeOk(c, b, i, if u.cp then u else u.(held := multiset{Queued(Reg)}))
  {
    var x := SpotOf(u.held);
    assert x == Free by { hide Booked, NoCpCalls; }
    assert SpotOf(multiset{Queued(Reg)}) == By(Queued(Reg));
    hide PduHolds, CpHolds, DeregHolds;
  }

  /** skipGnbUes reaches a UE of its gNB. */
  lemma SkippedOk(c: Config, a: Around, i: nat, u: Ue)
    requires UeOk(c, a, i, u) && a.cover == i && 1 <= Rank(a.co) <= 2 && a.disp.cp == Off
    ensures UeOk(c, a.(cover := i + 1), i, SkippedUe(u).(book := SkipEffect(u).Note(u.book)))
    ensures Fair(u, SkippedUe(u), SkipEffect(u))
  {
    var x := SpotOf(u.held);
    assert x == Free by { hide Booked, NoCpCalls; }
    hide RegHolds, PduHolds, CpHolds, DeregHolds;
  }

  /** A UE of another gNB does not see the loop. */
  lemma OtherGnbsUe(c: Config, s: Run, g: nat, i: nat)
    requires GnbsOk(c, s) && Gates(s) && g < |s.gnbs| && (GAtt(GEnq) in s.gnbs[g].held || GAtt(GSkip) in s.gnbs[g].held)
    ensures s.gnbs[g].held == multiset{GAtt(GEnq)} || s.gnbs[g].held == multiset{GAtt(GSkip)}
    ensures 1 <= Rank(s.co) <= 2 && s.disp.cp == Off
  {
    if GAtt(GEnq) in s.gnbs[g].held {
      InvGAt(c, s, g, GAtt(GEnq));
    } else {
      InvGAt(c, s, g, GAtt(GSkip));
    }
  }

  lemma EnqueueRegKeeps(c: Config, s: Run, t: Run, g: nat, i: nat)
    requires Inv(c, s) && g < |s.gnbs| && i < |s.ues| && s.gnbs[g].cover == i && GAtt(GEnq) in s.gnbs[g].held
    requires t == Covered(if s.ues[i].gnb == g && !s.ues[i].cp then Pushed(s, i, Reg) else s, g)
    ensures Inv(c, t)
  {
    var u := s.ues[i];
    hide Inv, UeOk, Gates, GnbsOk, Covered, Pushed, Change;
    InvGnbs(c, s);
    InvUe(c, s, i);
    OtherGnbsUe(c, s, g, i);
    NothingNotes(u.book);
    if u.gnb == g {
      EnqueueRegOk(c, AroundOf(s, i), i, u);
    }
    if u.gnb == g && !u.cp {
      var v := u.(held := multiset{Queued(Reg)});
      PushedIs(s, i, Reg);
      assert Fair(u, v, Nothing);
      CoverKeeps(c, s, t, g, i, v, Nothing);
    } else {
      ChangeNone(s, i);
      FairSame(u);
      CoverKeeps(c, s, t, g, i, u, Nothing);
    }
  }

  lemma SkipUesKeeps(c: Config, s: Run, t: Run, g: nat, i: nat)
    requires Inv(c, s) && g < |s.gnbs| && i < |s.ues| && s.gnbs[g].cover == i && GAtt(GSkip) in s.gnbs[g].held
    requires t == Covered(if s.ues[i].gnb == g then Change(s, i, SkippedUe(s.ues[i]), SkipEffect(s.ues[i])) else s, g)
    ensures Inv(c, t)
  {
    var u := s.ues[i];
    hide Inv, UeOk, Gates, GnbsOk, Covered, Change;
    InvGnbs(c, s);
    InvUe(c, s, i);
    OtherGnbsUe(c, s, g, i);
    NothingNotes(u.book);
    if u.gnb == g {
      SkippedOk(c, AroundOf(s, i), i, u);
      assert !SkipEffect(u).leftDown;
      hide SkippedUe, SkipEffect, Fair;
      CoverKeeps(c, s, t, g, i, SkippedUe(u), SkipEffect(u));
    } else {
      ChangeNone(s, i);
      FairSame(u);
      CoverKeeps(c, s, t, g, i, u, Nothing);
    }
  }

  lemma RoundKeeps(c: Config, s: Run, t: Run, g: nat, k: N2Round)
    requires Inv(c, s) && g < |s.gnbs| && RunN2(s, t, g, k)
    ensures Inv(c, t)
  {
    hide Inv, Covered, GTake, Change;
    match k
    case NPop => HandKeeps(c, s, t, g, k);
    case NLaunch => HandKeeps(c, s, t, g, k);
    case NEnqueue(i) => EnqueueRegKeeps(c, s, t, g, i);
    case NEnqueueEnd => CoveredAllKeeps(c, s, t, g, k);
    case NSkip(i) => SkipUesKeeps(c, s, t, g, i);
    case NSkipEnd => CoveredAllKeeps(c, s, t, g, k);
    case NFinished => FinishedKeeps(c, s, t, g);
  }
}
