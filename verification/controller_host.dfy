/**
 * Start, Stop and Ping share one host: runs and ping tests exclude each other,
 * so whenever nothing is going on the host has its own addresses
 * (tester/run/controller.go, tester/run/ping.go).
 */
module ControllerHost {
  import opened Basics
  import opened HostAddresses

  /** c.current as far as the host goes; Removing is removeIPs with the changes still to undo. */
  datatype Job =
    | NoRun
    | Configuring(sinkPlaced: bool, added: seq<AddrChange>)
    | Removing(left: seq<AddrChange>)
    | Finished

  datatype PingTest = NoPing | Pinging | Placed(ch: AddrChange)

  datatype Controller = Controller(host: seq<Addr>, job: Job, ping: PingTest) {
    predicate Unfinished() { job.Configuring? || job.Removing? }
  }

  /** placeAddr's change, if there is one to undo. */
  function ListOf(ch: AddrChange): seq<AddrChange> { if ch.added.Some? then [ch] else [] }

  datatype Event =
    | Start | PlaceSink(sink: Addr, ch: AddrChange, ok: bool) | AddAddr(a: Addr, ok: bool)
    | TearDown | UndoLast | Finish
    | PingStart | PingPlace(source: Addr, ch: AddrChange, ok: bool) | PingFail | PingUndo

  /** placeAddr when putting a replaced address back does not fail. */
  ghost predicate PlacedOrBack(h: seq<Addr>, want: Addr, t: seq<Addr>, ch: AddrChange, ok: bool) {
    && Places(h, want, t, ch, ok)
    && (!ok ==> t == h || exists a ::
           a in h && a.iface == want.iface && a.ip == want.ip && a.bits != want.bits
           && t == Removed(h, a) + [a])
  }

  ghost predicate Step(c: Controller, e: Event, d: Controller) {
    match e
    // the second of Start's two looks decides; failed calls change nothing
    case Start => !c.Unfinished() && c.ping == NoPing && d == c.(job := Configuring(false, []))
    case PlaceSink(sink, ch, ok) =>
      && c.job == Configuring(false, []) && PlacedOrBack(c.host, sink, d.host, ch, ok)
      && d == c.(host := d.host, job := if !ok then Removing([]) else Configuring(true, ListOf(ch)))
    case AddAddr(a, ok) =>
      && c.job.Configuring? && c.job.sinkPlaced
      && (if ok then a !in c.host
         && d == c.(host := c.host + [a], job := c.job.(added := c.job.added + [AddrChange(Some(a), None)]))
          else d == c.(job := Removing(c.job.added)))
    // Stop, a timeout, a failed data plane, or the end of the run
    case TearDown => c.job.Configuring? && d == c.(job := Removing(c.job.added))
    case UndoLast =>
      && c.job.Removing? && c.job.left != []
      && (var n := |c.job.left| - 1;
          d == c.(host := Undone(c.host, c.job.left[n]), job := Removing(c.job.left[..n])))
    case Finish => c.job == Removing([]) && d == c.(job := Finished)
    case PingStart => !c.Unfinished() && c.ping == NoPing && d == c.(ping := Pinging)
    case PingPlace(source, ch, ok) =>
      && c.ping == Pinging && PlacedOrBack(c.host, source, d.host, ch, ok)
      && d == c.(host := d.host, ping := if ok then Placed(ch) else NoPing)
    case PingFail => c.ping == Pinging && d == c.(ping := NoPing)
    case PingUndo => c.ping.Placed? && d == c.(host := Undone(c.host, c.ping.ch), ping := NoPing)
  }

  /** No address placed by this event takes one of the host's own with secondaries away. */
  ghost predicate Harmless(own: seq<Addr>, e: Event) {
    var want := if e.PlaceSink? then Some(e.sink) else if e.PingPlace? then Some(e.source) else None;
    want.Some? ==> forall a :: a in own && a.ip == want.value.ip ==> !HasSecondaries(own, a)
  }

  /** The changes a run has on the host, on top of a list like the host's own. */
  ghost predicate On(own: seq<Addr>, base: seq<Addr>, host: seq<Addr>, changes: seq<AddrChange>) {
    && Alike(base, own) && NoDup(base)
    && AllFit(base, changes) && SinkFirst(changes) && host == Built(base, changes)
    && (changes != [] && changes[0].replaced.Some? ==> !HasSecondaries(base, changes[0].replaced.value))
  }

  ghost predicate Inv(own: seq<Addr>, c: Controller) {
    && (c.Unfinished() ==> c.ping == NoPing)
    && (match c.job
        case Configuring(placed, added) => (exists base :: On(own, base, c.host, added)) && (!placed ==> added == [])
        case Removing(left) => exists base :: On(own, base, c.host, left)
        case _ =>
          match c.ping
          case Placed(ch) =>
            exists base :: On(own, base, c.host, ListOf(ch)) && (ch.added.None? ==> ch == NoChange)
          case _ => Alike(c.host, own) && NoDup(c.host))
  }

  lemma NothingOn(own: seq<Addr>, h: seq<Addr>)
    requires Alike(h, own) && NoDup(h)
    ensures On(own, h, h, [])
  {
  }

  lemma AlikeIn(h: seq<Addr>, own: seq<Addr>, a: Addr)
    requires Alike(h, own) && a in h
    ensures a in own
  {
    assert multiset(h)[a] > 0;
  }

  /** placeAddr on a host like its own, by an event that harms no secondaries. */
  lemma PlaceOn(own: seq<Addr>, h: seq<Addr>, want: Addr, t: seq<Addr>, ch: AddrChange, ok: bool)
    requires Alike(h, own) && NoDup(h) && PlacedOrBack(h, want, t, ch, ok)
    requires forall a :: a in own && a.ip == want.ip ==> !HasSecondaries(own, a)
    ensures !ok ==> Alike(t, own) && NoDup(t)
    ensures ok ==> On(own, h, t, ListOf(ch))
  {
    if !ok && t != h {
      var a :| a in h && a.ip == want.ip && t == Removed(h, a) + [a];
      AlikeIn(h, own, a);
      MovedIsAlike(h, a);
    }
    if ok && ch.added.Some? {
      assert [ch][..0] == [];
      if ch.replaced.Some? {
        AlikeIn(h, own, ch.replaced.value);
      }
    }
  }

  lemma AddOn(own: seq<Addr>, base: seq<Addr>, h: seq<Addr>, changes: seq<AddrChange>, a: Addr)
    requires On(own, base, h, changes) && a !in h
    ensures On(own, base, h + [a], changes + [AddrChange(Some(a), None)])
  {
    var more := changes + [AddrChange(Some(a), None)];
    assert more[..|more| - 1] == changes;
  }

  /** Undoing the last change leaves the host with the others, on top of the same list or one like it. */
  lemma UndoOn(own: seq<Addr>, base: seq<Addr>, h: seq<Addr>, changes: seq<AddrChange>)
    requires On(own, base, h, changes) && changes != []
    ensures var n := |changes| - 1; exists b :: On(own, b, Undone(h, changes[n]), changes[..n])
  {
    var n := |changes| - 1;
    UndoAfterPlace(Built(base, changes[..n]), changes[n]);
    if changes[n].replaced.None? {
      assert On(own, base, Undone(h, changes[n]), changes[..n]);
    } else {
      assert n == 0 && changes[..n] == [];
      MovedIsAlike(base, changes[0].replaced.value);
      NothingOn(own, Undone(h, changes[n]));
    }
  }

  lemma PlaceSinkKeeps(own: seq<Addr>, c: Controller, e: Event, d: Controller)
    requires Inv(own, c) && Step(c, e, d) && Harmless(own, e) && e.PlaceSink?
    ensures Inv(own, d)
  {
    hide On, Alike, NoDup, PlacedOrBack, HasSecondaries;
    var base :| On(own, base, c.host, []);
    OnNothing(own, base, c.host);
    PlaceOn(own, c.host, e.sink, d.host, e.ch, e.ok);
    if !e.ok {
      NothingOn(own, d.host);
    }
  }

  lemma AddAddrKeeps(own: seq<Addr>, c: Controller, e: Event, d: Controller)
    requires Inv(own, c) && Step(c, e, d) && e.AddAddr?
    ensures Inv(own, d)
  {
    hide On, Alike, NoDup, PlacedOrBack, HasSecondaries;
    if e.ok {
      var base :| On(own, base, c.host, c.job.added);
      AddOn(own, base, c.host, c.job.added, e.a);
    }
  }

  lemma UndoLastKeeps(own: seq<Addr>, c: Controller, e: Event, d: Controller)
    requires Inv(own, c) && Step(c, e, d) && e.UndoLast?
    ensures Inv(own, d)
  {
    hide On, Alike, NoDup, PlacedOrBack, HasSecondaries;
    var base :| On(own, base, c.host, c.job.left);
    UndoOn(own, base, c.host, c.job.left);
  }

  lemma RunStepKeeps(own: seq<Addr>, c: Controller, e: Event, d: Controller)
    requires Inv(own, c) && Step(c, e, d) && Harmless(own, e) && (c.Unfinished() || e.Start?)
    ensures Inv(own, d)
  {
    hide On, Alike, NoDup, PlacedOrBack, HasSecondaries, Undone;
    match e
    case Start => NothingOn(own, c.host);
    case PlaceSink(_, _, _) => PlaceSinkKeeps(own, c, e, d);
    case AddAddr(_, _) => AddAddrKeeps(own, c, e, d);
    case UndoLast => UndoLastKeeps(own, c, e, d);
    case Finish =>
      var base :| On(own, base, c.host, []);
      OnNothing(own, base, c.host);
    case _ =>
  }

  lemma PingStepKeeps(own: seq<Addr>, c: Controller, e: Event, d: Controller)
    requires Inv(own, c) && Step(c, e, d) && Harmless(own, e) && !c.Unfinished() && !e.Start?
    ensures Inv(own, d)
  {
    hide On, Alike, NoDup, PlacedOrBack, HasSecondaries;
    match e
    case PingPlace(source, ch, ok) =>
      PlaceOn(own, c.host, source, d.host, ch, ok);
      if ok {
        PlacesNoChange(c.host, source, d.host, ch, ok);
      }
    case PingUndo =>
      var ch := c.ping.ch;
      var base :| On(own, base, c.host, ListOf(ch));
      if ch.added.Some? {
        UndoOn(own, base, c.host, [ch]);
        assert [ch][..0] == [];
        var b :| On(own, b, d.host, []);
        OnNothing(own, b, d.host);
      } else {
        OnNothing(own, base, c.host);
        assert c.host + [] == c.host;
      }
    case _ =>
  }

  lemma StepKeeps(own: seq<Addr>, c: Controller, e: Event, d: Controller)
    requires Inv(own, c) && Step(c, e, d) && Harmless(own, e)
    ensures Inv(own, d)
  {
    hide Inv, Step, Harmless;
    if c.Unfinished() || e.Start? {
      RunStepKeeps(own, c, e, d);
    } else {
      PingStepKeeps(own, c, e, d);
    }
  }

  lemma OnNothing(own: seq<Addr>, base: seq<Addr>, h: seq<Addr>)
    requires On(own, base, h, [])
    ensures Alike(h, own) && NoDup(h)
  {
  }

  lemma PlacesNoChange(h: seq<Addr>, want: Addr, t: seq<Addr>, ch: AddrChange, ok: bool)
    requires PlacedOrBack(h, want, t, ch, ok) && ok
    ensures ch.added.None? ==> ch == NoChange
  {
  }

  ghost predicate IsTrace(own: seq<Addr>, states: seq<Controller>, events: seq<Event>) {
    && |states| == |events| + 1 && states[0] == Controller(own, NoRun, NoPing)
    && forall k :: 0 <= k < |events| ==> Step(states[k], events[k], states[k + 1]) && Harmless(own, events[k])
  }

  lemma {:induction false} TraceKeeps(own: seq<Addr>, states: seq<Controller>, events: seq<Event>, n: nat)
    requires NoDup(own) && IsTrace(own, states, events) && n < |states|
    ensures Inv(own, states[n])
  {
    hide Step, Harmless;
    if n > 0 {
      TraceKeeps(own, states, events, n - 1);
      StepKeeps(own, states[n - 1], events[n - 1], states[n]);
    }
  }

  /**
   * Whatever starts, stops, failures and ping tests came before: while no run is unfinished and no test
   * is going on the host has exactly its own addresses, with the same ones depending on others.
   */
  lemma QuietHostIsRestored(own: seq<Addr>, states: seq<Controller>, events: seq<Event>, n: nat)
    requires NoDup(own) && IsTrace(own, states, events) && n < |states|
    requires !states[n].Unfinished() && states[n].ping == NoPing
    ensures Alike(states[n].host, own)
  {
    TraceKeeps(own, states, events, n);
  }

  /** A run and a ping test never use the host at the same time. */
  lemma RunsExcludePings(own: seq<Addr>, states: seq<Controller>, events: seq<Event>, n: nat)
    requires NoDup(own) && IsTrace(own, states, events) && n < |states|
    ensures !(states[n].Unfinished() && states[n].ping != NoPing)
  {
    TraceKeeps(own, states, events, n);
  }
}
