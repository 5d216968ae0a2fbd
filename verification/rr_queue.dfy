/** The turn-taking queue of a stage (tester/run/rrqueue.go). */
module RoundRobinQueue {

  /** What the queue means: the gNBs with queued UEs in turn order, and each one's UEs. */
  datatype Waiting = Waiting(turns: seq<int>, fifos: map<int, seq<int>>)
  {
    ghost predicate Valid() {
      && (forall i, j :: 0 <= i < j < |turns| ==> turns[i] != turns[j])
      && (forall g :: g in turns <==> g in fifos)
      && (forall g :: g in fifos ==> |fifos[g]| > 0)
    }

    function Of(g: int): seq<int> { if g in fifos then fifos[g] else [] }

    /** A gNB without queued UEs joins the end of the round. */
    function Push(g: int, ue: int): Waiting {
      if g in fifos then Waiting(turns, fifos[g := fifos[g] + [ue]])
      else Waiting(turns + [g], fifos[g := [ue]])
    }

    predicate CanPop() { |turns| > 0 && turns[0] in fifos && |fifos[turns[0]]| > 0 }

    function Next(): int
      requires CanPop()
    {
      fifos[turns[0]][0]
    }

    /** The first gNB gives its first UE; with more waiting it goes to the end of the round. */
    function Pop(): Waiting
      requires CanPop()
    {
      var g := turns[0];
      if |fifos[g]| == 1 then Waiting(turns[1..], fifos - {g})
      else Waiting(turns[1..] + [g], fifos[g := fifos[g][1..]])
    }

    /** All queued UEs. */
    function Queued(): multiset<int> { Gather(turns, fifos) }

    function Size(): nat { |Queued()| }
  }

  function Empty(): Waiting { Waiting([], map[]) }

  function Gather(turns: seq<int>, fifos: map<int, seq<int>>): multiset<int> {
    if turns == [] then multiset{}
    else (if turns[0] in fifos then multiset(fifos[turns[0]]) else multiset{}) + Gather(turns[1..], fifos)
  }

  lemma {:induction false} GatherSame(turns: seq<int>, f: map<int, seq<int>>, g: map<int, seq<int>>)
    requires forall x :: x in turns ==> (x in f <==> x in g) && (x in f ==> f[x] == g[x])
    ensures Gather(turns, f) == Gather(turns, g)
  {
    if turns != [] {
      var x := turns[0];
      assert x in turns;
      assert x in f ==> multiset(f[x]) == multiset(g[x]);
      assert forall y :: y in turns[1..] ==> y in turns;
      GatherSame(turns[1..], f, g);
    }
  }

  lemma {:induction false} GatherLast(turns: seq<int>, x: int, f: map<int, seq<int>>)
    ensures Gather(turns + [x], f) == Gather(turns, f) + (if x in f then multiset(f[x]) else multiset{})
  {
    if turns == [] {
      assert [x][1..] == [];
    } else {
      assert (turns + [x])[1..] == turns[1..] + [x];
      GatherLast(turns[1..], x, f);
    }
  }

  lemma {:induction false} GatherPush(turns: seq<int>, f: map<int, seq<int>>, g: int, ue: int)
    requires forall i, j :: 0 <= i < j < |turns| ==> turns[i] != turns[j]
    requires g in turns && g in f
    ensures Gather(turns, f[g := f[g] + [ue]]) == Gather(turns, f) + multiset{ue}
  {
    if turns[0] == g {
      assert g !in turns[1..];
      GatherSame(turns[1..], f, f[g := f[g] + [ue]]);
    } else {
      GatherPush(turns[1..], f, g, ue);
    }
  }

  lemma PushValid(w: Waiting, g: int, ue: int)
    requires w.Valid()
    ensures w.Push(g, ue).Valid()
  {
    var p := w.Push(g, ue);
    if g !in w.fifos {
      assert g !in w.turns;
      assert forall x :: x in p.turns <==> x in w.turns || x == g;
    }
  }

  lemma PushGathers(w: Waiting, g: int, ue: int)
    requires w.Valid()
    ensures w.Push(g, ue).Queued() == w.Queued() + multiset{ue}
  {
    if g in w.fifos {
      GatherPush(w.turns, w.fifos, g, ue);
    } else {
      var f := w.fifos[g := [ue]];
      assert g !in w.turns;
      hide Gather;
      GatherSame(w.turns, w.fifos, f);
      GatherLast(w.turns, g, f);
    }
  }

  lemma PopCan(w: Waiting)
    requires w.Valid() && w.turns != []
    ensures w.CanPop()
  {
    assert w.turns[0] in w.turns;
  }

  lemma PopValid(w: Waiting)
    requires w.Valid() && w.CanPop()
    ensures w.Pop().Valid()
  {
    var g, rest := w.turns[0], w.turns[1..];
    assert w.turns == [g] + rest;
    assert g !in rest;
    assert forall x :: x in rest <==> x in w.turns && x != g;
    if |w.fifos[g]| == 1 {
      assert w.Pop() == Waiting(rest, w.fifos - {g});
    } else {
      assert w.Pop() == Waiting(rest + [g], w.fifos[g := w.fifos[g][1..]]);
      assert forall x :: x in rest + [g] <==> x in rest || x == g;
    }
  }

  lemma PopGathers(w: Waiting)
    requires w.Valid() && w.CanPop()
    ensures w.Queued() == w.Pop().Queued() + multiset{w.Next()}
  {
    var g, rest := w.turns[0], w.turns[1..];
    assert w.turns == [g] + rest;
    assert g !in rest;
    var p := w.Pop();
    assert w.fifos[g] == [w.Next()] + w.fifos[g][1..];
    assert w.Queued() == multiset(w.fifos[g]) + Gather(rest, w.fifos);
    hide Gather;
    GatherSame(rest, w.fifos, p.fifos);
    if |w.fifos[g]| > 1 {
      GatherLast(rest, g, p.fifos);
    }
  }

  // ------------------------------------------------------------ sequences of calls

  datatype Op = PushOp(gnb: int, ue: int) | PopOp

  /** The queue after one call; popping an empty one changes nothing (pop waits, tryPop says so). */
  function Done(w: Waiting, op: Op): Waiting {
    match op
    case PushOp(g, ue) => w.Push(g, ue)
    case PopOp => if w.CanPop() then w.Pop() else w
  }

  function After(w: Waiting, ops: seq<Op>): Waiting
    decreases |ops|
  {
    if ops == [] then w else After(Done(w, ops[0]), ops[1..])
  }

  /** The gNBs served, in order. */
  function Served(w: Waiting, ops: seq<Op>): seq<int>
    decreases |ops|
  {
    if ops == [] then []
    else (if ops[0].PopOp? && w.CanPop() then [w.turns[0]] else []) + Served(Done(w, ops[0]), ops[1..])
  }

  /** The UEs of gNB g handed out, in order. */
  function Out(w: Waiting, ops: seq<Op>, g: int): seq<int>
    decreases |ops|
  {
    if ops == [] then []
    else (if ops[0].PopOp? && w.CanPop() && w.turns[0] == g then [w.Next()] else []) + Out(Done(w, ops[0]), ops[1..], g)
  }

  /** The UEs pushed for gNB g, in order. */
  function In(ops: seq<Op>, g: int): seq<int> {
    if ops == [] then [] else (if ops[0].PushOp? && ops[0].gnb == g then [ops[0].ue] else []) + In(ops[1..], g)
  }

  lemma DoneValid(w: Waiting, op: Op)
    requires w.Valid()
    ensures Done(w, op).Valid()
  {
    match op
    case PushOp(g, ue) => PushValid(w, g, ue);
    case PopOp =>
      if w.CanPop() {
        PopValid(w);
      }
  }

  lemma DoneInOrder(w: Waiting, op: Op, g: int)
    requires w.Valid()
    ensures w.Of(g) + In([op], g) == Out(w, [op], g) + Done(w, op).Of(g)
  {
    assert [op][1..] == [];
    if op.PopOp? && w.CanPop() && w.turns[0] == g {
      assert w.fifos[g] == [w.Next()] + w.fifos[g][1..];
    }
  }

  function Pushes(ops: seq<Op>): seq<int> {
    if ops == [] then [] else (if ops[0].PushOp? then [ops[0].ue] else []) + Pushes(ops[1..])
  }

  function Pops(w: Waiting, ops: seq<Op>): seq<int>
    decreases |ops|
  {
    if ops == [] then []
    else (if ops[0].PopOp? && w.CanPop() then [w.Next()] else []) + Pops(Done(w, ops[0]), ops[1..])
  }

  lemma InSplit(ops: seq<Op>, g: int)
    requires ops != []
    ensures In(ops, g) == In([ops[0]], g) + In(ops[1..], g)
    ensures Pushes(ops) == Pushes([ops[0]]) + Pushes(ops[1..])
  {
    assert [ops[0]][1..] == [];
  }

  lemma OutSplit(w: Waiting, ops: seq<Op>, g: int)
    requires ops != []
    ensures Out(w, ops, g) == Out(w, [ops[0]], g) + Out(Done(w, ops[0]), ops[1..], g)
  {
    hide Waiting.CanPop, Waiting.Next, Done;
    assert Out(Done(w, ops[0]), [ops[0]][1..], g) == [];
  }

  lemma PopsSplit(w: Waiting, ops: seq<Op>)
    requires ops != []
    ensures Pops(w, ops) == Pops(w, [ops[0]]) + Pops(Done(w, ops[0]), ops[1..])
  {
    hide Waiting.CanPop, Waiting.Next, Done;
    assert Pops(Done(w, ops[0]), [ops[0]][1..]) == [];
  }

  lemma Chain(a: seq<int>, x: seq<int>, o: seq<int>, b: seq<int>, y: seq<int>, q: seq<int>, e: seq<int>)
    requires a + x == o + b && b + y == q + e
    ensures a + (x + y) == (o + q) + e
  {
    assert a + (x + y) == (a + x) + y == (o + b) + y == o + (b + y) == o + (q + e) == (o + q) + e;
  }

  /** Whatever pushes and pops interleave, the UEs of a gNB leave in the order they were pushed. */
  lemma {:induction false} InOrder(w: Waiting, ops: seq<Op>, g: int)
    requires w.Valid()
    ensures w.Of(g) + In(ops, g) == Out(w, ops, g) + After(w, ops).Of(g)
    decreases |ops|
  {
    if ops != [] {
      var d, rest := Done(w, ops[0]), ops[1..];
      DoneValid(w, ops[0]);
      DoneInOrder(w, ops[0], g);
      InSplit(ops, g);
      OutSplit(w, ops, g);
      InOrder(d, rest, g);
      hide In, Out, Done, Waiting.Of, Waiting.Valid;
      assert After(w, ops) == After(d, rest);
      Chain(w.Of(g), In([ops[0]], g), Out(w, [ops[0]], g), d.Of(g), In(rest, g), Out(d, rest, g), After(d, rest).Of(g));
    }
  }

  lemma DoneConserves(w: Waiting, op: Op)
    requires w.Valid()
    ensures w.Queued() + multiset(Pushes([op])) == multiset(Pops(w, [op])) + Done(w, op).Queued()
  {
    hide Gather;
    assert [op][1..] == [];
    match op
    case PushOp(g, ue) => PushGathers(w, g, ue);
    case PopOp =>
      if w.CanPop() {
        PopGathers(w);
      }
  }

  lemma MultisetChain(a: multiset<int>, x: seq<int>, o: seq<int>, b: multiset<int>, y: seq<int>, q: seq<int>,
          e: multiset<int>)
    requires a + multiset(x) == multiset(o) + b && b + multiset(y) == multiset(q) + e
    ensures a + multiset(x + y) == multiset(o + q) + e
  {
    assert multiset(x + y) == multiset(x) + multiset(y);
    assert multiset(o + q) == multiset(o) + multiset(q);
    assert a + (multiset(x) + multiset(y)) == (a + multiset(x)) + multiset(y);
    assert multiset(o) + (multiset(q) + e) == (multiset(o) + multiset(q)) + e;
  }

  /** Nothing is lost or made up: the UEs pushed are those handed out and those still queued. */
  lemma {:induction false} Conserved(w: Waiting, ops: seq<Op>)
    requires w.Valid()
    ensures After(w, ops).Valid()
            && w.Queued() + multiset(Pushes(ops)) == multiset(Pops(w, ops)) + After(w, ops).Queued()
    decreases |ops|
  {
    if ops != [] {
      DoneValid(w, ops[0]);
      DoneConserves(w, ops[0]);
      InSplit(ops, 0);
      PopsSplit(w, ops);
      Conserved(Done(w, ops[0]), ops[1..]);
      hide Pushes, Pops, Done, Waiting.Queued, Waiting.Valid;
      var d, rest := Done(w, ops[0]), ops[1..];
      assert After(w, ops) == After(d, rest);
      MultisetChain(w.Queued(), Pushes([ops[0]]), Pops(w, [ops[0]]), d.Queued(), Pushes(rest), Pops(d, rest),
          After(d, rest).Queued());
    }
  }

  lemma ServedSplit(w: Waiting, ops: seq<Op>)
    requires ops != []
    ensures Served(w, ops) == (if ops[0].PopOp? && w.CanPop() then [w.turns[0]] else [])
            + Served(Done(w, ops[0]), ops[1..])
  {
  }

  /**
   * While the gNB at place p of the round waits, the gNBs served are those ahead of it, each once, in turn order:
   * so between two of its turns every other gNB is served at most once, and it waits for at most |turns| - 1 others.
   */
  lemma {:induction false} TakesTurns(w: Waiting, ops: seq<Op>, p: nat)
    requires w.Valid() && p < |w.turns| && w.turns[p] !in Served(w, ops)
    ensures Served(w, ops) <= w.turns[..p]
    decreases |ops|
  {
    if ops != [] {
      var op, d := ops[0], Done(w, ops[0]);
      DoneValid(w, op);
      PopCan(w);
      ServedSplit(w, ops);
      hide Served, Waiting.Valid;
      if op.PopOp? {
        assert p > 0 by { assert w.turns[0] in Served(w, ops); }
        assert d.turns[p - 1] == w.turns[p] && d.turns[..p - 1] == w.turns[1..p];
        TakesTurns(d, ops[1..], p - 1);
        assert w.turns[..p] == [w.turns[0]] + w.turns[1..p];
      } else {
        assert d.turns[p] == w.turns[p] && d.turns[..p] == w.turns[..p];
        TakesTurns(d, ops[1..], p);
      }
    }
  }

  /** A served gNB with more UEs goes behind all others: the next time it waits, it is last. */
  lemma ServedGoesLast(w: Waiting)
    requires w.Valid() && w.CanPop() && |w.fifos[w.turns[0]]| > 1
    ensures var d := w.Pop(); |d.turns| == |w.turns| && d.turns[|d.turns| - 1] == w.turns[0]
  {
  }

  function PopOps(k: nat): seq<Op> { seq(k, _ => PopOp) }

  lemma {:induction false} PopsMore(w: Waiting, k: nat)
    ensures PopOps(k + 1) == PopOps(k) + [PopOp]
    ensures var d := After(w, PopOps(k));
            Pops(w, PopOps(k + 1)) == Pops(w, PopOps(k)) + (if d.CanPop() then [d.Next()] else [])
            && After(w, PopOps(k + 1)) == Done(d, PopOp)
    decreases k
  {
    assert PopOps(k + 1) == [PopOp] + PopOps(k);
    assert PopOps(k + 1)[1..] == PopOps(k);
    if k > 0 {
      PopsMore(Done(w, PopOp), k - 1);
      assert PopOps(k)[1..] == PopOps(k - 1);
    }
  }

  /** The queue as the stages use it; ready is the one-value channel that wakes pop. */
  class RRQueue {
    const gnbOf: seq<int>
    var fifos: map<int, seq<int>>
    var ring: seq<int>
    var head: nat
    var n: nat
    var ready: bool
    ghost var waiting: Waiting

    /** The consumed front of the ring means nothing. */
    ghost predicate Valid()
      reads this
    {
      head <= |ring| && waiting.turns == ring[head..] && waiting.fifos == fifos && waiting.Valid()
          && n == waiting.Size()
    }

    constructor (gnbOf: seq<int>)
      ensures Valid() && waiting == Empty() && this.gnbOf == gnbOf && !ready
    {
      this.gnbOf := gnbOf;
      fifos, ring, head, n, ready := map[], [], 0, 0, false;
      waiting := Empty();
    }

    method Push(ue: int)
      requires Valid() && 0 <= ue < |gnbOf|
      modifies this
      ensures Valid() && ready && waiting == old(waiting).Push(gnbOf[ue], ue)
    {
      Insert(gnbOf[ue], ue);
      ready := true;
    }

    /** The part of push that holds the lock. */
    method Insert(g: int, ue: int)
      requires Valid()
      modifies `fifos, `ring, `n, `waiting
      ensures Valid() && waiting == old(waiting).Push(g, ue)
    {
      hide Waiting.Valid, Waiting.Queued, Waiting.Size, Waiting.Push;
      PushCounts(waiting, g, ue);
      PushLast(waiting, ring, head, g, ue);
      waiting := waiting.Push(g, ue);
      n := n + 1;
      if g !in fifos || |fifos[g]| == 0 {
        ring := ring + [g];
        fifos := fifos[g := [ue]];
      } else {
        fifos := fifos[g := fifos[g] + [ue]];
      }
    }

    method TryPop() returns (ue: int, ok: bool)
      requires Valid()
      modifies this
      ensures Valid() && ready == old(ready)
      ensures ok <==> old(waiting).CanPop()
      ensures ok ==> ue == old(waiting).Next() && waiting == old(waiting).Pop()
      ensures !ok ==> waiting == old(waiting) == Empty()
    {
      SomeoneWaits(waiting);
      hide Waiting.Valid, Waiting.Queued, Waiting.Size, Waiting.Pop, Waiting.Next;
      if n == 0 {
        return 0, false;
      }
      ue := Take();
      Reclaim();
      ok := true;
    }

    /** tryPop's turn of the first gNB. */
    method Take() returns (ue: int)
      requires Valid() && waiting.CanPop()
      modifies `fifos, `ring, `head, `n, `waiting
      ensures Valid() && ue == old(waiting).Next() && waiting == old(waiting).Pop()
    {
      hide Waiting.Valid, Waiting.Queued, Waiting.Size, Waiting.Pop;
      PopCounts(waiting);
      TakeFirst(waiting, ring, head);
      waiting := waiting.Pop();
      var g := ring[head];
      head := head + 1;
      var f := fifos[g];
      ue := f[0];
      if |f| == 1 {
        fifos := fifos - {g};
      } else {
        fifos := fifos[g := f[1..]];
        ring := ring + [g]; // its next UE waits for the others' turn
      }
      n := n - 1;
    }

    /** The end of tryPop: drops the consumed front of the ring now and then. */
    method Reclaim()
      requires Valid()
      modifies `ring, `head
      ensures Valid() && (head <= 1024 || head * 2 <= |ring|)
    {
      if head > 1024 && head * 2 > |ring| {
        ring := ring[head..];
        head := 0;
        assert ring[0..] == ring;
      }
    }

    /** Takes everything out, gNB by gNB in turn. */
    method Drain() returns (out: seq<int>)
      requires Valid()
      modifies this
      ensures Valid() && waiting == Empty() && ready == old(ready)
      ensures multiset(out) == old(waiting).Queued()
      ensures out == Pops(old(waiting), PopOps(|out|))
    {
      hide Waiting.Valid, Waiting.Queued, Waiting.Size, Pops, After;
      out := [];
      NothingPopped(waiting);
      while true
        invariant Valid() && ready == old(ready)
        invariant out == Pops(old(waiting), PopOps(|out|)) && waiting == After(old(waiting), PopOps(|out|))
        invariant old(waiting).Queued() == multiset(out) + waiting.Queued()
        decreases n
      {
        ghost var now := waiting;
        var ue, ok := TryPop();
        if !ok {
          NothingQueued();
          break;
        }
        PopGathers(now);
        PopCounts(now);
        PopsMore(old(waiting), |out|);
        out := out + [ue];
      }
    }
  }

  /** tryPop's reading of the ring. */
  lemma TakeFirst(w: Waiting, ring: seq<int>, head: nat)
    requires w.Valid() && w.CanPop() && head <= |ring| && w.turns == ring[head..]
    ensures head < |ring| && ring[head] == w.turns[0]
    ensures var g := ring[head];
            var p, f := w.Pop(), w.fifos[g];
            if |f| == 1 then p.turns == ring[head + 1..] && p.fifos == w.fifos - {g}
            else p.turns == (ring + [g])[head + 1..] && p.fifos == w.fifos[g := f[1..]]
  {
    assert ring[head..][1..] == ring[head + 1..];
    assert (ring + [ring[head]])[head + 1..] == ring[head + 1..] + [ring[head]];
  }

  lemma PushLast(w: Waiting, ring: seq<int>, head: nat, g: int, ue: int)
    requires w.Valid() && head <= |ring| && w.turns == ring[head..]
    ensures var p := w.Push(g, ue);
            if g !in w.fifos || |w.fifos[g]| == 0 then p.turns == (ring + [g])[head..] && p.fifos == w.fifos[g := [ue]]
            else p.turns == ring[head..] && p.fifos == w.fifos[g := w.fifos[g] + [ue]]
  {
    assert (ring + [g])[head..] == ring[head..] + [g];
  }

  lemma PushCounts(w: Waiting, g: int, ue: int)
    requires w.Valid()
    ensures w.Push(g, ue).Valid() && w.Push(g, ue).Size() == w.Size() + 1
    ensures g in w.fifos ==> |w.fifos[g]| > 0
  {
    PushValid(w, g, ue);
    PushGathers(w, g, ue);
  }

  lemma PopCounts(w: Waiting)
    requires w.Valid() && w.CanPop()
    ensures w.Pop().Valid() && w.Size() == w.Pop().Size() + 1
  {
    PopValid(w);
    PopGathers(w);
  }

  lemma NothingQueued()
    ensures Empty().Queued() == multiset{}
  {
  }

  lemma NothingPopped(w: Waiting)
    ensures Pops(w, PopOps(0)) == [] && After(w, PopOps(0)) == w
  {
  }

  lemma NobodyWaits(w: Waiting)
    requires w.Valid() && w.turns == []
    ensures w == Empty()
  {
    assert w.fifos.Keys == {} by {
      forall g: int ensures g !in w.fifos.Keys {
        assert g in w.fifos ==> g in w.turns;
      }
    }
    assert w.fifos == map[];
  }

  lemma {:induction false} SomeoneWaits(w: Waiting)
    requires w.Valid()
    ensures w.turns == [] ==> w == Empty()
    ensures w.CanPop() <==> w.Size() > 0
    ensures w.turns != [] <==> w.Size() > 0
  {
    if w.turns == [] {
      NobodyWaits(w);
    } else {
      PopCan(w);
      PopGathers(w);
    }
  }

  // -------------------------------------------------------------- pop and its wake-up

  /** The one consumer: outside pop, about to look, or blocked on ready and the context. */
  datatype Consumer = Outside | Looking | Blocked

  /** signals: pushers that have inserted their UE and not yet sent on ready. */
  datatype Shared = Shared(queue: Waiting, ready: bool, signals: nat, consumer: Consumer)

  datatype PopStep = Inserts(gnb: int, ue: int) | Signals | Calls | Takes | FindsNone | Wakes | Cancelled

  ghost predicate PopSteps(s: Shared, k: PopStep, t: Shared) {
    match k
    case Inserts(g, ue) => t == s.(queue := s.queue.Push(g, ue), signals := s.signals + 1)
    case Signals => s.signals > 0 && t == s.(signals := s.signals - 1, ready := true)
    case Calls => s.consumer == Outside && t == s.(consumer := Looking)
    case Takes => s.consumer == Looking && s.queue.CanPop() && t == s.(queue := s.queue.Pop(), consumer := Outside)
    case FindsNone => s.consumer == Looking && !s.queue.CanPop() && t == s.(consumer := Blocked)
    case Wakes => s.consumer == Blocked && s.ready && t == s.(ready := false, consumer := Looking)
    case Cancelled => s.consumer == Blocked && t == s.(consumer := Outside)
  }

  ghost predicate Awake(s: Shared) {
    s.queue.Valid() && (s.consumer == Blocked && s.queue.turns != [] ==> s.ready || s.signals > 0)
  }

  lemma StaysAwake(s: Shared, k: PopStep, t: Shared)
    requires Awake(s) && PopSteps(s, k, t)
    ensures Awake(t)
  {
    match k
    case Inserts(g, ue) => PushValid(s.queue, g, ue);
    case Takes => PopValid(s.queue);
    case FindsNone =>
      if s.queue.turns != [] {
        PopCan(s.queue);
      }
    case _ =>
  }

  /** No lost wake-up: while the consumer is blocked with UEs queued, a signal is there or on its way. */
  lemma {:induction false} NoLostWakeup(states: seq<Shared>, steps: seq<PopStep>, n: nat)
    requires |states| == |steps| + 1 && states[0] == Shared(Empty(), false, 0, Outside)
    requires forall j :: 0 <= j < |steps| ==> PopSteps(states[j], steps[j], states[j + 1])
    requires n < |states|
    ensures Awake(states[n])
  {
    hide PopSteps;
    if n > 0 {
      NoLostWakeup(states, steps, n - 1);
      StaysAwake(states[n - 1], steps[n - 1], states[n]);
    }
  }
}
