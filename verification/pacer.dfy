/** A sender's token bucket and its turns over the flows (pace in tester/dataplane/engine.go). */
module Pacer {
  import opened Basics

  function Bits(packets: int, pktBits: real): real { packets as real * pktBits }

  lemma BitsMore(k: int, pktBits: real)
    ensures Bits(k + 1, pktBits) == Bits(k, pktBits) + pktBits && Bits(0, pktBits) == 0.0
  {
  }

  lemma BitsAdd(k: int, l: int, pktBits: real)
    ensures Bits(k + l, pktBits) == Bits(k, pktBits) + Bits(l, pktBits)
  {
    assert (k + l) as real == k as real + l as real;
  }

  // ------------------------------------------------------------------ turns

  /** Whose turn it is: flow number turn, which has sent done packets of its run. */
  datatype Turn = Turn(turn: int, done: int)

  predicate TurnOk(t: Turn, flows: int, run: int) { 0 <= t.turn < flows && 0 <= t.done < run }

  function Next(t: Turn, flows: int, run: int): Turn {
    if t.done + 1 < run then Turn(t.turn, t.done + 1)
    else Turn(if t.turn + 1 == flows then 0 else t.turn + 1, 0)
  }

  function After(t: Turn, flows: int, run: int, k: nat): Turn {
    if k == 0 then t else Next(After(t, flows, run, k - 1), flows, run)
  }

  /** The flows the next k packets go to. */
  function Order(t: Turn, flows: int, run: int, k: nat): (s: seq<int>)
    ensures |s| == k
  {
    if k == 0 then [] else Order(t, flows, run, k - 1) + [After(t, flows, run, k - 1).turn]
  }

  function Count(s: seq<int>, i: int): nat {
    if s == [] then 0 else Count(s[..|s| - 1], i) + (if s[|s| - 1] == i then 1 else 0)
  }

  /** How far flow i is ahead of a later flow j in the round. */
  function Lead(t: Turn, run: int, i: int, j: int): int {
    if t.turn < i || t.turn > j then 0
    else if t.turn == i then t.done
    else if t.turn < j then run
    else run - t.done
  }

  lemma LeadMoves(t: Turn, flows: int, run: int, i: int, j: int)
    requires TurnOk(t, flows, run) && 0 <= i < j < flows
    ensures TurnOk(Next(t, flows, run), flows, run) && 0 <= Lead(t, run, i, j) <= run
    ensures Lead(Next(t, flows, run), run, i, j) - Lead(t, run, i, j)
            == (if t.turn == i then 1 else 0) - (if t.turn == j then 1 else 0)
  {
  }

  lemma {:induction false} LeadIs(t: Turn, flows: int, run: int, k: nat, i: int, j: int)
    requires TurnOk(t, flows, run) && 0 <= i < j < flows
    ensures TurnOk(After(t, flows, run, k), flows, run)
    ensures var s := Order(t, flows, run, k);
            Count(s, i) - Count(s, j) == Lead(After(t, flows, run, k), run, i, j) - Lead(t, run, i, j)
    decreases k
  {
    if k > 0 {
      LeadIs(t, flows, run, k - 1, i, j);
      LeadMoves(After(t, flows, run, k - 1), flows, run, i, j);
      var s := Order(t, flows, run, k);
      assert s[..k - 1] == Order(t, flows, run, k - 1);
    }
  }

  /** With a fixed list of flows, over any stretch of packets the counts of any two flows differ by at most one run. */
  lemma Fair(t: Turn, flows: int, run: int, k: nat, i: int, j: int)
    requires TurnOk(t, flows, run) && 0 <= i < flows && 0 <= j < flows
    ensures var s := Order(t, flows, run, k); -run <= Count(s, i) - Count(s, j) <= run
  {
    var a, b := if i < j then i else j, if i < j then j else i;
    if a < b {
      LeadIs(t, flows, run, k, a, b);
      LeadMoves(t, flows, run, a, b);
      LeadMoves(After(t, flows, run, k), flows, run, a, b);
    }
  }

  // ------------------------------------------------------------- the bucket

  /** What dt seconds add to the budget with n flows. */
  function Gain(bps: real, n: nat, dt: real): real { bps * n as real * dt }

  /** One tick with n flows after dt seconds: k packets go out and the budget goes from b to c. */
  ghost predicate Ticks(bps: real, pktBits: real, b: real, n: nat, dt: real, k: nat, c: real) {
    && c == RealMin(b + Gain(bps, n, dt), Gain(bps, n, 0.01) + pktBits) - Bits(k, pktBits)
    && 0.0 <= c <= pktBits && (n > 0 ==> c < pktBits) && (n == 0 ==> k == 0)
  }

  datatype Tick = Tick(flows: nat, dt: real, packets: nat, budget: real)

  /** The budget before tick j of a window that starts with budget b. */
  function BudgetAt(b: real, ticks: seq<Tick>, j: nat): real
    requires j <= |ticks|
  {
    if j == 0 then b else ticks[j - 1].budget
  }

  ghost predicate IsWindow(bps: real, pktBits: real, b: real, ticks: seq<Tick>) {
    && pktBits > 0.0 && bps >= 0.0 && 0.0 <= b <= pktBits
    && forall j :: 0 <= j < |ticks| ==>
         ticks[j].dt >= 0.0
         && Ticks(bps, pktBits, BudgetAt(b, ticks, j), ticks[j].flows, ticks[j].dt, ticks[j].packets, ticks[j].budget)
  }

  /** What the rate allows over the first j ticks, and what was sent. */
  function Allowed(bps: real, ticks: seq<Tick>, j: nat): real
    requires j <= |ticks|
  {
    if j == 0 then 0.0 else Allowed(bps, ticks, j - 1) + Gain(bps, ticks[j - 1].flows, ticks[j - 1].dt)
  }

  function SentIn(ticks: seq<Tick>, j: nat): nat
    requires j <= |ticks|
  {
    if j == 0 then 0 else SentIn(ticks, j - 1) + ticks[j - 1].packets
  }

  lemma MinAtMost(a: real, b: real)
    ensures RealMin(a, b) <= a
  {
  }

  lemma {:induction false} SpentAtMost(bps: real, pktBits: real, b: real, ticks: seq<Tick>, j: nat)
    requires IsWindow(bps, pktBits, b, ticks) && j <= |ticks|
    ensures Bits(SentIn(ticks, j), pktBits) <= Allowed(bps, ticks, j) + b - BudgetAt(b, ticks, j)
    decreases j
  {
    BitsMore(0, pktBits);
    hide Bits, Gain, RealMin;
    if j > 0 {
      SpentAtMost(bps, pktBits, b, ticks, j - 1);
      MinAtMost(BudgetAt(b, ticks, j - 1) + Gain(bps, ticks[j - 1].flows, ticks[j - 1].dt),
          Gain(bps, ticks[j - 1].flows, 0.01) + pktBits);
      BitsAdd(SentIn(ticks, j - 1), ticks[j - 1].packets, pktBits);
    }
  }

  /** Over any window of ticks a sender sends at most the rate times the time, and one packet. */
  lemma AtMostRate(bps: real, pktBits: real, b: real, ticks: seq<Tick>)
    requires IsWindow(bps, pktBits, b, ticks)
    ensures Bits(SentIn(ticks, |ticks|), pktBits) <= Allowed(bps, ticks, |ticks|) + pktBits
  {
    SpentAtMost(bps, pktBits, b, ticks, |ticks|);
    hide Bits, Allowed, Gain;
  }

  lemma NotClipped(bps: real, pktBits: real, b: real, n: nat, dt: real)
    requires bps >= 0.0 && b <= pktBits && dt <= 0.01
    ensures RealMin(b + Gain(bps, n, dt), Gain(bps, n, 0.01) + pktBits) == b + Gain(bps, n, dt)
  {
    var rate := bps * n as real;
    assert rate >= 0.0;
    assert rate * (0.01 - dt) >= 0.0;
    assert rate * 0.01 - rate * dt == rate * (0.01 - dt);
  }

  lemma {:induction false} SpentExactly(bps: real, pktBits: real, b: real, ticks: seq<Tick>, j: nat)
    requires IsWindow(bps, pktBits, b, ticks) && j <= |ticks|
    requires forall i :: 0 <= i < |ticks| ==> ticks[i].dt <= 0.01
    ensures Bits(SentIn(ticks, j), pktBits) == Allowed(bps, ticks, j) + b - BudgetAt(b, ticks, j)
    ensures 0.0 <= BudgetAt(b, ticks, j) <= pktBits
    decreases j
  {
    BitsMore(0, pktBits);
    hide Bits, Gain, RealMin;
    if j > 0 {
      SpentExactly(bps, pktBits, b, ticks, j - 1);
      NotClipped(bps, pktBits, BudgetAt(b, ticks, j - 1), ticks[j - 1].flows, ticks[j - 1].dt);
      BitsAdd(SentIn(ticks, j - 1), ticks[j - 1].packets, pktBits);
    }
  }

  /** And when ticks come at most 10 ms apart, at least that less one packet: nothing is lost to the cap. */
  lemma AtLeastRate(bps: real, pktBits: real, b: real, ticks: seq<Tick>)
    requires IsWindow(bps, pktBits, b, ticks)
    requires forall i :: 0 <= i < |ticks| ==> ticks[i].dt <= 0.01
    ensures Bits(SentIn(ticks, |ticks|), pktBits) >= Allowed(bps, ticks, |ticks|) - pktBits
  {
    SpentExactly(bps, pktBits, b, ticks, |ticks|);
    hide Bits, Allowed, Gain;
  }

  // ---------------------------------------------------------------- pace

  class Sender {
    const bps: real
    const pktBits: real
    const run: int
    var budget: real
    var cur: int
    var rr: int
    var left: int
    ghost var sent: seq<int>

    ghost predicate Shape()
      reads this
    {
      bps >= 0.0 && pktBits > 0.0 && run >= 1 && rr >= 0 && 0 <= left <= run && (rr == 0 ==> left == 0)
    }

    ghost predicate Valid()
      reads this
    {
      Shape() && 0.0 <= budget <= pktBits
    }

    /** batchBits: what DlBatch allows a flow in a row; anything below a packet means one packet. */
    constructor (bps: real, pktBits: real, perRun: int)
      requires bps >= 0.0 && pktBits > 0.0
      ensures Valid() && sent == [] && budget == 0.0
      ensures this.bps == bps && this.pktBits == pktBits && run == if perRun < 1 then 1 else perRun
    {
      this.bps, this.pktBits, run := bps, pktBits, if perRun < 1 then 1 else perRun;
      budget, cur, rr, left := 0.0, 0, 0, 0;
      sent := [];
    }

    /** cur is whose run is under way in this list. */
    ghost predicate Steady(flows: seq<int>)
      requires Shape()
      reads this
    {
      flows != [] && (left > 0 ==> cur == flows[(rr - 1) % |flows|])
    }

    /** Whose packet is next. */
    ghost function TurnIn(n: int): Turn
      requires n > 0
      reads this
    {
      if left == 0 then Turn(rr % n, 0) else Turn((rr - 1) % n, run - left)
    }

    /** The body of pace's loop: one packet. */
    method SendOne(flows: seq<int>)
      requires Shape() && flows != []
      modifies `cur, `rr, `left, `sent
      ensures Shape() && sent == old(sent) + [cur]
      ensures old(Steady(flows)) ==>
                var t := old(TurnIn(|flows|));
                Steady(flows) && TurnOk(t, |flows|, run) && cur == flows[t.turn]
                    && TurnIn(|flows|) == Next(t, |flows|, run)
    {
      NextIndex(rr, |flows|);
      if rr > 0 {
        NextIndex(rr - 1, |flows|);
      }
      if left == 0 {
        cur, left := flows[rr % |flows|], run;
        rr := rr + 1;
      }
      sent := sent + [cur];
      left := left - 1;
    }

    /** One tick of pace over the flow list it loaded. */
    method Tick(flows: seq<int>, dt: real) returns (k: nat)
      requires Valid() && dt >= 0.0
      modifies this
      ensures Valid() && Ticks(bps, pktBits, old(budget), |flows|, dt, k, budget)
      ensures |sent| == |old(sent)| + k && old(sent) <= sent
      ensures old(Steady(flows)) ==>
                var t := old(TurnIn(|flows|));
                Steady(flows) && sent == old(sent) + Picked(flows, Order(t, |flows|, run, k))
                    && TurnIn(|flows|) == After(t, |flows|, run, k)
    {
      hide Bits, Gain, RealMin, Order, Next, TurnOk;
      k := 0;
      budget := Refilled(bps, pktBits, budget, |flows|, dt);
      ghost var full := budget;
      ghost var t := if flows == [] then Turn(0, 0) else TurnIn(|flows|);
      BitsMore(0, pktBits);
      assert sent == old(sent) + [];
      NonePicked(flows, t, run);
      while budget >= pktBits && |flows| > 0
        invariant Shape() && budget >= 0.0
        invariant budget == full - Bits(k, pktBits) && (|flows| == 0 ==> k == 0)
        invariant |sent| == |old(sent)| + k && old(sent) <= sent
        invariant old(Steady(flows)) ==> Steady(flows)
        invariant old(Steady(flows)) ==> TurnIn(|flows|) == After(t, |flows|, run, k)
        invariant old(Steady(flows)) ==> sent == old(sent) + Picked(flows, Order(t, |flows|, run, k))
        decreases (budget / pktBits).Floor
      {
        Smaller(budget, pktBits);
        SendOne(flows);
        budget := budget - pktBits;
        BitsMore(k, pktBits);
        PickedMore(flows, t, run, k);
        k := k + 1;
      }
    }

    /**
     * pace while its list of flows stays the same: one tick after each of these gaps. However the packets fall on
     * the ticks, the flows share them: any two flows' counts differ by at most one run.
     */
    method Pace(flows: seq<int>, gaps: seq<real>) returns (k: nat)
      requires Valid() && Steady(flows) && forall j :: 0 <= j < |gaps| ==> gaps[j] >= 0.0
      modifies this
      ensures Valid() && Steady(flows) && old(sent) <= sent && |sent| == |old(sent)| + k
      ensures TurnIn(|flows|) == After(old(TurnIn(|flows|)), |flows|, run, k)
      ensures Distinct(flows) ==>
                forall i, j :: 0 <= i < |flows| && 0 <= j < |flows| ==>
                  var s := sent[|old(sent)|..];
                  -run <= Count(s, flows[i]) - Count(s, flows[j]) <= run
    {
      hide Order, Next, Count, Distinct, Picked, After;
      ghost var t, was := TurnIn(|flows|), sent;
      TurnFits(flows, rr, left);
      k := TickAll(flows, gaps);
      assert sent[|was|..] == Picked(flows, Order(t, |flows|, run, k));
      if Distinct(flows) {
        forall i, j | 0 <= i < |flows| && 0 <= j < |flows|
          ensures -run <= Count(sent[|was|..], flows[i]) - Count(sent[|was|..], flows[j]) <= run
        {
          FairPicked(flows, t, run, k, i, j);
        }
      }
    }

    /** pace's loop: the ticks' packets are one stretch of the order the flows have. */
    method TickAll(flows: seq<int>, gaps: seq<real>) returns (k: nat)
      requires Valid() && Steady(flows) && forall j :: 0 <= j < |gaps| ==> gaps[j] >= 0.0
      modifies this
      ensures Valid() && Steady(flows) && |sent| == |old(sent)| + k
      ensures sent == old(sent) + Picked(flows, Order(old(TurnIn(|flows|)), |flows|, run, k))
      ensures TurnIn(|flows|) == After(old(TurnIn(|flows|)), |flows|, run, k)
    {
      hide Order, Next, Ticks, Count, Distinct, Picked;
      ghost var t := TurnIn(|flows|);
      k := 0;
      NonePicked(flows, t, run);
      assert sent == old(sent) + [];
      for j := 0 to |gaps|
        invariant Valid() && Steady(flows) && |sent| == |old(sent)| + k
        invariant TurnIn(|flows|) == After(t, |flows|, run, k)
        invariant sent == old(sent) + Picked(flows, Order(t, |flows|, run, k))
      {
        var m := Tick(flows, gaps[j]);
        OrderJoins(t, |flows|, run, k, m);
        PickedJoins(flows, Order(t, |flows|, run, k), Order(After(t, |flows|, run, k), |flows|, run, m));
        k := k + m;
      }
    }
  }

  lemma TurnFits(flows: seq<int>, rr: int, left: int)
    requires flows != [] && rr >= 0
    ensures 0 <= rr % |flows| < |flows| && 0 <= (rr - 1) % |flows| < |flows|
  {
  }

  /** The order of a stretch of packets does not depend on how ticks cut it. */
  lemma {:induction false} OrderJoins(t: Turn, flows: int, run: int, k: nat, l: nat)
    ensures After(t, flows, run, k + l) == After(After(t, flows, run, k), flows, run, l)
    ensures Order(t, flows, run, k + l) == Order(t, flows, run, k) + Order(After(t, flows, run, k), flows, run, l)
    decreases l
  {
    hide Next;
    if l > 0 {
      OrderJoins(t, flows, run, k, l - 1);
    }
  }

  lemma {:induction false} PickedJoins(flows: seq<int>, a: seq<int>, b: seq<int>)
    ensures Picked(flows, a + b) == Picked(flows, a) + Picked(flows, b)
  {
    if b == [] {
      assert a + b == a;
    } else {
      var n := |b| - 1;
      PickedJoins(flows, a, b[..n]);
      assert (a + b)[..|a + b| - 1] == a + b[..n];
    }
  }

  /** A flow is picked as often as its place comes up. */
  lemma {:induction false} CountPicked(flows: seq<int>, order: seq<int>, i: int)
    requires Distinct(flows) && 0 <= i < |flows| && forall k :: 0 <= k < |order| ==> 0 <= order[k] < |flows|
    ensures Count(Picked(flows, order), flows[i]) == Count(order, i)
  {
    if order != [] {
      var n := |order| - 1;
      CountPicked(flows, order[..n], i);
      var s := Picked(flows, order);
      assert s[..|s| - 1] == Picked(flows, order[..n]);
    }
  }

  lemma {:induction false} OrderInList(t: Turn, flows: int, run: int, k: nat)
    requires TurnOk(t, flows, run)
    ensures TurnOk(After(t, flows, run, k), flows, run)
    ensures forall j :: 0 <= j < k ==> 0 <= Order(t, flows, run, k)[j] < flows
    decreases k
  {
    if k > 0 {
      OrderInList(t, flows, run, k - 1);
    }
  }

  lemma FairPicked(flows: seq<int>, t: Turn, run: int, k: nat, i: int, j: int)
    requires Distinct(flows) && TurnOk(t, |flows|, run) && 0 <= i < |flows| && 0 <= j < |flows|
    ensures var s := Picked(flows, Order(t, |flows|, run, k)); -run <= Count(s, flows[i]) - Count(s, flows[j]) <= run
  {
    hide Order, Count, Picked, Distinct;
    OrderInList(t, |flows|, run, k);
    CountPicked(flows, Order(t, |flows|, run, k), i);
    CountPicked(flows, Order(t, |flows|, run, k), j);
    Fair(t, |flows|, run, k, i, j);
  }

  lemma Product(x: real, y: real)
    requires x >= 0.0 && y >= 0.0
    ensures x * y >= 0.0
  {
  }

  /** budget = min(budget + rate * dt, rate * 0.01 + pktBits). */
  function Refilled(bps: real, pktBits: real, budget: real, n: nat, dt: real): (r: real)
    requires bps >= 0.0 && pktBits > 0.0 && budget >= 0.0 && dt >= 0.0
    ensures r == RealMin(budget + Gain(bps, n, dt), Gain(bps, n, 0.01) + pktBits) && r >= 0.0
    ensures n == 0 ==> r <= pktBits
  {
    var rate := bps * n as real;
    Product(bps, n as real);
    Product(rate, dt);
    Product(rate, 0.01);
    RealMin(budget + rate * dt, rate * 0.01 + pktBits)
  }

  lemma Cancel(x: real, y: real, p: real)
    requires x * p == y * p && p > 0.0
    ensures x == y
  {
    assert (x - y) * p == 0.0;
  }

  lemma Smaller(b: real, p: real)
    requires b >= p > 0.0
    ensures 0 <= ((b - p) / p).Floor < (b / p).Floor
  {
    var q, r := b / p, (b - p) / p;
    assert q * p == b && r * p == b - p;
    assert (q - 1.0) * p == q * p - p;
    Cancel(r, q - 1.0, p);
    assert r >= 0.0;
  }

  lemma Small(d: int, n: int)
    requires n > 0 && -n < d * n < n
    ensures d == 0
  {
    assert d >= 1 ==> (d - 1) * n >= 0;
    assert d <= -1 ==> (-d - 1) * n >= 0;
  }

  lemma Remainder(x: int, n: int, q: int, r: int)
    requires n > 0 && x == q * n + r && 0 <= r < n
    ensures x % n == r
  {
    var q2, r2 := x / n, x % n;
    assert x == q2 * n + r2;
    assert (q2 - q) * n == r - r2;
    Small(q2 - q, n);
  }

  lemma NextIndex(i: nat, n: nat)
    requires n > 0
    ensures (i + 1) % n == if i % n + 1 == n then 0 else i % n + 1
  {
    var q, r := i / n, i % n;
    assert i == q * n + r;
    if r + 1 == n {
      assert (q + 1) * n == q * n + n;
      Remainder(i + 1, n, q + 1, 0);
    } else {
      Remainder(i + 1, n, q, r + 1);
    }
  }

  /** The flows at these places of the list. */
  function Picked(flows: seq<int>, order: seq<int>): seq<int> {
    if order == [] then []
    else
      Picked(flows, order[..|order| - 1])
      + [if 0 <= order[|order| - 1] < |flows| then flows[order[|order| - 1]] else 0]
  }

  lemma PickedMore(flows: seq<int>, t: Turn, run: int, k: nat)
    ensures var p, n := After(t, |flows|, run, k).turn, |flows|;
            Picked(flows, Order(t, n, run, k + 1)) == Picked(flows, Order(t, n, run, k))
                + [if 0 <= p < n then flows[p] else 0]
            && After(t, n, run, k + 1) == Next(After(t, n, run, k), n, run)
  {
    var s := Order(t, |flows|, run, k + 1);
    assert s[..k] == Order(t, |flows|, run, k);
  }

  lemma NonePicked(flows: seq<int>, t: Turn, run: int)
    ensures Picked(flows, Order(t, |flows|, run, 0)) == [] && After(t, |flows|, run, 0) == t
  {
  }
}
