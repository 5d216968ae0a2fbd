/** What a batch of packets means: slots of one arena, messages over them, and what became of each packet. */
module PacketBatch {
  import opened Basics
  import opened PacketCodec
  import opened Gtpu

  /** One packet as it is put in the arena. */
  datatype Packet = Packet(ue: int, gnb: int, dst: int, seqNo: int, bytes: seq<Byte>)

  /** One message: segs packets from slot first on, all to dst, their bytes counted for gnb. */
  datatype Message = Message(first: int, segs: int, dst: int, gnb: int)

  /** A packet that left the batch: sent, or counted as a send error. */
  datatype Outcome = Outcome(packet: Packet, sent: bool)

  // -------------------------------------------------------------- messages

  /** The messages partition the batch in order; each holds 1 to gso packets to one destination for one gNB. */
  ghost predicate Partition(msgs: seq<Message>, batch: seq<Packet>, gso: int) {
    && (forall i :: 0 <= i < |msgs| ==>
           0 <= msgs[i].first && 1 <= msgs[i].segs <= gso
           && msgs[i].first + msgs[i].segs <= |batch|)
    && (if msgs == [] then batch == [] else msgs[0].first == 0 && End(msgs) == |batch|)
    && (forall i, j :: 0 <= i && j == i + 1 && j < |msgs| ==> msgs[j].first == msgs[i].first + msgs[i].segs)
    && (forall i, p :: 0 <= i < |msgs| && msgs[i].first <= p < msgs[i].first + msgs[i].segs ==>
          batch[p].dst == msgs[i].dst && batch[p].gnb == msgs[i].gnb)
  }

  /** The slot behind the last message. */
  function End(msgs: seq<Message>): int { if msgs == [] then 0 else msgs[|msgs| - 1].first + msgs[|msgs| - 1].segs }

  /** Message i's packets. */
  function PacketsOf(msgs: seq<Message>, batch: seq<Packet>, i: int): seq<Packet> {
    if 0 <= i < |msgs| && 0 <= msgs[i].first <= msgs[i].first + msgs[i].segs <= |batch|
    then batch[msgs[i].first..msgs[i].first + msgs[i].segs] else []
  }

  /** The packets of the messages before off. */
  function Before(msgs: seq<Message>, batch: seq<Packet>, off: int): seq<Packet> {
    if 0 <= off < |msgs| && 0 <= msgs[off].first <= |batch| then batch[..msgs[off].first] else batch
  }

  lemma BeforeNext(msgs: seq<Message>, batch: seq<Packet>, gso: int, i: int)
    requires Partition(msgs, batch, gso) && 0 <= i < |msgs|
    ensures Before(msgs, batch, i + 1) == Before(msgs, batch, i) + PacketsOf(msgs, batch, i)
  {
  }

  lemma BeforeAll(msgs: seq<Message>, batch: seq<Packet>)
    ensures Before(msgs, batch, |msgs|) == batch
  {
  }

  lemma BeforeFirst(msgs: seq<Message>, batch: seq<Packet>, gso: int)
    requires Partition(msgs, batch, gso)
    ensures Before(msgs, batch, 0) == []
  {
  }

  lemma InMessage(msgs: seq<Message>, batch: seq<Packet>, gso: int, i: int)
    requires Partition(msgs, batch, gso) && 0 <= i < |msgs|
    ensures 0 <= msgs[i].first && 1 <= msgs[i].segs <= gso && msgs[i].first + msgs[i].segs <= |batch|
    ensures forall p :: msgs[i].first <= p < msgs[i].first + msgs[i].segs ==>
              batch[p].gnb == msgs[i].gnb
              && batch[p].dst == msgs[i].dst
  {
  }

  /** add's two ways to put a packet in a message. */
  lemma NewMessage(msgs: seq<Message>, batch: seq<Packet>, gso: int, x: Packet)
    requires Partition(msgs, batch, gso) && gso >= 1
    ensures Partition(msgs + [Message(|batch|, 1, x.dst, x.gnb)], batch + [x], gso)
  {
  }

  lemma GrowMessage(msgs: seq<Message>, batch: seq<Packet>, gso: int, x: Packet)
    requires Partition(msgs, batch, gso) && msgs != []
    requires var m := msgs[|msgs| - 1]; m.dst == x.dst && m.gnb == x.gnb && m.segs < gso
    ensures var n := |msgs| - 1; Partition(msgs[n := msgs[n].(segs := msgs[n].segs + 1)], batch + [x], gso)
  {
    var n := |msgs| - 1;
    var grown := msgs[n := msgs[n].(segs := msgs[n].segs + 1)];
    forall i, p | 0 <= i < |grown| && grown[i].first <= p < grown[i].first + grown[i].segs
      ensures (batch + [x])[p].dst == grown[i].dst && (batch + [x])[p].gnb == grown[i].gnb
    {
      if i < n {
        assert grown[i] == msgs[i];
      }
    }
  }

  // -------------------------------------------------------------- outcomes

  function Packets(log: seq<Outcome>): (ps: seq<Packet>)
    ensures |ps| == |log|
  {
    if log == [] then [] else Packets(log[..|log| - 1]) + [log[|log| - 1].packet]
  }

  function Sent(log: seq<Outcome>): nat {
    if log == [] then 0 else Sent(log[..|log| - 1]) + (if log[|log| - 1].sent then 1 else 0)
  }

  function Failed(log: seq<Outcome>): nat {
    if log == [] then 0 else Failed(log[..|log| - 1]) + (if log[|log| - 1].sent then 0 else 1)
  }

  /** The bytes of the packets sent for gNB g, size each. */
  function SentFor(log: seq<Outcome>, g: int, size: nat): nat {
    if log == [] then 0
    else
      SentFor(log[..|log| - 1], g, size)
      + (if log[|log| - 1].sent && log[|log| - 1].packet.gnb == g then size else 0)
  }

  function SentBytes(log: seq<Outcome>, size: nat): nat {
    if log == [] then 0 else SentBytes(log[..|log| - 1], size) + (if log[|log| - 1].sent then size else 0)
  }

  lemma Logged(log: seq<Outcome>, o: Outcome, size: nat)
    ensures Packets(log + [o]) == Packets(log) + [o.packet]
    ensures Sent(log + [o]) == Sent(log) + (if o.sent then 1 else 0)
            && Failed(log + [o]) == Failed(log) + (if o.sent then 0 else 1)
    ensures SentBytes(log + [o], size) == SentBytes(log, size) + (if o.sent then size else 0)
    ensures forall g ::
              SentFor(log + [o], g, size) == SentFor(log, g, size)
              + (if o.sent && o.packet.gnb == g then size else 0)
  {
    assert (log + [o])[..|log|] == log;
  }

  lemma {:induction false} SumPlus(xs: seq<nat>, ys: seq<nat>, zs: seq<nat>)
    requires |xs| == |ys| == |zs| && forall i :: 0 <= i < |xs| ==> zs[i] == xs[i] + ys[i]
    ensures Sum(zs) == Sum(xs) + Sum(ys)
  {
    if xs != [] {
      var n := |xs| - 1;
      SumPlus(xs[..n], ys[..n], zs[..n]);
    }
  }

  lemma {:induction false} SumNone(xs: seq<nat>)
    requires forall i :: 0 <= i < |xs| ==> xs[i] == 0
    ensures Sum(xs) == 0
  {
    if xs != [] {
      SumNone(xs[..|xs| - 1]);
    }
  }

  function Outcomes(ps: seq<Packet>, sent: bool): (log: seq<Outcome>)
    ensures |log| == |ps|
  {
    if ps == [] then [] else Outcomes(ps[..|ps| - 1], sent) + [Outcome(ps[|ps| - 1], sent)]
  }

  lemma {:induction false} LoggedAll(log: seq<Outcome>, ps: seq<Packet>, sent: bool)
    ensures Packets(log + Outcomes(ps, sent)) == Packets(log) + ps
    decreases |ps|
  {
    if ps == [] {
      assert log + [] == log;
    } else {
      var n := |ps| - 1;
      var o := Outcome(ps[n], sent);
      LoggedAll(log, ps[..n], sent);
      Logged(log + Outcomes(ps[..n], sent), o, 0);
      assert log + Outcomes(ps, sent) == (log + Outcomes(ps[..n], sent)) + [o];
      assert ps == ps[..n] + [ps[n]];
    }
  }

  /** Every packet is counted once, as sent or as an error. */
  lemma {:induction false} SentOrFailed(log: seq<Outcome>)
    ensures Sent(log) + Failed(log) == |log|
  {
    if log != [] {
      SentOrFailed(log[..|log| - 1]);
    }
  }

  function Sum(xs: seq<nat>): nat {
    if xs == [] then 0 else Sum(xs[..|xs| - 1]) + xs[|xs| - 1]
  }

  lemma {:induction false} SumAdds(xs: seq<nat>, g: nat, d: nat)
    requires g < |xs|
    ensures Sum(xs[g := xs[g] + d]) == Sum(xs) + d
  {
    var n := |xs| - 1;
    if g == n {
      assert xs[g := xs[g] + d][..n] == xs[..n];
    } else {
      SumAdds(xs[..n], g, d);
      assert xs[g := xs[g] + d][..n] == xs[..n][g := xs[..n][g] + d];
    }
  }

  /** Packets of UE u. */
  function CountUe(ps: seq<Packet>, u: int): nat {
    if ps == [] then 0 else CountUe(ps[..|ps| - 1], u) + (if ps[|ps| - 1].ue == u then 1 else 0)
  }

  /** Each UE's packets are numbered 0, 1, 2 and so on, in 32 bits. */
  ghost predicate InSequence(ps: seq<Packet>) {
    forall k :: 0 <= k < |ps| ==> ps[k].seqNo == CountUe(ps[..k], ps[k].ue) % Two32
  }

  lemma SequenceGrows(ps: seq<Packet>, x: Packet)
    requires InSequence(ps) && x.seqNo == CountUe(ps, x.ue) % Two32
    ensures InSequence(ps + [x]) && CountUe(ps + [x], x.ue) == CountUe(ps, x.ue) + 1
    ensures forall u :: u != x.ue ==> CountUe(ps + [x], u) == CountUe(ps, u)
  {
    var more := ps + [x];
    assert more[..|ps|] == ps;
    forall k | 0 <= k < |more| ensures more[k].seqNo == CountUe(more[..k], more[k].ue) % Two32 {
      if k < |ps| {
        assert more[..k] == ps[..k];
      }
    }
  }

  // ----------------------------------------------------------------- slots

  function SlotOf(a: seq<Byte>, p: nat, seg: nat): (s: seq<Byte>)
    requires p * seg + seg <= |a|
    ensures |s| == seg
  {
    a[p * seg..p * seg + seg]
  }

  lemma SlotFits(p: nat, slots: nat, seg: nat)
    requires p < slots
    ensures 0 <= p * seg && p * seg + seg <= slots * seg
  {
    assert (p + 1) * seg <= slots * seg;
    assert (p + 1) * seg == p * seg + seg;
  }

  /** Writing s at the start of slot at leaves the rest of that slot, and every other slot, as they were. */
  lemma SlotWritten(a: seq<Byte>, b: seq<Byte>, slots: nat, seg: nat, at: nat, s: seq<Byte>)
    requires |a| == slots * seg && at < slots && |s| <= seg
    requires at * seg + |s| <= |a| && b == a[..at * seg] + s + a[at * seg + |s|..]
    ensures at * seg + seg <= |a| && SlotOf(b, at, seg) == s + SlotOf(a, at, seg)[|s|..]
    ensures forall p: nat :: p < slots && p != at ==> p * seg + seg <= |a| && SlotOf(b, p, seg) == SlotOf(a, p, seg)
  {
    SlotFits(at, slots, seg);
    forall p: nat | p < slots && p != at ensures p * seg + seg <= |a| && SlotOf(b, p, seg) == SlotOf(a, p, seg) {
      SlotFits(p, slots, seg);
      if p < at {
        SlotFits(p, at, seg);
      } else {
        SlotFits(at, p, seg);
      }
    }
  }

  /** The first slots hold the batch's packets; behind its first head bytes every slot is zero. */
  ghost predicate Arena(a: seq<Byte>, slots: nat, seg: nat, head: nat, batch: seq<Packet>) {
    && |a| == slots * seg && head <= seg && |batch| <= slots
    && (forall p: nat :: p < slots ==> p * seg + seg <= |a| && SlotOf(a, p, seg)[head..] == Zeros(seg - head))
    && (forall p: nat :: p < |batch| ==> p * seg + seg <= |a| && SlotOf(a, p, seg) == batch[p].bytes)
  }

  lemma NewArena(a: seq<Byte>, slots: nat, seg: nat, head: nat)
    requires |a| == slots * seg && head <= seg && forall i :: 0 <= i < |a| ==> a[i] == 0
    ensures Arena(a, slots, seg, head, [])
  {
    forall p: nat | p < slots ensures p * seg + seg <= |a| && SlotOf(a, p, seg)[head..] == Zeros(seg - head) {
      SlotFits(p, slots, seg);
    }
  }

  /** The new packet's slot, and any other one. */
  lemma SlotGrown(a: seq<Byte>, b: seq<Byte>, slots: nat, seg: nat, head: nat, batch: seq<Packet>, s: seq<Byte>,
                  x: Packet, p: nat)
    requires Arena(a, slots, seg, head, batch) && |batch| < slots && |s| == head && p < slots
    requires |batch| * seg + head <= |a| && b == a[..|batch| * seg] + s + a[|batch| * seg + head..]
    requires x.bytes == s + Zeros(seg - head)
    ensures p * seg + seg <= |b| && SlotOf(b, p, seg)[head..] == Zeros(seg - head)
    ensures p < |batch + [x]| ==> SlotOf(b, p, seg) == (batch + [x])[p].bytes
  {
    var at := |batch|;
    SlotFits(p, slots, seg);
    SlotWritten(a, b, slots, seg, at, s);
    hide SlotOf, Zeros;
    if p == at {
      assert x.bytes[head..] == Zeros(seg - head);
    } else {
      assert SlotOf(b, p, seg) == SlotOf(a, p, seg);
    }
  }

  /** Only a slot's head is ever written, so a reused slot is as good as a fresh one. */
  lemma ArenaGrows(a: seq<Byte>, b: seq<Byte>, slots: nat, seg: nat, head: nat, batch: seq<Packet>, s: seq<Byte>,
          x: Packet)
    requires Arena(a, slots, seg, head, batch) && |batch| < slots && |s| == head
    requires |batch| * seg + head <= |a| && b == a[..|batch| * seg] + s + a[|batch| * seg + head..]
    requires x.bytes == s + Zeros(seg - head)
    ensures Arena(b, slots, seg, head, batch + [x])
  {
    hide SlotOf, Zeros;
    ArenaSize(a, slots, seg, head, batch);
    forall p: nat | p < slots
      ensures p * seg + seg <= |b| && SlotOf(b, p, seg)[head..] == Zeros(seg - head)
      ensures p < |batch + [x]| ==> SlotOf(b, p, seg) == (batch + [x])[p].bytes
    {
      SlotGrown(a, b, slots, seg, head, batch, s, x, p);
    }
  }

  // ------------------------------------------------------------ cutting

  /** How a GRO reader cuts a message into packets: the last may be shorter. */
  function Cut(b: seq<Byte>, seg: nat): seq<seq<Byte>>
    requires seg > 0
    decreases |b|
  {
    if b == [] then []
    else if |b| <= seg then [b]
    else [b[..seg]] + Cut(b[seg..], seg)
  }

  /** The reader's loop. */
  method CutMessage(message: seq<Byte>, seg: nat) returns (packets: seq<seq<Byte>>)
    requires seg > 0
    ensures packets == Cut(message, seg)
  {
    packets := [];
    var b := message;
    while |b| > 0
      invariant packets + Cut(b, seg) == Cut(message, seg)
      decreases |b|
    {
      var k := if seg < |b| then seg else |b|;
      assert k == |b| ==> b[k..] == [] && b[..k] == b;
      packets := packets + [b[..k]];
      b := b[k..];
    }
  }

  function Concat(ss: seq<seq<Byte>>): seq<Byte> {
    if ss == [] then [] else ss[0] + Concat(ss[1..])
  }

  /** Cutting packets of seg bytes that were sent as one message gives the same packets back. */
  lemma {:induction false} CutGivesBack(ss: seq<seq<Byte>>, seg: nat)
    requires seg > 0 && forall k :: 0 <= k < |ss| ==> |ss[k]| == seg
    ensures Cut(Concat(ss), seg) == ss
  {
    if ss != [] {
      CutGivesBack(ss[1..], seg);
      var b := Concat(ss);
      assert b[..seg] == ss[0] && b[seg..] == Concat(ss[1..]);
      if |ss| == 1 {
        assert b == ss[0];
      } else {
        assert Concat(ss[1..]) == ss[1] + Concat(ss[1..][1..]);
      }
    }
  }

  /**
   * The bytes of a message over slots first to first + segs - 1, as flush cuts them from the arena,
   * are its packets in order.
   */
  lemma {:induction false} MessageBytes(a: seq<Byte>, first: nat, segs: nat, seg: nat, ps: seq<seq<Byte>>)
    requires |ps| == segs && first * seg <= first * seg + segs * seg <= |a|
    requires forall k: nat :: k < segs ==> SlotAt(a, first * seg + k * seg, seg, ps[k])
    ensures a[first * seg..first * seg + segs * seg] == Concat(ps)
  {
    MessageFrom(a, first * seg, seg, ps);
  }

  ghost predicate SlotAt(a: seq<Byte>, at: int, seg: nat, p: seq<Byte>) {
    0 <= at && at + seg <= |a| && a[at..at + seg] == p
  }

  lemma {:induction false} MessageFrom(a: seq<Byte>, at: nat, seg: nat, ps: seq<seq<Byte>>)
    requires at + |ps| * seg <= |a|
    requires forall k: nat :: k < |ps| ==> SlotAt(a, at + k * seg, seg, ps[k])
    ensures at <= at + |ps| * seg && a[at..at + |ps| * seg] == Concat(ps)
    decreases |ps|
  {
    if ps != [] {
      assert SlotAt(a, at + 0 * seg, seg, ps[0]);
      var rest := ps[1..];
      assert |ps| * seg == seg + |rest| * seg;
      forall k: nat | k < |rest| ensures SlotAt(a, (at + seg) + k * seg, seg, rest[k]) {
        assert SlotAt(a, at + (k + 1) * seg, seg, ps[k + 1]);
        assert (k + 1) * seg == seg + k * seg;
      }
      MessageFrom(a, at + seg, seg, rest);
      assert a[at..at + |ps| * seg] == a[at..at + seg] + a[at + seg..(at + seg) + |rest| * seg];
    }
  }

  function BytesOf(ps: seq<Packet>): (ss: seq<seq<Byte>>)
    ensures |ss| == |ps| && forall k :: 0 <= k < |ps| ==> ss[k] == ps[k].bytes
  {
    seq(|ps|, k requires 0 <= k < |ps| => ps[k].bytes)
  }

  /** The slots of a message, cut by the slot size as a GRO reader does, are its packets. */
  lemma MessageCut(a: seq<Byte>, slots: nat, seg: nat, head: nat, batch: seq<Packet>, first: int, segs: int)
    requires Arena(a, slots, seg, head, batch) && seg > 0 && 0 <= first && 0 <= segs && first + segs <= |batch|
    ensures 0 <= first * seg <= (first + segs) * seg <= |a|
    ensures Cut(a[first * seg..(first + segs) * seg], seg) == BytesOf(batch[first..first + segs])
  {
    hide Arena, Cut, SlotOf;
    var ps := BytesOf(batch[first..first + segs]);
    ArenaSize(a, slots, seg, head, batch);
    SlotsFit(first, segs, slots, seg);
    forall k: nat | k < segs ensures SlotAt(a, first * seg + k * seg, seg, ps[k]) && |ps[k]| == seg {
      SlotHolds(a, slots, seg, head, batch, first, k);
    }
    MessageBytes(a, first, segs, seg, ps);
    CutGivesBack(ps, seg);
  }

  lemma ArenaSize(a: seq<Byte>, slots: nat, seg: nat, head: nat, batch: seq<Packet>)
    requires Arena(a, slots, seg, head, batch)
    ensures |a| == slots * seg && |batch| <= slots
  {
  }

  lemma SlotHolds(a: seq<Byte>, slots: nat, seg: nat, head: nat, batch: seq<Packet>, first: int, k: nat)
    requires Arena(a, slots, seg, head, batch) && 0 <= first && first + k < |batch|
    ensures SlotAt(a, first * seg + k * seg, seg, batch[first + k].bytes) && |batch[first + k].bytes| == seg
  {
    hide Arena;
    SlotBytes(a, slots, seg, head, batch, first + k);
    Distributes(first, k, seg);
  }

  lemma SlotBytes(a: seq<Byte>, slots: nat, seg: nat, head: nat, batch: seq<Packet>, p: nat)
    requires Arena(a, slots, seg, head, batch) && p < |batch|
    ensures 0 <= p * seg <= p * seg + seg <= |a| && SlotOf(a, p, seg) == batch[p].bytes
  {
    hide SlotOf, Zeros;
  }

  lemma Distributes(i: int, k: int, seg: int)
    ensures (i + k) * seg == i * seg + k * seg
  {
  }

  lemma SlotsFit(first: int, segs: int, slots: nat, seg: nat)
    requires 0 <= first && 0 <= segs && first + segs <= slots
    ensures 0 <= first * seg && 0 <= segs * seg && (first + segs) * seg == first * seg + segs * seg <= slots * seg
  {
    assert (slots - first - segs) * seg >= 0;
  }
}
