/** A sender's batcher, its arena reused in place, and the kernel's answers (tester/dataplane/engine.go, stats.go). */
module PacketSender {
  import opened Basics
  import opened PacketCodec
  import opened IpChecksum
  import opened Gtpu
  import opened PacketBatch

  const BatchSize := 32
  const GsoMaxSegments := 64
  const MaxDatagram := 65507
  const GsoArena := 0x8_0000

  /** What a flow's sender needs; each direction's sequence number is one sender's. */
  class Flow {
    const ue: int
    const gnb: int
    const upf: int
    const dlTo: int
    const ulHead: seq<Byte>
    var ulSeq: int
    var dlSeq: int

    constructor (ue: int, gnb: int, upf: int, dlTo: int, ulHead: seq<Byte>)
      ensures ulSeq == dlSeq == 0
      ensures this.ue == ue && this.gnb == gnb && this.upf == upf && this.dlTo == dlTo && this.ulHead == ulHead
    {
      this.ue, this.gnb, this.upf, this.dlTo, this.ulHead := ue, gnb, upf, dlTo, ulHead;
      ulSeq, dlSeq := 0, 0;
    }
  }

  /** A sender's published counters (workerStats), and those of the batch on the way (accumulator). */
  datatype Counts = Counts(packets: nat, bytes: nat, errors: nat, gnb: seq<nat>)

  function NoCounts(gnbs: nat): Counts { Counts(0, 0, 0, seq(gnbs, i => 0)) }

  /** accumulator.add. */
  function Added(c: Counts, g: int, bytes: nat): Counts
    requires 0 <= g < |c.gnb|
  {
    Counts(c.packets + 1, c.bytes + bytes, c.errors, c.gnb[g := c.gnb[g] + bytes])
  }

  function Plus(a: Counts, b: Counts): Counts
    requires |a.gnb| == |b.gnb|
  {
    Counts(a.packets + b.packets, a.bytes + b.bytes, a.errors + b.errors,
        seq(|a.gnb|, i requires 0 <= i < |a.gnb| => a.gnb[i] + b.gnb[i]))
  }

  /** The counters say exactly what became of the packets in log. */
  ghost predicate Counted(c: Counts, log: seq<Outcome>, size: nat) {
    && c.packets == Sent(log) && c.errors == Failed(log) && c.bytes == SentBytes(log, size)
    && forall g :: 0 <= g < |c.gnb| ==> c.gnb[g] == SentFor(log, g, size)
  }

  /** The gNBs' bytes add up to all bytes. */
  predicate Even(c: Counts) { Sum(c.gnb) == c.bytes }

  lemma EvenPlus(a: Counts, b: Counts)
    requires |a.gnb| == |b.gnb| && Even(a) && Even(b)
    ensures Even(Plus(a, b))
  {
    SumPlus(a.gnb, b.gnb, Plus(a, b).gnb);
  }

  lemma EvenNone(gnbs: nat)
    ensures Even(NoCounts(gnbs))
  {
    SumNone(NoCounts(gnbs).gnb);
  }

  lemma EvenAdded(c: Counts, g: int, bytes: nat)
    requires 0 <= g < |c.gnb| && Even(c)
    ensures Even(Added(c, g, bytes))
  {
    SumAdds(c.gnb, g, bytes);
  }

  /** A message of gso packets fits in a datagram. */
  predicate InDatagram(gso: int, seg: nat) { gso == 1 || gso * seg <= MaxDatagram }

  /** One packet more would not fit in a datagram. */
  predicate NoMore(gso: int, seg: nat) { (gso + 1) * seg > MaxDatagram }

  /** newBatcher's slots, and packets per message: with UDP GSO as many as a datagram and the kernel allow. */
  method Capacity(seg: nat, gsoWorks: bool) returns (slots: nat, gso: int)
    requires seg > 0
    ensures slots >= BatchSize && 1 <= gso <= GsoMaxSegments && InDatagram(gso, seg)
    ensures if gsoWorks then gso == GsoMaxSegments || NoMore(gso, seg) else gso == 1
  {
    slots, gso := BatchSize, 0;
    if gsoWorks {
      gso := if GsoMaxSegments < MaxDatagram / seg then GsoMaxSegments else MaxDatagram / seg;
      slots := if BatchSize < GsoArena / seg then GsoArena / seg else BatchSize;
    }
    gso := if gso < 1 then 1 else gso;
    Fits(gso, seg);
    if gso != GsoMaxSegments && gsoWorks {
      FitsNoMore(gso, seg);
    }
  }

  class Batcher {
    const dl: bool
    const gnb: int
    const gnbs: nat
    const size: nat
    const seg: nat
    const slots: nat
    const runID: int
    const arena: array<Byte>
    var used: nat
    var msgs: seq<Message>
    var gso: int
    var now: int
    var acc: Counts
    var stats: Counts
    ghost var batch: seq<Packet>
    ghost var log: seq<Outcome>

    /** Where a slot's tester header ends; behind it every slot stays zero. */
    function HeadLen(): nat { if dl then HeaderLen else UlHeadLen + HeaderLen }

    ghost predicate Shape()
      reads this, arena
    {
      && HeadLen() <= seg && slots > 0 && arena.Length == slots * seg && 0 <= runID < Two32
      && |acc.gnb| == gnbs && |stats.gnb| == gnbs
      && gso >= 1 && InDatagram(gso, seg)
    }

    ghost predicate Valid()
      reads this, arena
    {
      && Shape() && used == |batch| && Arena(arena[..], slots, seg, HeadLen(), batch)
      && |msgs| <= BatchSize && Partition(msgs, batch, gso)
      && (forall p :: 0 <= p < |batch| ==> 0 <= batch[p].gnb < gnbs)
      && Counted(Plus(stats, acc), log, size)
      && acc == NoCounts(gnbs) && Even(stats) && -Two63 <= now < Two63
    }

    /** All packets ever added, in order. */
    ghost function History(): seq<Packet>
      reads this
    {
      Packets(log) + batch
    }

    constructor (dl: bool, gnb: int, gnbs: nat, packetSize: nat, runID: int, gsoWorks: bool)
      requires 0 <= runID < Two32 && 52 <= packetSize
      ensures Valid() && fresh(arena) && History() == [] && stats == NoCounts(gnbs)
      ensures this.dl == dl && this.gnb == gnb && this.gnbs == gnbs && this.runID == runID && size == packetSize
      ensures seg == if dl then packetSize - 28 else packetSize + 8
      ensures slots >= BatchSize && gso <= GsoMaxSegments
      ensures if gsoWorks then gso == GsoMaxSegments || NoMore(gso, seg) else gso == 1
    {
      var n := if dl then packetSize - 28 else packetSize + 8;
      var room, per := Capacity(n, gsoWorks);
      var a := new Byte[room * n](i => 0);
      this.dl, this.gnb, this.gnbs, this.size := dl, gnb, gnbs, packetSize;
      this.seg, this.slots, this.runID, this.arena := n, room, runID, a;
      used, msgs, gso, now := 0, [], per, 0;
      acc, stats := NoCounts(gnbs), NoCounts(gnbs);
      batch, log := [], [];
      new;
      hide Arena, Counted, Plus, Partition, Even, NoMore, InDatagram;
      NewArena(arena[..], slots, seg, HeadLen());
      EvenNone(gnbs);
      NothingCounted(gnbs, size);
      EmptyBatch(gso);
    }

    /** Between packets of a flush: the batch is as it was, and what is counted is what is logged. */
    ghost predicate Busy(cap: int)
      reads this, arena
    {
      && Shape() && used == |batch| && Arena(arena[..], slots, seg, HeadLen(), batch)
      && |msgs| <= BatchSize && Partition(msgs, batch, cap)
      && (forall p :: 0 <= p < |batch| ==> 0 <= batch[p].gnb < gnbs)
      && Counted(Plus(stats, acc), log, size)
      && (acc.packets == 0 ==> acc == NoCounts(gnbs).(errors := acc.errors)) && Even(acc) && Even(stats)
    }

    /** The kernel's answer to sendmmsg: how many whole messages went out (-1 if it refused the first), and an error. */
    method WriteBatch(n: nat) returns (sent: int, err: bool, gsoRefused: bool)
      requires n > 0
      ensures -1 <= sent <= n
    {
      var k: int := *;
      sent := if -1 <= k <= n then k else n;
      err := *;
      gsoRefused := *;
    }

    lemma MessageFacts(cap: int, i: int)
      requires Busy(cap) && 0 <= i < |msgs|
      ensures 0 <= msgs[i].first && 1 <= msgs[i].segs && msgs[i].first + msgs[i].segs <= |batch|
      ensures forall p :: msgs[i].first <= p < msgs[i].first + msgs[i].segs ==> batch[p].gnb == msgs[i].gnb
      ensures PacketsOf(msgs, batch, i) == batch[msgs[i].first..msgs[i].first + msgs[i].segs]
    {
      InMessage(msgs, batch, cap, i);
    }

    /** count: message i went out. */
    method Count(ghost cap: int, i: int)
      requires Busy(cap) && 0 <= i < |msgs|
      modifies `acc, `log
      ensures Busy(cap) && Packets(log) == old(Packets(log)) + PacketsOf(msgs, batch, i)
    {
      InMessage(msgs, batch, cap, i);
      ghost var ps := PacketsOf(msgs, batch, i);
      ghost var was := acc;
      LoggedAll(log, ps, true);
      SentCounted(stats, acc, log, ps, msgs[i].gnb, size);
      assert |ps| == msgs[i].segs >= 1;
      hide Arena, Counted, Plus, Partition, Packets, PacketsOf, AddedTimes;
      AddTimes(msgs[i].gnb, msgs[i].segs);
      log := log + Outcomes(ps, true);
    }

    method AddTimes(g: int, k: nat)
      requires 0 <= g < |acc.gnb|
      modifies `acc
      ensures acc == AddedTimes(old(acc), g, size, k)
    {
      for j := 0 to k
        invariant acc == AddedTimes(old(acc), g, size, j)
      {
        acc := Added(acc, g, size);
      }
    }

    /** One packet sent on its own. */
    method WriteTo(ghost cap: int, p: nat, g: int)
      requires Busy(cap) && p < |batch| && batch[p].gnb == g
      modifies `acc, `log
      ensures Busy(cap) && Packets(log) == old(Packets(log)) + [batch[p]]
    {
      hide Arena, Counted, Plus, Partition, Packets, Even, NoCounts;
      ghost var x := batch[p];
      var sent: bool := *;
      if sent {
        CountedOne(stats, acc, log, g, size, Outcome(x, true));
      } else {
        FailedOne(stats, acc, log, size, Outcome(x, false));
      }
      acc := if sent then Added(acc, g, size) else acc.(errors := acc.errors + 1);
      log := log + [Outcome(x, sent)];
    }

    /** dropGSO's inner loop: message i goes out packet by packet. */
    method WriteOneByOne(ghost cap: int, i: int)
      requires Busy(cap) && 0 <= i < |msgs|
      modifies `acc, `log
      ensures Busy(cap) && Packets(log) == old(Packets(log)) + PacketsOf(msgs, batch, i)
    {
      hide Packets, PacketsOf, Busy;
      MessageFacts(cap, i);
      var first, end, g := msgs[i].first, msgs[i].first + msgs[i].segs, msgs[i].gnb;
      ghost var before := Packets(log);
      for p := first to end
        invariant Busy(cap) && Packets(log) == before + batch[first..p]
      {
        WriteTo(cap, p, g);
        assert batch[first..p + 1] == batch[first..p] + [batch[p]];
      }
    }

    /** A message the kernel refused. */
    method CountRefused(ghost cap: int, i: int)
      requires Busy(cap) && 0 <= i < |msgs|
      modifies `acc, `log
      ensures Busy(cap) && Packets(log) == old(Packets(log)) + PacketsOf(msgs, batch, i)
    {
      InMessage(msgs, batch, cap, i);
      ghost var ps := PacketsOf(msgs, batch, i);
      LoggedAll(log, ps, false);
      RefusedCounted(stats, acc, log, ps, size);
      hide Arena, Counted, Plus, Partition, Packets, PacketsOf;
      acc := acc.(errors := acc.errors + msgs[i].segs);
      log := log + Outcomes(ps, false);
    }

    lemma BeforeFacts(cap: int, i: int)
      requires Busy(cap) && 0 <= i < |msgs|
      ensures Before(msgs, batch, i + 1) == Before(msgs, batch, i) + PacketsOf(msgs, batch, i)
    {
      BeforeNext(msgs, batch, cap, i);
    }

    /** dropGSO: off for good, and the messages from off on go out one packet at a time. */
    method DropGSO(ghost cap: int, off: int, ghost base: seq<Packet>)
      requires Busy(cap) && 0 <= off < |msgs| && Packets(log) == base + Before(msgs, batch, off)
      modifies `gso, `acc, `log
      ensures Busy(cap) && gso == 1 && Packets(log) == base + batch
    {
      hide Arena, Counted, Plus, Partition, Packets, PacketsOf, Before;
      gso := 1;
      assert Busy(cap);
      hide Busy, Shape;
      for i := off to |msgs|
        invariant Busy(cap) && gso == 1 && Packets(log) == base + Before(msgs, batch, i)
      {
        BeforeFacts(cap, i);
        WriteOneByOne(cap, i);
      }
      BeforeAll(msgs, batch);
    }

    /** Messages off to off + sent - 1 went out. */
    method CountSent(ghost cap: int, off: int, sent: int, ghost base: seq<Packet>)
      requires Busy(cap) && 0 <= off && 0 <= sent && off + sent <= |msgs|
              && Packets(log) == base + Before(msgs, batch, off)
      modifies `acc, `log
      ensures Busy(cap) && Packets(log) == base + Before(msgs, batch, off + sent)
    {
      hide Arena, Counted, Plus, Partition, Packets, PacketsOf, Before, Busy, Shape;
      for i := off to off + sent
        invariant Busy(cap) && Packets(log) == base + Before(msgs, batch, i)
      {
        BeforeFacts(cap, i);
        Count(cap, i);
      }
    }

    /**
     * flush's sends: every message is counted as sent, or is an error, or goes out packet by packet.
     * It always ends.
     */
    method SendAll(ghost base: seq<Packet>)
      requires Busy(gso) && Packets(log) == base
      modifies `gso, `acc, `log
      ensures Busy(old(gso)) && (gso == old(gso) || gso == 1) && Packets(log) == base + batch
    {
      ghost var cap := gso;
      hide Arena, Counted, Plus, Partition, Packets, PacketsOf, Before, Busy, Shape;
      NoneBefore(cap);
      var off := 0;
      ghost var upTo := 0;
      while off < |msgs|
        invariant 0 <= off == upTo <= |msgs| && gso == cap
        invariant Busy(cap) && Packets(log) == base + Before(msgs, batch, upTo)
        decreases |msgs| - off
      {
        var answer, err, gsoRefused := WriteBatch(|msgs| - off);
        var sent := if answer < 0 then 0 else answer;
        CountSent(cap, off, sent, base);
        off := off + sent;
        upTo := off;
        if err && off < |msgs| && gso > 1 && gsoRefused {
          DropGSO(cap, off, base);
          upTo := |msgs|;
          BeforeAll(msgs, batch);
          break;
        }
        if err || sent == 0 {
          if off < |msgs| {
            BeforeFacts(cap, off);
            CountRefused(cap, off);
            off := off + 1;
            upTo := off;
          } else {
            break;
          }
        }
      }
      BeforeAll(msgs, batch);
      assert upTo == |msgs|;
    }

    lemma NoneBefore(cap: int)
      requires Busy(cap)
      ensures Before(msgs, batch, 0) == []
    {
      BeforeFirst(msgs, batch, cap);
    }

    /** accumulator.publish: counts that are zero are left alone. */
    method Publish(ghost cap: int)
      requires Busy(cap)
      modifies `stats, `acc
      ensures stats == Plus(old(stats), old(acc)) && acc == NoCounts(gnbs) && Even(stats)
              && |stats.gnb| == |acc.gnb| == gnbs
    {
      EvenPlus(stats, acc);
      hide Arena, Counted, Partition;
      if acc.packets > 0 {
        var per := stats.gnb;
        for g := 0 to gnbs
          invariant |per| == gnbs
          invariant forall h :: 0 <= h < gnbs ==> per[h] == stats.gnb[h] + if h < g then acc.gnb[h] else 0
        {
          if acc.gnb[g] > 0 {
            per := per[g := per[g] + acc.gnb[g]];
          }
        }
        stats := stats.(packets := stats.packets + acc.packets, bytes := stats.bytes + acc.bytes, gnb := per);
      }
      if acc.errors > 0 {
        stats := stats.(errors := stats.errors + acc.errors);
      }
      assert stats.gnb == Plus(old(stats), acc).gnb;
      acc := NoCounts(gnbs);
    }

    /**
     * flush: whatever the kernel answers, every packet of the batch is counted once, in order, and the
     * arena is free again.
     */
    method Flush()
      requires Valid()
      modifies this
      ensures Valid() && History() == old(History()) && batch == [] && msgs == []
      ensures gso == old(gso) || gso == 1
    {
      hide Arena, Counted, Partition, Packets, Plus, Even, Before, PacketsOf;
      ghost var base, was := Packets(log), batch;
      ghost var cap := gso;
      Started();
      SendAll(base);
      Publish(cap);
      msgs, used := [], 0;
      batch := [];
      EmptyAgain(arena[..], slots, seg, HeadLen(), was);
      SettledCounts(stats, gnbs, log, size);
      EmptyBatch(gso);
    }

    lemma Started()
      requires Valid()
      ensures Busy(gso)
    {
      EvenNone(gnbs);
    }

    /**
     * Of all packets ever added, those counted as sent and as errors are the ones not in the batch;
     * bytes are counted per gNB and in all alike.
     */
    lemma Totals()
      requires Valid()
      ensures stats.packets + stats.errors + |batch| == |History()|
      ensures Sum(stats.gnb) == stats.bytes
      ensures forall g :: 0 <= g < gnbs ==> stats.gnb[g] == SentFor(log, g, size)
    {
      SentOrFailed(log);
    }

    lemma Errors()
      requires Valid()
      ensures stats.errors == Failed(log)
    {
    }

    /** Whom flow f's packets go to, and the gNB their bytes count for. */
    function Target(f: Flow): int { if dl then f.dlTo else f.upf }

    function GnbOf(f: Flow): int { if dl then f.gnb else gnb }

    function SeqOf(f: Flow): int
      reads f
    {
      if dl then f.dlSeq else f.ulSeq
    }

    predicate Accepts(f: Flow) {
      0 <= f.ue < Two32 && 0 <= GnbOf(f) < gnbs && (!dl ==> |f.ulHead| == UlHeadLen) && HeadLen() <= seg
          && 0 <= runID < Two32
    }

    predicate Stamp(seqNo: int, t: int) { 0 <= seqNo < Two32 && -Two63 <= t < Two63 }

    /** What one packet's headers are: the only bytes of its slot that are written. */
    function Head(f: Flow, seqNo: int, t: int): (h: seq<Byte>)
      requires Accepts(f) && Stamp(seqNo, t)
      ensures |h| == HeadLen()
    {
      (if dl then [] else f.ulHead) + HeaderBytes(Header(runID, f.ue, dl, seqNo, t))
    }

    /** Flow f's packet number seqNo of time t, freshly built. */
    function PacketOf(f: Flow, seqNo: int, t: int): Packet
      requires Accepts(f) && Stamp(seqNo, t)
    {
      Packet(f.ue, GnbOf(f), Target(f), seqNo,
          UlPacket(if dl then [] else f.ulHead, Header(runID, f.ue, dl, seqNo, t), seg))
    }

    lemma PacketHead(f: Flow, seqNo: int, t: int)
      requires Accepts(f) && Stamp(seqNo, t)
      ensures PacketOf(f, seqNo, t).bytes == Head(f, seqNo, t) + Zeros(seg - HeadLen())
    {
      hide HeaderBytes;
    }

    /** The packet's headers go into the next slot, over whatever flow's were there. */
    method PutPacket(f: Flow, seqNo: int, t: int)
      requires Accepts(f) && Stamp(seqNo, t) && Shape() && used < slots
      modifies arena
      ensures 0 <= used * seg && used * seg + HeadLen() <= arena.Length
      ensures arena[..] == old(arena[..used * seg]) + Head(f, seqNo, t) + old(arena[used * seg + HeadLen()..])
    {
      hide Be, HeaderBytes;
      var at := used * seg;
      SlotFits(used, slots, seg);
      if dl {
        Copy(arena, at, HeaderBytes(Header(runID, f.ue, true, seqNo, t)));
      } else {
        Copy(arena, at, f.ulHead);
        assert arena[..at + UlHeadLen] == old(arena[..at]) + f.ulHead;
        assert arena[at + UlHeadLen + HeaderLen..] == old(arena[at + UlHeadLen + HeaderLen..]);
        Copy(arena, at + UlHeadLen, HeaderBytes(Header(runID, f.ue, false, seqNo, t)));
      }
    }

    /** The last message cannot take a packet of f: there is none, or it goes elsewhere, or it is full. */
    predicate NeedsMessage(f: Flow)
      reads this
    {
      msgs == [] || msgs[|msgs| - 1].dst != Target(f) || msgs[|msgs| - 1].segs == gso
    }

    predicate NeedsFlush(f: Flow)
      reads this
    {
      used == slots || (NeedsMessage(f) && |msgs| == BatchSize)
    }

    /** A packet of f opens a message; else it counts for the gNB of the last message's first packet. */
    predicate OpensMessage(f: Flow)
      reads this
    {
      NeedsMessage(f) || used == slots
    }

    /**
     * add: one more packet of f, with f's next sequence number; a full batch is flushed first. Its bytes count for
     * f's own gNB if and only if it opens a message or the last message is one of that gNB's: so always, as long as
     * no flow of another gNB in the batch has the same destination.
     */
    method Add(f: Flow) returns (ghost g: int)
      requires Valid() && Accepts(f) && 0 <= f.ulSeq < Two32 && 0 <= f.dlSeq < Two32
      modifies this, arena, f
      ensures Valid() && Stamp(old(SeqOf(f)), now)
      ensures History() == old(History()) + [PacketOf(f, old(SeqOf(f)), now).(gnb := g)]
      ensures g == GnbOf(f) <==> old(OpensMessage(f) || msgs[|msgs| - 1].gnb == GnbOf(f))
      ensures g == GnbOf(f) || (old(msgs != []) && g == old(msgs[|msgs| - 1].gnb))
      ensures (forall p :: 0 <= p < |old(batch)| && old(batch)[p].dst == Target(f) ==> old(batch)[p].gnb == GnbOf(f))
              ==> g == GnbOf(f)
      ensures !old(NeedsFlush(f)) ==>
                log == old(log) && stats == old(stats) && gso == old(gso)
                && batch == old(batch) + [PacketOf(f, old(SeqOf(f)), now).(gnb := g)]
      ensures SeqOf(f) == (old(SeqOf(f)) + 1) % Two32
      ensures if dl then f.ulSeq == old(f.ulSeq) else f.dlSeq == old(f.dlSeq)
      ensures old(InSequence(History()) && SeqOf(f) == CountUe(History(), f.ue) % Two32) ==>
                InSequence(History()) && SeqOf(f) == CountUe(History(), f.ue) % Two32
      ensures forall u :: u != f.ue ==> CountUe(History(), u) == CountUe(old(History()), u)
    {
      hide Arena, Counted, Plus, Partition, Packets, Zeros, HeaderBytes, UlPacket, Even, InSequence, CountUe;
      LastFacts();
      g := GnbOf(f);
      var seqNo := SeqOf(f);
      var last := |msgs| - 1;
      var newMsg := |msgs| == 0 || msgs[last].dst != Target(f) || msgs[last].segs == gso;
      if used == slots || (newMsg && |msgs| == BatchSize) {
        Flush();
        newMsg := true;
      }
      if used == 0 {
        now := ReadClock();
      }
      if !newMsg {
        g := msgs[last].gnb;
      }
      Append(f, seqNo, newMsg, g);
      Sequenced(old(History()), History(), PacketOf(f, seqNo, now).(gnb := g));
      if dl {
        f.dlSeq := (f.dlSeq + 1) % Two32;
      } else {
        f.ulSeq := (f.ulSeq + 1) % Two32;
      }
    }

    /** What flush sends as message i is cut into exactly that message's packets. */
    lemma MessageIsItsPackets(i: int)
      requires Valid() && 0 <= i < |msgs|
      ensures var lo, hi := msgs[i].first * seg, (msgs[i].first + msgs[i].segs) * seg;
              0 <= lo <= hi <= arena.Length && Cut(arena[lo..hi], seg) == BytesOf(PacketsOf(msgs, batch, i))
    {
      hide Arena, Cut, Counted, Plus, Even;
      InMessage(msgs, batch, gso, i);
      hide Partition;
      var m := msgs[i];
      MessageCut(arena[..], slots, seg, HeadLen(), batch, m.first, m.segs);
    }

    lemma LastFacts()
      requires Valid()
      ensures used <= slots && |msgs| <= BatchSize && slots > 0
      ensures msgs != [] ==> var m := msgs[|msgs| - 1];
                             m.segs <= gso && 0 <= m.first < |batch| && batch[m.first].dst == m.dst
                                 && batch[m.first].gnb == m.gnb
    {
      if msgs != [] {
        InMessage(msgs, batch, gso, |msgs| - 1);
      }
    }

    method ReadClock() returns (t: int)
      ensures -Two63 <= t < Two63
    {
      t := *;
      if t < -Two63 || t >= Two63 {
        t := 0;
      }
    }

    /** The packet goes to the next slot and to a new message, or to the last one. */
    method Append(f: Flow, seqNo: int, newMsg: bool, ghost g: int)
      requires Valid() && Accepts(f) && Stamp(seqNo, now) && used < slots
      requires newMsg ==> |msgs| < BatchSize && g == GnbOf(f)
      requires !newMsg ==>
                msgs != [] && msgs[|msgs| - 1].dst == Target(f) && msgs[|msgs| - 1].segs < gso
                && msgs[|msgs| - 1].gnb == g && 0 <= g < gnbs
      modifies `msgs, `used, `batch, arena
      ensures Valid() && History() == old(History()) + [PacketOf(f, seqNo, now).(gnb := g)]
      ensures batch == old(batch) + [PacketOf(f, seqNo, now).(gnb := g)]
    {
      hide Partition, Arena, Counted, Plus, Packets, Zeros, HeaderBytes, UlPacket, Even;
      ghost var x := PacketOf(f, seqNo, now).(gnb := g);
      PacketHead(f, seqNo, now);
      ghost var before := arena[..];
      if newMsg {
        NewMessage(msgs, batch, gso, x);
        msgs := msgs + [Message(used, 1, Target(f), GnbOf(f))];
      } else {
        GrowMessage(msgs, batch, gso, x);
        var n := |msgs| - 1;
        msgs := msgs[n := msgs[n].(segs := msgs[n].segs + 1)];
      }
      PutPacket(f, seqNo, now);
      ArenaGrows(before, arena[..], slots, seg, HeadLen(), batch, Head(f, seqNo, now), x);
      used := used + 1;
      batch := batch + [x];
    }
  }

  // --------------------------------------------------------------- flows

  /** newFlow: the uplink headers are those of a fresh template; dlTarget replaces the UE's own address. */
  method NewFlow(ue: int, gnb: int, ueIp: nat, ulTeid: nat, upf: int, sink: nat, port: nat, size: nat,
                 dlTarget: Option<int>) returns (f: Flow)
    requires size >= 28
    ensures fresh(f) && f.ulSeq == f.dlSeq == 0 && f.ue == ue && f.gnb == gnb && f.upf == upf
    ensures f.ulHead == UlHead(ulTeid, ueIp, sink, port, size)
    ensures f.dlTo == if dlTarget.Some? then dlTarget.value else ueIp
  {
    hide UlHead;
    var t := NewUlTemplate(ulTeid, ueIp, sink, port, size);
    f := new Flow(ue, gnb, upf, if dlTarget.Some? then dlTarget.value else ueIp, t[..UlHeadLen]);
  }

  /** UE ue's tunnel and address. */
  type Tunnels = map<int, (nat, nat)>

  /** A fresh template of the packet's UE with a tester header in: nothing is left of whoever had the slot before. */
  ghost predicate FreshUplink(x: Packet, tunnels: Tunnels, sink: nat, port: nat, size: nat, runID: int)
    requires size >= 52
  {
    && x.ue in tunnels
    && exists t: int :: TemplateWith(x.bytes, tunnels[x.ue], sink, port, size, Stamped(runID, x.ue, x.seqNo, t))
  }

  /** putHeader's arguments for an uplink packet, if they are in range. */
  function Stamped(runID: int, ue: int, seqNo: int, t: int): Option<Header> {
    if runID >= 0 && ue >= 0 && seqNo >= 0 && Header(runID, ue, false, seqNo, t).Fits()
    then Some(Header(runID, ue, false, seqNo, t)) else None
  }

  predicate TemplateWith(b: seq<Byte>, tunnel: (nat, nat), sink: nat, port: nat, size: nat, h: Option<Header>)
    requires size >= 52
  {
    var t := UlTemplate(tunnel.0, tunnel.1, sink, port, size);
    h.Some? && h.value.Fits() && b == t[..UlHeadLen] + HeaderBytes(h.value) + t[UlHeadLen + HeaderLen..]
  }

  /** A flow as newFlow makes it, of a UE with this tunnel and address. */
  predicate Made(f: Flow, tunnels: Tunnels, sink: nat, port: nat, size: nat)
    requires size >= 28
  {
    f.ue in tunnels && f.ulHead == UlHead(tunnels[f.ue].0, tunnels[f.ue].1, sink, port, size)
  }

  /** One more packet of a flow with its UE's headers is such a packet. */
  lemma UplinkStaysFresh(b: Batcher, before: seq<Packet>, f: Flow, seqNo: int, t: int, g: int, tunnels: Tunnels,
                         sink: nat, port: nat)
    requires !b.dl && b.size >= 52 && b.seg == b.size + 8 && b.Accepts(f) && b.Stamp(seqNo, t)
    requires Made(f, tunnels, sink, port, b.size)
    requires forall k :: 0 <= k < |before| ==> FreshUplink(before[k], tunnels, sink, port, b.size, b.runID)
    ensures var after := before + [b.PacketOf(f, seqNo, t).(gnb := g)];
            after[|before|].ue == f.ue
            && forall k :: 0 <= k < |after| ==> FreshUplink(after[k], tunnels, sink, port, b.size, b.runID)
  {
    hide UlHead, UlPacket, UlTemplate, HeaderBytes;
    var h := Header(b.runID, f.ue, false, seqNo, t);
    UlPacketIsTemplate(tunnels[f.ue].0, tunnels[f.ue].1, sink, port, b.size, h);
    var x := b.PacketOf(f, seqNo, t).(gnb := g);
    assert TemplateWith(x.bytes, tunnels[f.ue], sink, port, b.size, Stamped(b.runID, f.ue, seqNo, t));
  }

  /** A sender's adds, for these flows one after the other, however often each comes; pace flushes when a tick ends. */
  method AddEach(b: Batcher, flows: seq<Flow>, ghost tunnels: Tunnels, ghost sink: nat, ghost port: nat)
    requires b.Valid() && b.History() == [] && !b.dl && b.size >= 52 && b.seg == b.size + 8
    requires forall f :: f in flows ==> Made(f, tunnels, sink, port, b.size) && b.Accepts(f)
    requires forall f :: f in flows ==> 0 <= f.ulSeq < Two32 && 0 <= f.dlSeq < Two32
    modifies b, b.arena, flows
    ensures b.Valid() && |b.History()| == |flows|
    ensures forall k :: 0 <= k < |flows| ==>
              b.History()[k].ue == flows[k].ue
              && FreshUplink(b.History()[k], tunnels, sink, port, b.size, b.runID)
  {
    hide Made, FreshUplink, Batcher.Valid, Batcher.History, Batcher.Accepts, UlPacket, Zeros, InSequence, CountUe;
    for i := 0 to |flows|
      invariant b.Valid() && |b.History()| == i
      invariant forall f :: f in flows ==> 0 <= f.ulSeq < Two32 && 0 <= f.dlSeq < Two32
      invariant forall k :: 0 <= k < i ==>
                  b.History()[k].ue == flows[k].ue
                  && FreshUplink(b.History()[k], tunnels, sink, port, b.size, b.runID)
    {
      var f := flows[i];
      ghost var before, seqNo := b.History(), b.SeqOf(f);
      ghost var g := b.Add(f);
      UplinkStaysFresh(b, before, f, seqNo, b.now, g, tunnels, sink, port);
      var tickEnds: bool := *;
      if tickEnds {
        b.Flush();
      }
    }
  }

  /** What newFlow is given of a UE. */
  datatype UeFlow = UeFlow(ue: int, ip: nat, teid: nat, upf: int)

  /**
   * Every uplink packet ever sent or batched is its UE's fresh template with a tester header: a new sender's, for
   * any new flows, any order of their turns and any ticks.
   */
  method UplinkHistory(ues: seq<UeFlow>, turns: seq<nat>, gnb: int, gnbs: nat, size: nat, sink: nat, port: nat,
                       runID: int, gsoWorks: bool, ghost tunnels: Tunnels) returns (b: Batcher)
    requires 0 <= gnb < gnbs && size >= 52 && 0 <= runID < Two32 && forall k :: 0 <= k < |turns| ==> turns[k] < |ues|
    requires forall u :: u in ues ==> 0 <= u.ue < Two32 && u.ue in tunnels && tunnels[u.ue] == (u.teid, u.ip)
    ensures fresh(b) && b.Valid() && |b.History()| == |turns|
    ensures forall k :: 0 <= k < |turns| ==>
              b.History()[k].ue == ues[turns[k]].ue && FreshUplink(b.History()[k], tunnels, sink, port, size, runID)
  {
    hide FreshUplink, UlHead, Batcher.Valid, Batcher.History;
    var flows: seq<Flow> := [];
    for i := 0 to |ues|
      invariant |flows| == i && forall k :: 0 <= k < i ==>
                  fresh(flows[k]) && flows[k].ue == ues[k].ue && Made(flows[k], tunnels, sink, port, size)
                  && |flows[k].ulHead| == UlHeadLen && flows[k].ulSeq == flows[k].dlSeq == 0
    {
      var u := ues[i];
      var f := NewFlow(u.ue, gnb, u.ip, u.teid, u.upf, sink, port, size, None);
      flows := flows + [f];
    }
    b := new Batcher(false, gnb, gnbs, size, runID, gsoWorks);
    var order := seq(|turns|, k requires 0 <= k < |turns| => flows[turns[k]]);
    AddEach(b, order, tunnels, sink, port);
  }

  // ------------------------------------------- a packet counted for another gNB

  lemma TwoSent(log: seq<Outcome>, p: Packet, q: Packet, size: nat)
    requires Packets(log) == [p, q] && Failed(log) == 0
    ensures forall g :: SentFor(log, g, size) == (if p.gnb == g then size else 0) + (if q.gnb == g then size else 0)
  {
    var a, c := log[0], log[1];
    assert log == ([] + [a]) + [c];
    Logged([], a, size);
    Logged([] + [a], c, size);
    assert Packets(log)[0] == a.packet && Packets(log)[1] == c.packet;
  }

  /** A second packet to one address, of another gNB's UE: with room in the message its bytes count for the first's. */
  method SameTarget(b: Batcher, f: Flow, h: Flow)
    requires b.Valid() && b.History() == [] && b.gso >= 2 && b.slots >= 2 && f != h
    requires b.Accepts(f) && 0 <= f.ulSeq < Two32 && 0 <= f.dlSeq < Two32
    requires b.Accepts(h) && 0 <= h.ulSeq < Two32 && 0 <= h.dlSeq < Two32
    requires b.Target(f) == b.Target(h) && b.GnbOf(f) != b.GnbOf(h)
    modifies b, b.arena, f, h
    ensures b.Valid() && b.stats.packets + b.stats.errors == 2
    ensures b.stats.errors == 0 ==> b.stats.gnb[b.GnbOf(f)] == 2 * b.size && b.stats.gnb[b.GnbOf(h)] == 0
  {
    hide Arena, Counted, Plus, Packets, Zeros, HeaderBytes, UlPacket, Even, Partition, InSequence, CountUe, Be;
    NoHistory(b.log, b.batch);
    NoMessages(b.msgs, b.batch, b.gso);
    ghost var g := b.Add(f);
    ghost var p := b.batch[0];
    OneMessage(b.msgs, b.batch, b.gso);
    ghost var k := b.Add(h);
    ghost var q := b.batch[1];
    assert b.batch == [p, q] && Packets(b.log) == [];
    b.Flush();
    assert Packets(b.log) == [p, q];
    b.Totals();
    b.Errors();
    if b.stats.errors == 0 {
      TwoSent(b.log, p, q, b.size);
    }
  }

  /**
   * Two UEs of different gNBs whose downlink goes to one address: with UDP GSO both packets go into one message,
   * and all its bytes count for the first UE's gNB.
   */
  method SharedTarget() returns (b: Batcher, f: Flow, h: Flow)
    ensures fresh(b) && b.Valid() && f.gnb == 0 && h.gnb == 1 && f.dlTo == h.dlTo && |b.stats.gnb| == 2
    ensures b.stats.packets + b.stats.errors == 2
    ensures b.stats.errors == 0 ==> b.stats.gnb[0] == 2 * b.size && b.stats.gnb[1] == 0
  {
    hide UlHead, Arena, Counted, Plus, Packets, Zeros, Even, Partition;
    f := NewFlow(0, 0, 0x0A3C_0001, 1, 9, 0x0A64_0001, 5000, 500, Some(7));
    h := NewFlow(1, 1, 0x0A3C_0002, 2, 9, 0x0A64_0001, 5000, 500, Some(7));
    b := new Batcher(true, 0, 2, 500, 1, true);
    SameTarget(b, f, h);
  }

  lemma NoHistory(log: seq<Outcome>, batch: seq<Packet>)
    requires Packets(log) + batch == []
    ensures log == [] && batch == []
  {
  }

  lemma NoMessages(msgs: seq<Message>, batch: seq<Packet>, gso: int)
    requires Partition(msgs, batch, gso) && batch == []
    ensures msgs == []
  {
  }

  lemma SecondMessage(msgs: seq<Message>, batch: seq<Packet>, gso: int)
    requires Partition(msgs, batch, gso) && |msgs| > 1
    ensures |batch| >= 2
  {
    assert msgs[1].first == msgs[0].first + msgs[0].segs;
  }

  lemma OneMessage(msgs: seq<Message>, batch: seq<Packet>, gso: int)
    requires Partition(msgs, batch, gso) && |batch| == 1
    ensures |msgs| == 1 && msgs[0].segs == 1 && msgs[0].dst == batch[0].dst && msgs[0].gnb == batch[0].gnb
  {
    if |msgs| > 1 {
      SecondMessage(msgs, batch, gso);
    }
  }

  lemma Sequenced(before: seq<Packet>, after: seq<Packet>, x: Packet)
    requires after == before + [x]
    ensures InSequence(before) && x.seqNo == CountUe(before, x.ue) % Two32 ==>
              InSequence(after) && (x.seqNo + 1) % Two32 == CountUe(after, x.ue) % Two32
    ensures forall u :: u != x.ue ==> CountUe(after, u) == CountUe(before, u)
  {
    var c := CountUe(before, x.ue);
    assert after[..|before|] == before;
    if InSequence(before) && x.seqNo == c % Two32 {
      SequenceGrows(before, x);
      hide CountUe, InSequence;
      NextNumber(c);
    }
  }

  lemma NextNumber(c: nat)
    ensures (c % Two32 + 1) % Two32 == (c + 1) % Two32
  {
  }

  lemma EmptyBatch(gso: int)
    ensures Partition([], [], gso)
  {
  }

  lemma EmptyAgain(a: seq<Byte>, slots: nat, seg: nat, head: nat, batch: seq<Packet>)
    requires Arena(a, slots, seg, head, batch)
    ensures Arena(a, slots, seg, head, [])
  {
  }

  lemma SettledCounts(stats: Counts, gnbs: nat, log: seq<Outcome>, size: nat)
    requires Counted(stats, log, size) && |stats.gnb| == gnbs
    ensures Counted(Plus(stats, NoCounts(gnbs)), log, size)
  {
  }

  function AddedTimes(c: Counts, g: int, bytes: nat, k: nat): (r: Counts)
    requires 0 <= g < |c.gnb|
    ensures |r.gnb| == |c.gnb| && r.packets == c.packets + k && r.errors == c.errors && (Even(c) ==> Even(r))
  {
    if k == 0 then c
    else
      var before := AddedTimes(c, g, bytes, k - 1);
      SumAdds(before.gnb, g, bytes);
      Added(before, g, bytes)
  }

  /** A message that went out is counted packet by packet. */
  lemma {:induction false} SentCounted(stats: Counts, acc: Counts, log: seq<Outcome>, ps: seq<Packet>, g: int,
          size: nat)
    requires |acc.gnb| == |stats.gnb| && 0 <= g < |acc.gnb| && forall k :: 0 <= k < |ps| ==> ps[k].gnb == g
    requires Counted(Plus(stats, acc), log, size)
    ensures Counted(Plus(stats, AddedTimes(acc, g, size, |ps|)), log + Outcomes(ps, true), size)
    decreases |ps|
  {
    if ps == [] {
      assert log + [] == log;
    } else {
      var n := |ps| - 1;
      var o := Outcome(ps[n], true);
      SentCounted(stats, acc, log, ps[..n], g, size);
      CountedOne(stats, AddedTimes(acc, g, size, n), log + Outcomes(ps[..n], true), g, size, o);
      assert log + Outcomes(ps, true) == (log + Outcomes(ps[..n], true)) + [o];
    }
  }

  lemma CountedOne(stats: Counts, acc: Counts, log: seq<Outcome>, g: int, size: nat, o: Outcome)
    requires |acc.gnb| == |stats.gnb| && 0 <= g < |acc.gnb| && o.packet.gnb == g && o.sent
    requires Counted(Plus(stats, acc), log, size)
    ensures Counted(Plus(stats, Added(acc, g, size)), log + [o], size)
    ensures Even(acc) ==> Even(Added(acc, g, size))
    ensures Packets(log + [o]) == Packets(log) + [o.packet]
  {
    Logged(log, o, size);
    if Even(acc) {
      EvenAdded(acc, g, size);
    }
    hide Sum, Packets;
  }

  lemma FailedOne(stats: Counts, acc: Counts, log: seq<Outcome>, size: nat, o: Outcome)
    requires |acc.gnb| == |stats.gnb| && !o.sent && Counted(Plus(stats, acc), log, size)
    ensures Counted(Plus(stats, acc.(errors := acc.errors + 1)), log + [o], size)
    ensures Even(acc) ==> Even(acc.(errors := acc.errors + 1))
    ensures Packets(log + [o]) == Packets(log) + [o.packet]
  {
    Logged(log, o, size);
  }

  /** A message that was refused is counted as that many errors. */
  lemma {:induction false} RefusedCounted(stats: Counts, acc: Counts, log: seq<Outcome>, ps: seq<Packet>, size: nat)
    requires |acc.gnb| == |stats.gnb| && Counted(Plus(stats, acc), log, size)
    ensures Counted(Plus(stats, acc.(errors := acc.errors + |ps|)), log + Outcomes(ps, false), size)
    decreases |ps|
  {
    if ps == [] {
      assert log + [] == log;
    } else {
      var n := |ps| - 1;
      var o := Outcome(ps[n], false);
      RefusedCounted(stats, acc, log, ps[..n], size);
      Logged(log + Outcomes(ps[..n], false), o, size);
      assert log + Outcomes(ps, false) == (log + Outcomes(ps[..n], false)) + [o];
    }
  }

  lemma NothingCounted(gnbs: nat, size: nat)
    ensures Counted(Plus(NoCounts(gnbs), NoCounts(gnbs)), [], size)
  {
  }

  lemma FitsNoMore(per: int, n: nat)
    requires n > 0 && per >= 1 && (per == MaxDatagram / n || MaxDatagram / n < 1)
    ensures (per + 1) * n > MaxDatagram
  {
    assert MaxDatagram == MaxDatagram / n * n + MaxDatagram % n;
    assert (MaxDatagram / n + 1) * n == MaxDatagram / n * n + n;
    assert per * n >= n;
  }

  lemma Fits(per: int, n: nat)
    requires n > 0 && 1 <= per
    ensures per <= MaxDatagram / n ==> per * n <= MaxDatagram
  {
    if per <= MaxDatagram / n {
      assert per * n <= MaxDatagram / n * n;
    }
  }
}
