/** Counting the packets that come back (tester/dataplane/engine.go, rxCounter). */
module RxCounter {
  import opened Basics
  import opened PacketCodec
  import opened IpChecksum
  import opened Gtpu
  import opened PacketSender

  // ------------------------------------------------------- whose packet it is

  /** What receive reads of a flow: its gNB and the tunnel its downlink comes in. */
  datatype Tunnel = Tunnel(gnb: int, dlTeid: int)

  datatype Verdict = Foreign | Misrouted | Counted(header: Header)

  function Judge(runID: int, flows: seq<Option<Tunnel>>, payload: seq<Byte>, dl: bool, gnb: int, teid: int): Verdict {
    match ParseHeader(payload)
    case None => Foreign
    case Some(h) =>
      if h.runID != runID || h.dl != dl || h.ue >= |flows| || flows[h.ue].None? then Foreign
      else if dl && (teid != flows[h.ue].value.dlTeid || gnb != flows[h.ue].value.gnb) then Misrouted
      else Counted(h)
  }

  /** readN3: a downlink packet that arrived at gNB g. */
  function JudgeN3(runID: int, flows: seq<Option<Tunnel>>, b: seq<Byte>, g: int): Verdict {
    match ParseGpdu(b)
    case None => Foreign
    case Some(got) =>
      match UdpPayload(got.1)
      case None => Foreign
      case Some(payload) => Judge(runID, flows, payload, true, g, got.0)
  }

  /**
   * A packet this run sent to a UE with a flow is never taken for a foreign
   * one or for another UE's: it counts, with its own header, in its own
   * direction, and downlink only in the UE's tunnel at the UE's gNB.
   */
  lemma OwnPacket(flows: seq<Option<Tunnel>>, h: Header, rest: seq<Byte>, gnb: int, teid: int)
    requires h.Fits() && h.ue < |flows| <= Two31 && flows[h.ue].Some?
    ensures Judge(h.runID, flows, HeaderBytes(h) + rest, h.dl, gnb, teid)
            == if h.dl && Tunnel(gnb, teid) != flows[h.ue].value then Misrouted else Counted(h)
    ensures Judge(h.runID, flows, HeaderBytes(h) + rest, !h.dl, gnb, teid) == Foreign
  {
    HeaderRoundTrip(h, rest);
    hide ParseHeader, HeaderBytes;
  }

  /** The same for downlink as the UPF encapsulates it, whatever options and extension headers it puts in. */
  lemma OwnDownlink(flows: seq<Option<Tunnel>>, o: Options, len: nat, teid: nat, exts: seq<Ext>, total: nat,
                    src: nat, dst: nat, sport: nat, dport: nat, h: Header, rest: seq<Byte>, g: int)
    requires teid < Two32 && total >= 20 && forall k :: 0 <= k < |exts| ==> exts[k].Fits()
    requires h.Fits() && h.dl && h.ue < |flows| <= Two31 && flows[h.ue].Some?
    ensures var b := Gpdu(o, len, teid, exts, Ipv4Udp(total, src, dst, sport, dport) + (HeaderBytes(h) + rest));
            JudgeN3(h.runID, flows, b, g)
            == if Tunnel(g, teid) != flows[h.ue].value then Misrouted else Counted(h)
  {
    hide Judge, Gpdu, HeaderBytes, ParseGpdu, UdpPayload;
    ReceivedIsSent(o, len, teid, exts, total, src, dst, sport, dport, h, rest);
    OwnPacket(flows, h, rest, g, teid);
  }

  // ---------------------------------------------------- sequence numbers seen

  /** One packet's answer: its number, and whether it was counted as out of order. */
  datatype Answer = Answer(seqNo: int, late: bool)

  function Highest(done: seq<Answer>): (n: int)
    ensures n >= -1
    ensures forall k :: 0 <= k < |done| ==> done[k].seqNo <= n
  {
    if done == [] then -1
    else
      var n := Highest(done[..|done| - 1]);
      var a := done[|done| - 1].seqNo;
      if a > n then a else n
  }

  /** Out of order means: an earlier answer had this number or a higher one. */
  ghost predicate Right(done: seq<Answer>) {
    forall k :: 0 <= k < |done| ==> (done[k].late <==> done[k].seqNo <= Highest(done[..k]))
  }

  predicate Rising(done: seq<Answer>) { forall j, k :: 0 <= j < k < |done| ==> done[j].seqNo < done[k].seqNo }

  lemma {:induction false} HighestIs(done: seq<Answer>, n: int)
    requires forall k :: 0 <= k < |done| ==> done[k].seqNo < n
    requires n >= 0
    ensures Highest(done) < n
  {
    if done != [] {
      HighestIs(done[..|done| - 1], n);
    }
  }

  /** No packet is counted as out of order exactly when the numbers came in rising order. */
  lemma NoneLate(done: seq<Answer>)
    requires Right(done) && forall k :: 0 <= k < |done| ==> done[k].seqNo >= 0
    ensures (forall k :: 0 <= k < |done| ==> !done[k].late) <==> Rising(done)
  {
    if Rising(done) {
      forall k | 0 <= k < |done| ensures !done[k].late {
        HighestIs(done[..k], done[k].seqNo);
      }
    }
    if forall k :: 0 <= k < |done| ==> !done[k].late {
      forall j, k | 0 <= j < k < |done| ensures done[j].seqNo < done[k].seqNo {
        assert done[..k][j] == done[j];
      }
    }
  }

  lemma OneMoreAnswer(done: seq<Answer>, a: Answer)
    requires Right(done) && (a.late <==> a.seqNo <= Highest(done))
    ensures Right(done + [a])
    ensures Highest(done + [a]) == if a.late then Highest(done) else a.seqNo
  {
    var now := done + [a];
    assert now[..|done|] == done;
    forall k | 0 <= k < |done| ensures now[..k] == done[..k] {
    }
  }

  /** A flow's ulLast or dlLast, which several readers may see. */
  class LastSeen {
    var last: int
    ghost var done: seq<Answer>    // all readers' answers about it

    ghost predicate Valid()
      reads this
    {
      last == Highest(done) && Right(done)
    }

    constructor ()
      ensures Valid() && done == []
    {
      last, done := -1, [];
    }

    /** One atomic step that answers: a late packet's load, or a compare-and-swap that succeeds. */
    method Answered(seqNo: nat)
      requires Valid()
      modifies this
      ensures Valid() && done == old(done) + [Answer(seqNo, seqNo <= old(last))]
      ensures last == if seqNo <= old(last) then old(last) else seqNo
    {
      OneMoreAnswer(done, Answer(seqNo, seqNo <= last));
      done := done + [Answer(seqNo, seqNo <= last)];
      if seqNo > last {
        last := seqNo;
      }
    }

    /** What other readers do in the meantime: any number of their packets are answered. */
    method Others()
      requires Valid()
      modifies this
      ensures Valid() && old(done) <= done && old(last) <= last
    {
      var more: seq<nat> := *;
      for i := 0 to |more|
        invariant Valid() && old(done) <= done && old(last) <= last
      {
        Answered(more[i]);
      }
    }

    /**
     * receive's loop, with other readers at work before each of its atomic steps. It ends, since every failed swap
     * means a higher number; and it answers once, as of one moment in the order of all answers.
     */
    method See(seqNo: nat) returns (late: bool)
      requires Valid()
      modifies this
      ensures Valid() && old(done) < done && done[|done| - 1] == Answer(seqNo, late)
    {
      while true
        invariant Valid() && old(done) <= done
        decreases if last < seqNo then seqNo - last else 0
      {
        Others();
        var prev := last;
        if seqNo <= prev {
          Answered(seqNo);
          return true;
        }
        Others();
        if last == prev {
          Answered(seqNo);
          return false;
        }
      }
    }
  }

  // ------------------------------------------------------------- one reader

  class Reader {
    const runID: int
    const gnbs: nat
    const flows: seq<Option<Tunnel>>
    const ul: seq<LastSeen>
    const dl: seq<LastSeen>
    var acc: Counts
    var outOfOrder: nat
    var misrouted: nat
    var lat: seq<int>

    ghost predicate Valid()
      reads this, ul, dl
    {
      && |ul| == |dl| == |flows| && |acc.gnb| == gnbs
      && (forall u :: 0 <= u < |flows| && flows[u].Some? ==> 0 <= flows[u].value.gnb < gnbs)
      && (forall u :: 0 <= u < |flows| ==> ul[u].Valid() && dl[u].Valid())
    }

    constructor (runID: int, gnbs: nat, flows: seq<Option<Tunnel>>, ul: seq<LastSeen>, dl: seq<LastSeen>)
      requires |ul| == |dl| == |flows|
      requires forall u :: 0 <= u < |flows| && flows[u].Some? ==> 0 <= flows[u].value.gnb < gnbs
      requires forall u :: 0 <= u < |flows| ==> ul[u].Valid() && dl[u].Valid()
      ensures Valid() && this.runID == runID && this.flows == flows && this.ul == ul && this.dl == dl
      ensures acc == NoCounts(gnbs) && outOfOrder == 0 && misrouted == 0 && lat == []
    {
      this.runID, this.gnbs, this.flows, this.ul, this.dl := runID, gnbs, flows, ul, dl;
      acc, outOfOrder, misrouted, lat := NoCounts(gnbs), 0, 0, [];
    }

    /** The cell in which a packet's number is looked up. */
    function Cell(h: Header): LastSeen
      requires |ul| == |dl| && h.ue < |ul|
    {
      if h.dl then dl[h.ue] else ul[h.ue]
    }

    method Receive(payload: seq<Byte>, down: bool, ipLen: nat, gnb: int, teid: int, now: int)
      requires Valid()
      modifies this, ul, dl
      ensures Valid()
      ensures match Judge(runID, flows, payload, down, gnb, teid)
              case Foreign => unchanged(this, ul, dl)
              case Misrouted => unchanged(ul, dl) && misrouted == old(misrouted) + 1
                                && acc == old(acc) && outOfOrder == old(outOfOrder) && lat == old(lat)
              case Counted(h) =>
                acc == Added(old(acc), flows[h.ue].value.gnb, ipLen) && lat == old(lat) + [now - h.txNanos]
                && misrouted == old(misrouted) && old(Cell(h).done) < Cell(h).done
                && var a := Cell(h).done[|Cell(h).done| - 1];
                   a.seqNo == h.seqNo && outOfOrder == old(outOfOrder) + (if a.late then 1 else 0)
      ensures forall c :: (c in ul || c in dl) && c.done != old(c.done) ==>
                Judge(runID, flows, payload, down, gnb, teid).Counted?
                && c == Cell(Judge(runID, flows, payload, down, gnb, teid).header)
    {
      hide ParseHeader, Highest, Right, LastSeen.Valid;
      var parsed := ParseHeader(payload);
      if parsed.None? || parsed.value.runID != runID || parsed.value.dl != down || parsed.value.ue >= |flows| {
        return;
      }
      var h := parsed.value;
      var f := flows[h.ue];
      if f.None? {
        return;
      }
      if down && (teid != f.value.dlTeid || gnb != f.value.gnb) {
        misrouted := misrouted + 1;
        return;
      }
      acc := Added(acc, f.value.gnb, ipLen);
      lat := lat + [now - h.txNanos];
      var late := Cell(h).See(h.seqNo);
      if late {
        outOfOrder := outOfOrder + 1;
      }
    }
  }
}
