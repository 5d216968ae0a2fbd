/**
 * GTP-U encapsulation, and what a received G-PDU holds (tester/dataplane/packet.go; TS 29.281 sections
 * 5.1 and 5.2.1).
 */
module Gtpu {
  import opened Basics
  import opened PacketCodec
  import opened IpChecksum

  function Zeros(n: nat): (s: seq<Byte>)
    ensures |s| == n
  {
    seq(n, i => 0)
  }

  const UlHeadLen := 36

  /** The G-PDU, IP and UDP headers of one UE's uplink. */
  function UlHead(teid: nat, ue: nat, sink: nat, port: nat, size: nat): (s: seq<Byte>)
    requires size >= 28
    ensures |s| == UlHeadLen
  {
    [0x30, 0xff] + Be(size, 2) + Be(teid, 4) + Ipv4Udp(size, ue, sink, port, port)
  }

  /** ulTemplate: inner packets are of size bytes, all zero but for their headers. */
  function UlTemplate(teid: nat, ue: nat, sink: nat, port: nat, size: nat): (s: seq<Byte>)
    requires size >= 28
    ensures |s| == 8 + size
  {
    UlHead(teid, ue, sink, port, size) + Zeros(size - 28)
  }

  method NewUlTemplate(teid: nat, ue: nat, sink: nat, port: nat, size: nat) returns (b: array<Byte>)
    requires size >= 28
    ensures fresh(b) && b[..] == UlTemplate(teid, ue, sink, port, size)
  {
    hide Be, Checksum, IpHead;
    b := new Byte[8 + size](i => 0);
    assert b[..] == Zeros(8 + size);
    var gtp := [0x30, 0xff] + Be(size, 2) + Be(teid, 4);
    Copy(b, 0, gtp);
    assert b[..8] == gtp && b[36..] == Zeros(size - 28);
    PutIPv4UDPHeader(b, 8, size, ue, sink, port, port);
  }

  // ------------------------------------------------------------- parsing

  /** Extension header and IP header lengths count 4-byte words. */
  function Words(n: int): int { n * 4 }

  /** The offset behind the extension headers that start at off, the first of type next. */
  function SkipExts(b: seq<Byte>, off: nat, next: Byte): Option<nat>
    decreases |b| - off
  {
    if next == 0 then Some(off)
    else if |b| < off + 1 then None
    else
      var l := Words(b[off]);
      if l == 0 || |b| < off + l then None else SkipExts(b, off + l, b[off + l - 1])
  }

  /** The tunnel and the inner packet of a G-PDU. */
  function ParseGpdu(b: seq<Byte>): Option<(nat, seq<Byte>)> {
    if |b| < 8 || b[0] / 32 != 1 || b[1] != 0xff then None
    else
      var teid := Val(b[4..8]);
      if b[0] % 8 == 0 then Some((teid, b[8..]))
      else if |b| < 12 then None
      else if b[0] / 4 % 2 == 0 then Some((teid, b[12..]))
      else
        match SkipExts(b, 12, b[11])
        case None => None
        case Some(off) => if off <= |b| then Some((teid, b[off..])) else None
  }

  /** parseGpdu's loop; it never reads past the packet and always ends. */
  method ReadGpdu(b: seq<Byte>) returns (r: Option<(nat, seq<Byte>)>)
    ensures r == ParseGpdu(b)
  {
    if |b| < 8 || b[0] / 32 != 1 || b[1] != 0xff {
      return None;
    }
    var teid := Val(b[4..8]);
    var off := 8;
    if b[0] % 8 != 0 {
      if |b| < off + 4 {
        return None;
      }
      var next := b[off + 3];
      off := off + 4;
      while b[0] / 4 % 2 != 0 && next != 0
        invariant off <= |b|
        invariant b[0] / 4 % 2 != 0 ==> SkipExts(b, 12, b[11]) == SkipExts(b, off, next)
        invariant b[0] / 4 % 2 == 0 ==> off == 12
        decreases |b| - off
      {
        if |b| < off + 1 {
          return None;
        }
        var l := Words(b[off]);
        if l == 0 || |b| < off + l {
          return None;
        }
        next := b[off + l - 1];
        off := off + l;
      }
    }
    r := Some((teid, b[off..]));
  }

  function UdpPayload(ip: seq<Byte>): Option<seq<Byte>> {
    if |ip| < 20 || ip[0] / 16 != 4 || ip[9] != 17 then None
    else
      var ihl := Words(ip[0] % 16);
      if |ip| < ihl + 8 then None else Some(ip[ihl + 8..])
  }

  // ------------------------------------------------------- what encoders write

  /** An extension header of type kind: its length in words, its content, the type of the next one. */
  datatype Ext = Ext(kind: Byte, body: seq<Byte>) {
    predicate Fits() { kind != 0 && |body| % 4 == 2 && |body| + 2 <= 255 * 4 }

    function Length(): Byte
      requires Fits()
    {
      (|body| + 2) / 4
    }

    function Bytes(next: Byte): seq<Byte>
      requires Fits()
    {
      [Length()] + body + [next]
    }
  }

  function Kind(exts: seq<Ext>): Byte { if exts == [] then 0 else exts[0].kind }

  function Chain(exts: seq<Ext>): seq<Byte>
    requires forall k :: 0 <= k < |exts| ==> exts[k].Fits()
  {
    if exts == [] then []
    else exts[0].Bytes(Kind(exts[1..])) + Chain(exts[1..])
  }

  /** The E flag says the chain is there; with any flag the four optional bytes are. */
  datatype Options = Options(ext: bool, hasSeq: bool, hasPdu: bool, seqHi: Byte, seqLo: Byte, pdu: Byte, unused: Byte)
  {
    function Flags(): Byte { (if ext then 4 else 0) + (if hasSeq then 2 else 0) + (if hasPdu then 1 else 0) }
  }

  function Head(o: Options, len: nat, teid: nat): (h: seq<Byte>)
    ensures |h| == 8
  {
    [0x30 + o.Flags(), 0xff] + Be(len, 2) + Be(teid, 4)
  }

  function Gpdu(o: Options, len: nat, teid: nat, exts: seq<Ext>, inner: seq<Byte>): seq<Byte>
    requires forall k :: 0 <= k < |exts| ==> exts[k].Fits()
  {
    Head(o, len, teid)
    + (if o.Flags() == 0 then [] else [o.seqHi, o.seqLo, o.pdu, if o.ext then Kind(exts) else o.unused])
    + (if o.ext then Chain(exts) else [])
    + inner
  }

  lemma SkipOne(pre: seq<Byte>, e: Ext, next: Byte, rest: seq<Byte>)
    requires e.Fits()
    ensures var b := pre + e.Bytes(next) + rest;
            SkipExts(b, |pre|, e.kind) == SkipExts(b, |pre| + |e.Bytes(next)|, next)
  {
    var b := pre + e.Bytes(next) + rest;
    var l := Words(b[|pre|]);
    assert b[|pre|] == e.Length();
    assert l == |e.Bytes(next)|;
    assert b[|pre| + l - 1] == next;
  }

  lemma ChainIs(exts: seq<Ext>)
    requires forall k :: 0 <= k < |exts| ==> exts[k].Fits()
    ensures exts == [] ==> Chain(exts) == [] && Kind(exts) == 0
    ensures exts != [] ==>
              Chain(exts) == exts[0].Bytes(Kind(exts[1..])) + Chain(exts[1..])
              && Kind(exts) == exts[0].kind
  {
  }

  lemma {:induction false} ChainSkipped(pre: seq<Byte>, exts: seq<Ext>, rest: seq<Byte>)
    requires forall k :: 0 <= k < |exts| ==> exts[k].Fits()
    ensures SkipExts(pre + Chain(exts) + rest, |pre|, Kind(exts)) == Some(|pre| + |Chain(exts)|)
    decreases |exts|
  {
    hide Ext.Bytes, Ext.Fits, Chain, Kind, SkipExts;
    ChainIs(exts);
    if exts == [] {
      NoExts(pre + Chain(exts) + rest, |pre|);
    } else {
      var next, more := Kind(exts[1..]), Chain(exts[1..]);
      var first := exts[0].Bytes(next);
      SkipOne(pre, exts[0], next, more + rest);
      ChainSkipped(pre + first, exts[1..], rest);
      Regroup(pre, first, more, rest);
    }
  }

  lemma NoExts(b: seq<Byte>, off: nat)
    ensures SkipExts(b, off, 0) == Some(off)
  {
  }

  lemma Regroup(a: seq<Byte>, b: seq<Byte>, c: seq<Byte>, d: seq<Byte>)
    ensures a + (b + c) + d == a + b + (c + d) == (a + b) + c + d
  {
  }

  lemma HeadRead(o: Options, len: nat, teid: nat, rest: seq<Byte>)
    requires teid < Two32
    ensures var b := Head(o, len, teid) + rest;
            b[0] / 32 == 1 && b[1] == 0xff && Val(b[4..8]) == teid && b[8..] == rest
            && (b[0] % 8 == 0 <==> o.Flags() == 0) && (b[0] / 4 % 2 == 0 <==> !o.ext)
  {
    Sizes();
    ValBe(teid, 4);
    hide Be, Val;
    assert (Head(o, len, teid) + rest)[4..8] == Be(teid, 4);
  }

  /** Whatever options and whatever well-formed chain of extension headers come before it, the inner packet is found. */
  lemma GpduRoundTrip(o: Options, len: nat, teid: nat, exts: seq<Ext>, inner: seq<Byte>)
    requires teid < Two32 && forall k :: 0 <= k < |exts| ==> exts[k].Fits()
    ensures ParseGpdu(Gpdu(o, len, teid, exts, inner)) == Some((teid, inner))
  {
    hide Be, Val, Chain, Kind, SkipExts, Head, Ext.Fits;
    var b := Gpdu(o, len, teid, exts, inner);
    var head := Head(o, len, teid);
    if o.Flags() == 0 {
      HeadRead(o, len, teid, inner);
      assert b == head + inner;
    } else {
      var opt := [o.seqHi, o.seqLo, o.pdu, if o.ext then Kind(exts) else o.unused];
      var chain := if o.ext then Chain(exts) else [];
      HeadRead(o, len, teid, opt + chain + inner);
      assert b == head + (opt + chain + inner) == head + opt + chain + inner;
      assert b[12 + |chain|..] == inner;
      if o.ext {
        ChainSkipped(head + opt, exts, inner);
      }
    }
  }

  lemma UdpRoundTrip(total: nat, src: nat, dst: nat, sport: nat, dport: nat, payload: seq<Byte>)
    requires total >= 20
    ensures UdpPayload(Ipv4Udp(total, src, dst, sport, dport) + payload) == Some(payload)
  {
    hide Be, Checksum;
    var head := Ipv4Udp(total, src, dst, sport, dport);
    assert head[0] == 0x45 && head[9] == 17;
    assert (head + payload)[28..] == payload;
  }

  /**
   * A tester packet that comes back through the UPF: tunnel, UE, direction, sequence number and time
   * are what was sent.
   */
  lemma ReceivedIsSent(o: Options, len: nat, teid: nat, exts: seq<Ext>, total: nat, src: nat, dst: nat,
                       sport: nat, dport: nat,
                       h: Header, rest: seq<Byte>)
    requires teid < Two32 && total >= 20 && h.Fits() && h.ue < Two31 && forall k :: 0 <= k < |exts| ==> exts[k].Fits()
    ensures var inner := Ipv4Udp(total, src, dst, sport, dport) + (HeaderBytes(h) + rest);
            ParseGpdu(Gpdu(o, len, teid, exts, inner)) == Some((teid, inner))
            && UdpPayload(inner) == Some(HeaderBytes(h) + rest)
            && ParseHeader(HeaderBytes(h) + rest) == Some(h)
  {
    GpduRoundTrip(o, len, teid, exts, Ipv4Udp(total, src, dst, sport, dport) + (HeaderBytes(h) + rest));
    UdpRoundTrip(total, src, dst, sport, dport, HeaderBytes(h) + rest);
    HeaderRoundTrip(h, rest);
  }

  /** An uplink packet as the sender builds it: the template with the tester header in. */
  function UlPacket(head: seq<Byte>, h: Header, seg: nat): (s: seq<Byte>)
    requires h.Fits() && |head| + HeaderLen <= seg
    ensures |s| == seg
  {
    head + HeaderBytes(h) + Zeros(seg - |head| - HeaderLen)
  }

  /** It is the fresh template but for the tester header. */
  lemma UlPacketIsTemplate(teid: nat, ue: nat, sink: nat, port: nat, size: nat, h: Header)
    requires size >= 52 && h.Fits()
    ensures var t := UlTemplate(teid, ue, sink, port, size);
            UlPacket(UlHead(teid, ue, sink, port, size), h, 8 + size) == t[..UlHeadLen] + HeaderBytes(h)
                + t[UlHeadLen + HeaderLen..]
  {
    hide UlHead, HeaderBytes;
  }
}
