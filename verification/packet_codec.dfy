/**
 * The data plane's packets: the tester header, IPv4/UDP headers with their
 * checksum, and GTP-U (tester/dataplane/packet.go; TS 29.281 sections 5.1 and
 * 5.2.1, RFC 791 section 3.1, RFC 1071).
 */
module PacketCodec {
  import opened Basics

  type Byte = b: int | 0 <= b < 0x100

  // --------------------------------------------------------- big endian

  function Pow256(k: nat): (p: int)
    ensures p > 0
  {
    if k == 0 then 1 else 256 * Pow256(k - 1)
  }

  /** n in k bytes, most significant first; what does not fit is cut off. */
  function Be(n: nat, k: nat): (s: seq<Byte>)
    ensures |s| == k
    decreases k
  {
    if k == 0 then [] else Be(n / 256, k - 1) + [n % 256]
  }

  function Val(s: seq<Byte>): (n: nat)
    ensures n < Pow256(|s|)
  {
    if s == [] then 0 else Val(s[..|s| - 1]) * 256 + s[|s| - 1]
  }

  lemma {:induction false} ValBe(n: nat, k: nat)
    requires n < Pow256(k)
    ensures Val(Be(n, k)) == n
    decreases k
  {
    if k > 0 {
      ValBe(n / 256, k - 1);
      assert Be(n, k)[..k - 1] == Be(n / 256, k - 1);
    }
  }

  lemma OneMore(v: nat, x: Byte, k: nat)
    ensures Be(v * 256 + x, k + 1) == Be(v, k) + [x]
  {
    assert (v * 256 + x) / 256 == v && (v * 256 + x) % 256 == x;
  }

  lemma {:induction false} BeVal(s: seq<Byte>)
    ensures Be(Val(s), |s|) == s
  {
    hide Be;
    if s == [] {
      NoBytes(0);
    } else {
      var front := s[..|s| - 1];
      BeVal(front);
      OneMore(Val(front), s[|s| - 1], |front|);
      assert s == front + [s[|s| - 1]];
    }
  }

  lemma NoBytes(n: nat)
    ensures Be(n, 0) == []
  {
  }

  lemma Sizes()
    ensures Pow256(2) == 0x1_0000 && Pow256(4) == 0x1_0000_0000 && Pow256(8) == 0x1_0000_0000_0000_0000
  {
    assert Pow256(1) == 256 && Pow256(2) == 0x1_0000 && Pow256(3) == 0x100_0000 && Pow256(4) == 0x1_0000_0000;
    assert Pow256(5) == 0x100_0000_0000 && Pow256(6) == 0x1_0000_0000_0000 && Pow256(7) == 0x100_0000_0000_0000;
  }

  // --------------------------------------------------- the tester header

  const HeaderLen := 24
  const Two31 := 0x8000_0000
  const Two63 := 0x8000_0000_0000_0000
  const Two64 := 0x1_0000_0000_0000_0000

  function Magic(): seq<Byte> { [0x46, 0x52, 0x55, 0x54] }

  datatype Header = Header(runID: nat, ue: nat, dl: bool, seqNo: nat, txNanos: int) {
    /** The Go types: three uint32, an int64. */
    predicate Fits() { runID < Two32 && ue < Two32 && seqNo < Two32 && -Two63 <= txNanos < Two63 }
  }

  /** ue | dlFlag: the flag is the top bit. */
  function WithFlag(ue: nat, dl: bool): nat { if dl && ue < Two31 then ue + Two31 else ue }

  /** An int64 as the uint64 with the same bits. */
  function Unsigned(x: int): nat
    requires -Two63 <= x < Two63
  {
    if x < 0 then x + Two64 else x
  }

  function Signed(n: nat): int
    requires n < Two64
  {
    if n < Two63 then n else n - Two64
  }

  /** putHeader's 24 bytes. */
  function HeaderBytes(h: Header): (s: seq<Byte>)
    requires h.Fits()
    ensures |s| == HeaderLen
  {
    Magic() + Be(h.runID, 4) + Be(WithFlag(h.ue, h.dl), 4) + Be(h.seqNo, 4) + Be(Unsigned(h.txNanos), 8)
  }

  function ParseHeader(b: seq<Byte>): Option<Header> {
    if |b| < HeaderLen || b[..4] != Magic() then None
    else
      Sizes();
      var v := Val(b[8..12]);
      Some(Header(Val(b[4..8]), v % Two31, v >= Two31, Val(b[12..16]), Signed(Val(b[16..24]))))
  }

  lemma HeaderFields(h: Header, rest: seq<Byte>)
    requires h.Fits()
    ensures var b := HeaderBytes(h) + rest;
            b[..4] == Magic() && b[4..8] == Be(h.runID, 4) && b[8..12] == Be(WithFlag(h.ue, h.dl), 4)
            && b[12..16] == Be(h.seqNo, 4) && b[16..24] == Be(Unsigned(h.txNanos), 8)
  {
    hide Be, WithFlag, Unsigned;
  }

  lemma FlagSplits(ue: nat, dl: bool)
    requires ue < Two32
    ensures WithFlag(ue, dl) < Two32
    ensures WithFlag(ue, dl) % Two31 == ue && (WithFlag(ue, dl) >= Two31 <==> dl) <==> ue < Two31
  {
  }

  lemma SignedUnsigned(x: int)
    requires -Two63 <= x < Two63
    ensures Unsigned(x) < Two64 && Signed(Unsigned(x)) == x
  {
  }

  /** The fields parseHeader reads off a written header. */
  lemma HeaderRead(h: Header, rest: seq<Byte>)
    requires h.Fits()
    ensures ParseHeader(HeaderBytes(h) + rest) ==
            Some(Header(h.runID, WithFlag(h.ue, h.dl) % Two31, WithFlag(h.ue, h.dl) >= Two31, h.seqNo, h.txNanos))
  {
    Sizes();
    HeaderFields(h, rest);
    FlagSplits(h.ue, h.dl);
    SignedUnsigned(h.txNanos);
    ValBe(h.runID, 4);
    ValBe(WithFlag(h.ue, h.dl), 4);
    ValBe(h.seqNo, 4);
    ValBe(Unsigned(h.txNanos), 8);
    hide Be, Val, HeaderBytes, Pow256, WithFlag, Unsigned, Signed;
  }

  /**
   * What putHeader writes, parseHeader reads back, whatever follows: for every UE index below 2^31, and only for
   * those, since the top bit of the field marks downlink.
   */
  lemma HeaderRoundTrip(h: Header, rest: seq<Byte>)
    requires h.Fits()
    ensures ParseHeader(HeaderBytes(h) + rest) == Some(h) <==> h.ue < Two31
  {
    HeaderRead(h, rest);
    FlagSplits(h.ue, h.dl);
    hide ParseHeader, HeaderBytes, WithFlag;
  }

  lemma FlagJoins(v: nat)
    requires v < Two32
    ensures WithFlag(v % Two31, v >= Two31) == v
  {
  }

  lemma UnsignedSigned(n: nat)
    requires n < Two64
    ensures -Two63 <= Signed(n) < Two63 && Unsigned(Signed(n)) == n
  {
  }

  /** The fields of a parsed header, as numbers. */
  lemma HeaderIs(b: seq<Byte>)
    requires ParseHeader(b).Some?
    ensures |b| >= HeaderLen && b[..4] == Magic() && Val(b[4..8]) < Two32 && Val(b[8..12]) < Two32
            && Val(b[12..16]) < Two32 && Val(b[16..24]) < Two64
    ensures ParseHeader(b).value
            == Header(Val(b[4..8]), Val(b[8..12]) % Two31, Val(b[8..12]) >= Two31, Val(b[12..16]),
                Signed(Val(b[16..24])))
  {
    Sizes();
    hide Pow256, Signed;
  }

  lemma Fields(b: seq<Byte>)
    requires |b| >= 24
    ensures b[..24] == b[..4] + b[4..8] + b[8..12] + b[12..16] + b[16..24]
  {
    assert b[..24] == b[..16] + b[16..24] && b[..16] == b[..12] + b[12..16];
    assert b[..12] == b[..8] + b[8..12] && b[..8] == b[..4] + b[4..8];
  }

  /** The other way round: whatever parses is what putHeader would have written. */
  lemma HeaderParsed(b: seq<Byte>)
    requires ParseHeader(b).Some?
    ensures var h := ParseHeader(b).value; h.Fits() && h.ue < Two31 && HeaderBytes(h) == b[..HeaderLen]
  {
    hide Be, Val, Pow256, WithFlag, Unsigned, Signed, ParseHeader;
    HeaderIs(b);
    var run, v, no, tx := b[4..8], b[8..12], b[12..16], b[16..24];
    BeVal(run);
    BeVal(v);
    BeVal(no);
    BeVal(tx);
    FlagJoins(Val(v));
    UnsignedSigned(Val(tx));
    Fields(b);
  }
}
