/** IPv4 and UDP headers and the header checksum, written in place (tester/dataplane/packet.go). */
module IpChecksum {
  import opened PacketCodec

  /** The sum of a header's 16-bit words. */
  function WordSum(h: seq<Byte>): (n: nat)
    requires |h| % 2 == 0
    ensures n <= |h| / 2 * 0xffff
  {
    if h == [] then 0 else h[0] * 256 + h[1] + WordSum(h[2..])
  }

  /** Carries folded back in until 16 bits are left. */
  function Fold(n: nat): nat {
    if n <= 0xffff then n else Fold(n / 0x1_0000 + n % 0x1_0000)
  }

  lemma {:induction false} FoldKeeps(n: nat)
    ensures Fold(n) <= 0xffff && Fold(n) % 0xffff == n % 0xffff && (n > 0 ==> Fold(n) > 0)
  {
    if n > 0xffff {
      var m := n / 0x1_0000 + n % 0x1_0000;
      FoldKeeps(m);
      assert n == m + n / 0x1_0000 * 0xffff;
      SameRemainder(m, n / 0x1_0000);
    }
  }

  lemma {:induction false} SameRemainder(m: nat, q: nat)
    ensures (m + q * 0xffff) % 0xffff == m % 0xffff
  {
    if q > 0 {
      SameRemainder(m, q - 1);
      assert m + q * 0xffff == (m + (q - 1) * 0xffff) + 0xffff;
    }
  }

  function Checksum(h: seq<Byte>): (c: nat)
    requires |h| % 2 == 0
  {
    FoldKeeps(WordSum(h));
    0xffff - Fold(WordSum(h))
  }

  /** ipChecksum's two loops. The sum of any header of up to 128 KB fits its 32 bits. */
  method ComputeChecksum(h: seq<Byte>) returns (c: nat)
    requires |h| % 2 == 0 && |h| <= 0x2_0000
    ensures c == Checksum(h)
  {
    var sum: nat := 0;
    var i := 0;
    while i < |h|
      invariant 0 <= i <= |h| && i % 2 == 0
      invariant sum + WordSum(h[i..]) == WordSum(h)
      invariant sum < 0x1_0000_0000
    {
      assert h[i..][2..] == h[i + 2..];
      var high: int, low: int := h[i], h[i + 1];
      sum := sum + high * 256 + low;
      i := i + 2;
    }
    assert h[i..] == [];
    while sum > 0xffff
      invariant Fold(sum) == Fold(WordSum(h))
    {
      sum := sum / 0x1_0000 + sum % 0x1_0000;
    }
    FoldKeeps(WordSum(h));
    c := 0xffff - sum;
  }

  /** A 20-byte header for a UDP packet, with checksum field c. */
  function IpHead(total: nat, src: nat, dst: nat, c: nat): (s: seq<Byte>)
    ensures |s| == 20
  {
    [0x45, 0] + Be(total, 2) + [0, 0, 0x40, 0, 64, 17] + Be(c, 2) + Be(src, 4) + Be(dst, 4)
  }

  lemma {:induction false} WordSumParts(a: seq<Byte>, b: seq<Byte>)
    requires |a| % 2 == 0 && |b| % 2 == 0
    ensures WordSum(a + b) == WordSum(a) + WordSum(b)
  {
    if a == [] {
      assert a + b == b;
    } else {
      assert (a + b)[2..] == a[2..] + b;
      WordSumParts(a[2..], b);
    }
  }

  lemma WordSumBe(c: nat)
    requires c <= 0xffff
    ensures WordSum(Be(c, 2)) == c
  {
    assert Be(c, 2) == Be(c / 256, 1) + [c % 256];
    assert Be(c / 256, 1) == [c / 256];
    assert Be(c, 2)[2..] == [];
  }

  lemma IpHeadSum(total: nat, src: nat, dst: nat, c: nat)
    requires c <= 0xffff
    ensures WordSum(IpHead(total, src, dst, c)) == WordSum(IpHead(total, src, dst, 0)) + c
  {
    WordSumBe(c);
    WordSumBe(0);
    AroundChecksum(total, src, dst, c);
    AroundChecksum(total, src, dst, 0);
  }

  lemma AroundChecksum(total: nat, src: nat, dst: nat, c: nat)
    ensures WordSum(IpHead(total, src, dst, c))
         == WordSum([0x45, 0] + Be(total, 2) + [0, 0, 0x40, 0, 64, 17]) + WordSum(Be(c, 2))
             + WordSum(Be(src, 4) + Be(dst, 4))
  {
    hide Be, WordSum;
    var front := [0x45, 0] + Be(total, 2) + [0, 0, 0x40, 0, 64, 17];
    var back := Be(src, 4) + Be(dst, 4);
    WordSumParts(front, Be(c, 2) + back);
    WordSumParts(Be(c, 2), back);
    assert IpHead(total, src, dst, c) == front + (Be(c, 2) + back);
  }

  function IpHeader(total: nat, src: nat, dst: nat): (s: seq<Byte>)
    ensures |s| == 20
  {
    IpHead(total, src, dst, Checksum(IpHead(total, src, dst, 0)))
  }

  /** A receiver's check: every written header sums to 0xffff. */
  lemma HeaderSumsToOnes(total: nat, src: nat, dst: nat)
    ensures Fold(WordSum(IpHeader(total, src, dst))) == 0xffff
  {
    var blank := IpHead(total, src, dst, 0);
    FoldKeeps(WordSum(blank));
    IpHeadSum(total, src, dst, Checksum(blank));
    hide IpHead, WordSum;
    ComplementSums(WordSum(blank));
  }

  /** Adding the complement of its folded sum makes any sum fold to all ones. */
  lemma ComplementSums(sum: nat)
    ensures Fold(sum) <= 0xffff && Fold(sum + (0xffff - Fold(sum))) == 0xffff
  {
    FoldKeeps(sum);
    var whole := sum + (0xffff - Fold(sum));
    FoldKeeps(whole);
    var q: nat := sum / 0xffff - Fold(sum) / 0xffff + 1;
    assert whole == 0 + q * 0xffff;
    SameRemainder(0, q);
    assert Fold(whole) % 0xffff == 0;
  }

  /** IPv4 and UDP headers of a packet of total bytes. */
  function Ipv4Udp(total: nat, src: nat, dst: nat, sport: nat, dport: nat): (s: seq<Byte>)
    requires total >= 20
    ensures |s| == 28
  {
    IpHeader(total, src, dst) + Be(sport, 2) + Be(dport, 2) + Be(total - 20, 2) + [0, 0]
  }

  /** copy(b[at:], s). */
  method Copy(b: array<Byte>, at: nat, s: seq<Byte>)
    requires at + |s| <= b.Length
    modifies b
    ensures b[..] == old(b[..at]) + s + old(b[at + |s|..])
  {
    for i := 0 to |s|
      invariant b[..] == old(b[..at]) + s[..i] + old(b[at + i..])
    {
      b[at + i] := s[i];
    }
    assert s[..|s|] == s;
  }

  /** putIPv4UDPHeader: the checksum field is zero while the checksum is computed over the bytes in place. */
  method PutIPv4UDPHeader(b: array<Byte>, at: nat, total: nat, src: nat, dst: nat, sport: nat, dport: nat)
    requires at + 28 <= b.Length && total >= 20
    modifies b
    ensures b[..] == old(b[..at]) + Ipv4Udp(total, src, dst, sport, dport) + old(b[at + 28..])
  {
    hide Be, Checksum, Fold;
    PutIpHeader(b, at, total, src, dst);
    var udp := Be(sport, 2) + Be(dport, 2) + Be(total - 20, 2) + [0, 0];
    ghost var head := IpHeader(total, src, dst);
    assert b[..at + 20] == old(b[..at]) + head;
    assert b[at + 28..] == old(b[at + 28..]);
    Copy(b, at + 20, udp);
    assert Ipv4Udp(total, src, dst, sport, dport) == head + udp;
  }

  method PutIpHeader(b: array<Byte>, at: nat, total: nat, src: nat, dst: nat)
    requires at + 20 <= b.Length
    modifies b
    ensures b[..] == old(b[..at]) + IpHeader(total, src, dst) + old(b[at + 20..])
  {
    hide Be, Checksum, Fold;
    ghost var before, after := b[..at], b[at + 20..];
    var blank := IpHead(total, src, dst, 0);
    Copy(b, at, blank);
    assert b[at..at + 20] == blank;
    var c := ComputeChecksum(b[at..at + 20]);
    assert b[..at + 10] == before + blank[..10] && b[at + 12..] == blank[12..] + after;
    Copy(b, at + 10, Be(c, 2));
    assert blank[..10] + Be(c, 2) + blank[12..] == IpHead(total, src, dst, c);
  }
}
