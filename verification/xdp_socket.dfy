/**
 * An AF_XDP socket (tester/xdp/socket.go): UMEM frames going round between the
 * program and the kernel over four rings. The kernel may act between any two of
 * the program's accesses; it only takes what was published and gives back what it took.
 */
module XdpSocket {
  import opened XdpRing

  const FrameSize: nat := 2048
  const NumFrames: nat := 4096
  const RxFrames: nat := NumFrames / 2

  function Frame(i: int): int { i * FrameSize }

  function Frames(lo: nat, n: nat): seq<int> { seq(n, i => Frame(lo + i)) }

  /** addr &^ (FrameSize - 1). */
  function Base(addr: int): int { addr / FrameSize * FrameSize }

  lemma BaseOfFrame(i: int, off: int)
    requires 0 <= off < FrameSize
    ensures Base(Frame(i) + off) == Frame(i)
  {
    assert (i * FrameSize + off) / FrameSize == i;
  }

  /** The frames of a range are distinct. */
  lemma {:induction false} FramesOnce(lo: nat, n: nat, f: int)
    requires f in Frames(lo, n)
    ensures multiset(Frames(lo, n))[f] == 1
    decreases n
  {
    var last := Frame(lo + n - 1);
    var front := Frames(lo, n - 1);
    assert Frames(lo, n) == front + [last];
    if f == last {
      forall i | 0 <= i < |front| ensures front[i] != last {
        assert front[i] == Frame(lo + i);
      }
      assert f !in front;
    } else {
      FramesOnce(lo, n - 1, f);
    }
  }

  function Addrs(s: seq<Desc>): (r: seq<int>)
    ensures |r| == |s|
  {
    seq(|s|, i requires 0 <= i < |s| => s[i].addr)
  }

  function Bases(s: seq<Desc>): (r: seq<int>)
    ensures |r| == |s|
  {
    seq(|s|, i requires 0 <= i < |s| => Base(s[i].addr))
  }

  lemma AddrsParts(s: seq<Desc>, t: seq<Desc>)
    ensures Addrs(s + t) == Addrs(s) + Addrs(t) && Bases(s + t) == Bases(s) + Bases(t)
  {
  }

  lemma OneAddr(d: Desc)
    ensures Addrs([d]) == [d.addr] && Bases([d]) == [Base(d.addr)]
  {
  }

  lemma AddrsFrom(s: seq<Desc>, n: nat)
    requires n <= |s|
    ensures Addrs(s[n..]) == Addrs(s)[n..] && Bases(s[n..]) == Bases(s)[n..] && Addrs(s[..n]) == Addrs(s)[..n]
            && Bases(s[..n]) == Bases(s)[..n]
  {
  }

  // ------------------------------------------------------------- receiving

  /** Where the receive frames are. */
  ghost function RxAll(fill: seq<int>, kernel: seq<int>, rx: seq<int>, handling: seq<int>): multiset<int> {
    multiset(fill) + multiset(kernel) + multiset(rx) + multiset(handling)
  }

  lemma RxSizes(fill: seq<int>, kernel: seq<int>, rx: seq<int>, handling: seq<int>, all: seq<int>)
    requires RxAll(fill, kernel, rx, handling) == multiset(all)
    ensures |fill| + |kernel| + |rx| + |handling| == |all|
    ensures forall f :: f in kernel ==> f in all
    ensures forall f :: f in rx ==> f in all
  {
    assert |multiset(all)| == |all|;
    assert |RxAll(fill, kernel, rx, handling)| == |multiset(fill)| + |multiset(kernel)| + |multiset(rx)|
        + |multiset(handling)|;
    forall f | f in kernel ensures f in all {
      assert f in multiset(kernel) && f in multiset(all);
    }
    forall f | f in rx ensures f in all {
      assert f in multiset(rx) && f in multiset(all);
    }
  }

  lemma Moved(s: seq<int>, n: nat)
    requires n <= |s|
    ensures multiset(s[..n]) + multiset(s[n..]) == multiset(s)
  {
    assert s[..n] + s[n..] == s;
  }

  lemma Dropped(s: seq<int>, k: nat)
    requires k < |s|
    ensures multiset(s[..k] + s[k + 1..]) + multiset{s[k]} == multiset(s)
  {
    assert s == s[..k] + [s[k]] + s[k + 1..];
  }

  /** The kernel takes a frame off the fill ring. */
  lemma RxTake(fill: seq<int>, kernel: seq<int>, rx: seq<int>, handling: seq<int>)
    requires fill != []
    ensures RxAll(fill[1..], kernel + [fill[0]], rx, handling) == RxAll(fill, kernel, rx, handling)
  {
    Moved(fill, 1);
    assert fill[..1] == [fill[0]];
  }

  /** The kernel puts a received frame on the rx ring. */
  lemma RxGive(fill: seq<int>, kernel: seq<int>, rx: seq<int>, handling: seq<int>, k: nat)
    requires k < |kernel|
    ensures RxAll(fill, kernel[..k] + kernel[k + 1..], rx + [kernel[k]], handling) == RxAll(fill, kernel, rx, handling)
  {
    Dropped(kernel, k);
  }

  lemma RxHandled(fill: seq<int>, kernel: seq<int>, rx: seq<int>, n: nat)
    requires n <= |rx|
    ensures RxAll(fill, kernel, rx[n..], rx[..n]) == RxAll(fill, kernel, rx, [])
  {
    Moved(rx, n);
  }

  lemma RxReturned(fill: seq<int>, kernel: seq<int>, rx: seq<int>, handling: seq<int>)
    ensures RxAll(fill + handling, kernel, rx, []) == RxAll(fill, kernel, rx, handling)
  {
  }

  lemma RxStart()
    ensures RxAll(Frames(0, RxFrames), [], Bases([]), []) == multiset(Frames(0, RxFrames))
  {
  }

  /** A packet lies within one frame. */
  predicate InFrame(d: Desc) { 0 <= d.len && d.addr % FrameSize + d.len <= FrameSize }

  class RxSide {
    const rx: Ring
    const fill: Ring
    var kernel: seq<int>
    ghost var handling: seq<int>
    ghost var produced: seq<Desc>    // all descriptors the kernel has put on the rx ring
    ghost var handled: seq<Desc>     // all descriptors handed to handle

    /** Each receive frame is in exactly one of the fill ring, the kernel, the rx ring and Receive's hands. */
    ghost predicate Valid()
      reads this, rx, fill, rx.slots, fill.slots
    {
      && rx != fill && rx.slots != fill.slots && rx.Valid() && fill.Valid() && rx.staged == []
      && RxAll(Addrs(fill.pending), kernel, Bases(rx.pending), handling) == multiset(Frames(0, RxFrames))
      && (forall k :: 0 <= k < |rx.pending| ==> InFrame(rx.pending[k]))
      && produced == handled + rx.pending
    }

    lemma Sizes()
      requires Valid()
      ensures |fill.pending| + |kernel| + |rx.pending| + |handling| == RxFrames
      ensures forall a :: a in kernel ==> a in Frames(0, RxFrames)
    {
      RxSizes(Addrs(fill.pending), kernel, Bases(rx.pending), handling, Frames(0, RxFrames));
    }

    /** Whatever steps interleave, a receive frame is in one place, once. */
    lemma OnePlace(f: int)
      requires Valid() && f in Frames(0, RxFrames)
      ensures multiset(Addrs(fill.pending))[f] + multiset(kernel)[f] + multiset(Bases(rx.pending))[f]
              + multiset(handling)[f] == 1
    {
      FramesOnce(0, RxFrames, f);
      assert RxAll(Addrs(fill.pending), kernel, Bases(rx.pending), handling)[f] == 1;
    }

    /** The receive half of open: the kernel gets every receive frame. */
    constructor (rxIndex: nat, fillIndex: nat)
      requires rxIndex < Wrap && fillIndex < Wrap
      ensures Valid() && handling == [] && fill.staged == [] && kernel == []
              && Addrs(fill.pending) == Frames(0, RxFrames)
    {
      hide Ring.Valid, RxAll;
      var r := new Ring(rxIndex);
      var f := new Ring(fillIndex);
      for i := 0 to RxFrames
        invariant f.Valid() && f.pending == [] && Addrs(f.staged) == Frames(0, i)
        invariant r.Valid() && r.pending == [] && r.staged == [] && r != f && r.slots != f.slots && fresh(f)
                && fresh(f.slots)
        modifies f, f.slots
      {
        AddrsParts(f.staged, [Desc(Frame(i), 0)]);
        f.Put(i, Desc(Frame(i), 0));
      }
      assert f.pending + f.staged == f.staged;
      f.Publish(RxFrames);
      RxStart();
      rx, fill, kernel := r, f, [];
      handling, produced, handled := [], [], [];
    }

    /** Anything the kernel may do meanwhile. */
    method Kernel()
      requires Valid()
      modifies this`kernel, this`produced, rx, rx.slots, fill`consumer, fill`pending
      ensures Valid()
      ensures old(rx.pending) <= rx.pending && handled == old(handled)
      ensures |fill.pending| <= |old(fill.pending)|
    {
      var steps: int := *;
      while steps > 0
        invariant Valid()
        invariant old(rx.pending) <= rx.pending && |fill.pending| <= |old(fill.pending)|
      {
        if * {
          KernelTakes();
        } else {
          KernelGives();
        }
        steps := steps - 1;
      }
    }

    method KernelTakes()
      requires Valid()
      modifies this`kernel, fill`consumer, fill`pending
      ensures Valid() && |fill.pending| <= |old(fill.pending)|
    {
      var n := fill.Count();
      if n > 0 {
        RxTake(Addrs(fill.pending), kernel, Bases(rx.pending), handling);
        AddrsFrom(fill.pending, 1);
        var d := fill.Get(0);
        fill.Advance(1);
        kernel := kernel + [d.addr];
      }
    }

    method KernelGives()
      requires Valid()
      modifies this`kernel, this`produced, rx, rx.slots
      ensures Valid() && old(rx.pending) <= rx.pending
    {
      hide Ring.Valid, RxAll, Frames, InFrame, Base, Addrs, Bases;
      var k: int, off: int, len: int := *, *, *;
      if 0 <= k < |kernel| && 0 <= off < FrameSize && 0 <= len && off + len <= FrameSize {
        ghost var a := kernel[k];
        Sizes();
        RxGive(Addrs(fill.pending), kernel, Bases(rx.pending), handling, k);
        assert a in kernel;
        var d := Desc(kernel[k] + off, len);
        FilledFrame(a, off, len);
        AddrsParts(rx.pending, [d]);
        rx.Produce(d);
        kernel := kernel[..k] + kernel[k + 1..];
        produced := produced + [d];
      }
    }

    /**
     * Receive hands over the frames waiting on the rx ring, in the order the kernel put them there, each once,
     * and gives every one of them back. Its writes to the fill ring never overwrite a pending entry.
     */
    method Receive() returns (frames: seq<Desc>)
      requires Valid() && handling == [] && fill.staged == []
      modifies this, rx, rx.slots, fill, fill.slots
      ensures Valid() && handling == [] && fill.staged == []
      ensures old(rx.pending) <= frames && handled == old(handled) + frames
      ensures forall k :: 0 <= k < |frames| ==> InFrame(frames[k])
    {
      hide RxAll, Frames, Ring.Valid, InFrame, Base, Addrs, Bases;
      Kernel();
      var n := rx.Count();
      ghost var start := rx.pending;
      frames := [];
      if n == 0 {
        return;
      }
      Kernel();
      for i := 0 to n
        invariant Valid() && handling == [] && handled == old(handled)
        invariant start <= rx.pending && |start| == n && frames == start[..i]
        invariant Addrs(fill.staged) == Bases(frames)
      {
        var d := HandleOne(i);
        AddrsParts(frames, [d]);
        OneAddr(d);
        frames := frames + [d];
      }
      GiveBack(frames);
    }

    /** One turn of Receive's loop: the frame's base goes to the fill ring's next slot, still unpublished. */
    method HandleOne(i: nat) returns (d: Desc)
      requires Valid() && handling == [] && i < |rx.pending| && |fill.staged| == i
      modifies this`kernel, this`produced, rx, rx.slots, fill`consumer, fill`pending, fill.slots, fill`staged
      ensures Valid() && handled == old(handled)
      ensures old(rx.pending) <= rx.pending && d == rx.pending[i]
      ensures Addrs(fill.staged) == old(Addrs(fill.staged)) + [Base(d.addr)]
    {
      hide RxAll, Frames, Ring.Valid, InFrame, Base, Addrs, Bases;
      d := rx.Get(i);
      Kernel();
      Sizes();
      var e := Desc(Base(d.addr), 0);
      AddrsParts(fill.staged, [e]);
      OneAddr(e);
      fill.Put(i, e);
      Kernel();
    }

    /** The end of Receive: the rx entries are consumed, then the frames published on the fill ring. */
    method GiveBack(frames: seq<Desc>)
      requires Valid() && handling == [] && frames <= rx.pending && Addrs(fill.staged) == Bases(frames)
      modifies this, rx, rx.slots, fill
      ensures Valid() && handling == [] && fill.staged == [] && handled == old(handled) + frames
    {
      hide RxAll, Frames, Ring.Valid, InFrame, Base, Addrs, Bases;
      var n := |frames|;
      RxHandled(Addrs(fill.pending), kernel, Bases(rx.pending), n);
      AddrsFrom(rx.pending, n);
      assert rx.pending[..n] == frames;
      assert rx.pending == frames + rx.pending[n..];
      rx.Advance(n);
      handling := Bases(frames);
      handled := handled + frames;
      Kernel();
      RxReturned(Addrs(fill.pending), kernel, Bases(rx.pending), handling);
      AddrsParts(fill.pending, fill.staged);
      fill.Publish(n);
      handling := [];
      Kernel();
    }
  }

  lemma FrameOf(a: int, off: int)
    requires a in Frames(0, RxFrames) && 0 <= off < FrameSize
    ensures Base(a + off) == a && (a + off) % FrameSize == off
  {
    var i :| 0 <= i < RxFrames && Frames(0, RxFrames)[i] == a;
    BaseOfFrame(i, off);
  }

  /** A packet within a frame is found in that frame. */
  lemma FilledFrame(a: int, off: int, len: int)
    requires a in Frames(0, RxFrames) && 0 <= off && 0 <= len && off + len <= FrameSize && off < FrameSize
    ensures InFrame(Desc(a + off, len)) && Addrs([Desc(a + off, len)]) == [a + off]
            && Bases([Desc(a + off, len)]) == [a]
  {
    FrameOf(a, off);
    OneAddr(Desc(a + off, len));
    hide Frames, Base;
  }

  // ------------------------------------------------------------- sending

  /**
   * Where the transmit frames are: free, written but not flushed, on the tx ring, with the kernel, on
   * the completion ring.
   */
  ghost function TxAll(free: seq<int>, staged: seq<int>, tx: seq<int>, kernel: seq<int>,
          comp: seq<int>): multiset<int> {
    multiset(free) + multiset(staged) + multiset(tx) + multiset(kernel) + multiset(comp)
  }

  lemma TxSizes(free: seq<int>, staged: seq<int>, tx: seq<int>, kernel: seq<int>, comp: seq<int>, all: seq<int>)
    requires TxAll(free, staged, tx, kernel, comp) == multiset(all)
    ensures |free| + |staged| + |tx| + |kernel| + |comp| == |all|
  {
    assert |multiset(all)| == |all|;
    assert |TxAll(free, staged, tx, kernel, comp)|
        == |multiset(free)| + |multiset(staged)| + |multiset(tx)| + |multiset(kernel)| + |multiset(comp)|;
  }

  lemma TxTake(free: seq<int>, staged: seq<int>, tx: seq<int>, kernel: seq<int>, comp: seq<int>)
    requires tx != []
    ensures TxAll(free, staged, tx[1..], kernel + [tx[0]], comp) == TxAll(free, staged, tx, kernel, comp)
  {
    Moved(tx, 1);
    assert tx[..1] == [tx[0]];
  }

  lemma TxComplete(free: seq<int>, staged: seq<int>, tx: seq<int>, kernel: seq<int>, comp: seq<int>, k: nat)
    requires k < |kernel|
    ensures TxAll(free, staged, tx, kernel[..k] + kernel[k + 1..], comp + [kernel[k]])
            == TxAll(free, staged, tx, kernel, comp)
  {
    Dropped(kernel, k);
  }

  lemma TxReap(free: seq<int>, staged: seq<int>, tx: seq<int>, kernel: seq<int>, comp: seq<int>)
    requires comp != []
    ensures TxAll(free + [comp[0]], staged, tx, kernel, comp[1..]) == TxAll(free, staged, tx, kernel, comp)
  {
    Moved(comp, 1);
    assert comp[..1] == [comp[0]];
  }

  lemma TxQueued(free: seq<int>, staged: seq<int>, tx: seq<int>, kernel: seq<int>, comp: seq<int>)
    requires free != []
    ensures TxAll(free[..|free| - 1], staged + [free[|free| - 1]], tx, kernel, comp)
            == TxAll(free, staged, tx, kernel, comp)
  {
    Moved(free, |free| - 1);
    assert free[|free| - 1..] == [free[|free| - 1]];
  }

  lemma TxFlushed(free: seq<int>, staged: seq<int>, tx: seq<int>, kernel: seq<int>, comp: seq<int>)
    ensures TxAll(free, [], tx + staged, kernel, comp) == TxAll(free, staged, tx, kernel, comp)
  {
  }

  class TxSide {
    const tx: Ring
    const comp: Ring
    var kernel: seq<int>
    var txFree: seq<int>
    var txQueue: nat
    ghost var reaped: nat            // completion entries reap has copied and not yet given back
    ghost var published: seq<Desc>   // all descriptors flushed
    ghost var taken: seq<Desc>       // all descriptors the kernel has taken

    /** Each transmit frame is in exactly one place, and the kernel takes what was flushed, in order. */
    ghost predicate Valid()
      reads this, tx, comp, tx.slots, comp.slots
    {
      && tx != comp && tx.slots != comp.slots && tx.Valid() && comp.Valid() && comp.staged == []
      && txQueue == |tx.staged| && reaped <= |comp.pending| && reaped <= |txFree|
      && TxAll(txFree, Addrs(tx.staged), Addrs(tx.pending), kernel, Addrs(comp.pending[reaped..]))
         == multiset(Frames(RxFrames, RxFrames))
      && published == taken + tx.pending
    }

    lemma Sizes()
      requires Valid()
      ensures |txFree| + |tx.staged| + |tx.pending| + |kernel| + |comp.pending| - reaped == RxFrames
    {
      TxSizes(txFree, Addrs(tx.staged), Addrs(tx.pending), kernel, Addrs(comp.pending[reaped..]),
          Frames(RxFrames, RxFrames));
    }

    /** Whatever steps interleave, a transmit frame is in one place, once. */
    lemma OnePlace(f: int)
      requires Valid() && f in Frames(RxFrames, RxFrames)
      ensures multiset(txFree)[f] + multiset(Addrs(tx.staged))[f] + multiset(Addrs(tx.pending))[f] + multiset(kernel)[f]
              + multiset(Addrs(comp.pending[reaped..]))[f] == 1
    {
      FramesOnce(RxFrames, RxFrames, f);
      assert TxAll(txFree, Addrs(tx.staged), Addrs(tx.pending), kernel, Addrs(comp.pending[reaped..]))[f] == 1;
    }

    /** The transmit half of open: every transmit frame is free. */
    constructor (txIndex: nat, compIndex: nat)
      requires txIndex < Wrap && compIndex < Wrap
      ensures Valid() && txFree == Frames(RxFrames, RxFrames) && txQueue == 0 && kernel == []
    {
      hide Ring.Valid;
      tx := new Ring(txIndex);
      comp := new Ring(compIndex);
      kernel, txFree, txQueue := [], Frames(RxFrames, RxFrames), 0;
      reaped, published, taken := 0, [], [];
    }

    method Kernel()
      requires Valid()
      modifies this`kernel, this`taken, comp, comp.slots, tx`consumer, tx`pending
      ensures Valid()
      ensures old(comp.pending) <= comp.pending && |tx.pending| <= |old(tx.pending)|
      ensures old(taken) <= taken
    {
      var steps: int := *;
      while steps > 0
        invariant Valid()
        invariant old(comp.pending) <= comp.pending && |tx.pending| <= |old(tx.pending)| && old(taken) <= taken
      {
        if * {
          KernelTakes();
        } else {
          KernelCompletes();
        }
        steps := steps - 1;
      }
    }

    method KernelTakes()
      requires Valid()
      modifies this`kernel, this`taken, tx`consumer, tx`pending
      ensures Valid() && |tx.pending| <= |old(tx.pending)| && old(taken) <= taken
    {
      hide TxAll, Ring.Valid, Frames;
      var n := tx.Count();
      if n > 0 {
        TxTake(txFree, Addrs(tx.staged), Addrs(tx.pending), kernel, Addrs(comp.pending[reaped..]));
        AddrsFrom(tx.pending, 1);
        var d := tx.Get(0);
        assert tx.pending == [d] + tx.pending[1..];
        tx.Advance(1);
        kernel := kernel + [d.addr];
        taken := taken + [d];
      }
    }

    method KernelCompletes()
      requires Valid()
      modifies this`kernel, comp, comp.slots
      ensures Valid() && old(comp.pending) <= comp.pending
    {
      var k: int := *;
      if 0 <= k < |kernel| {
        hide TxAll, Ring.Valid, Frames, Addrs;
        Sizes();
        var e := Desc(kernel[k], 0);
        TxComplete(txFree, Addrs(tx.staged), Addrs(tx.pending), kernel, Addrs(comp.pending[reaped..]), k);
        AddrsParts(comp.pending[reaped..], [e]);
        OneAddr(e);
        assert (comp.pending + [e])[reaped..] == comp.pending[reaped..] + [e];
        comp.Produce(e);
        kernel := kernel[..k] + kernel[k + 1..];
      }
    }

    /** reap takes back at least the frames whose completions were there when it was called, in order. */
    method Reap()
      requires Valid() && reaped == 0
      modifies this`kernel, this`taken, this`txFree, this`reaped, tx`consumer, tx`pending, comp, comp.slots
      ensures Valid() && reaped == 0 && old(taken) <= taken
      ensures old(txFree) + Addrs(old(comp.pending)) <= txFree
    {
      hide TxAll, Ring.Valid, Frames, Addrs;
      Kernel();
      var n := comp.Count();
      ghost var start, free := comp.pending, txFree;
      AddrsNone();
      assert start[..0] == [];
      for i := 0 to n
        invariant Valid() && reaped == i && old(taken) <= taken
        invariant start <= comp.pending && |start| == n && txFree == free + Addrs(start[..i])
      {
        ReapOne(i);
        AddrsParts(start[..i], [start[i]]);
        OneAddr(start[i]);
        assert start[..i] + [start[i]] == start[..i + 1];
      }
      assert comp.pending[n..][0..] == comp.pending[n..];
      comp.Advance(n);
      reaped := 0;
      assert start[..n] == start;
      AddrsParts(old(comp.pending), start[|old(comp.pending)|..]);
      assert start == old(comp.pending) + start[|old(comp.pending)|..];
      Kernel();
    }

    method ReapOne(i: nat)
      requires Valid() && reaped == i < |comp.pending|
      modifies this`kernel, this`taken, this`txFree, this`reaped, tx`consumer, tx`pending, comp, comp.slots
      ensures Valid() && reaped == i + 1 && old(taken) <= taken
      ensures old(comp.pending) <= comp.pending && txFree == old(txFree) + [old(comp.pending)[i].addr]
    {
      hide TxAll, Ring.Valid, Frames;
      var d := comp.Get(i);
      TxReap(txFree, Addrs(tx.staged), Addrs(tx.pending), kernel, Addrs(comp.pending[reaped..]));
      AddrsFrom(comp.pending[reaped..], 1);
      assert comp.pending[reaped..][1..] == comp.pending[reaped + 1..];
      txFree := txFree + [d.addr];
      reaped := reaped + 1;
      Kernel();
    }

    /**
     * Queue writes a frame of len bytes to a free buffer and stages it behind those not yet flushed. It fails only
     * when no buffer is free, even after reaping.
     */
    method Queue(len: nat) returns (ok: bool)
      requires Valid() && reaped == 0 && len <= FrameSize
      modifies this`kernel, this`taken, this`txFree, this`txQueue, this`reaped, tx, tx.slots, comp, comp.slots
      ensures Valid() && reaped == 0 && old(taken) <= taken && published == old(published)
      ensures !ok ==> txFree == [] && txQueue == old(txQueue) && tx.staged == old(tx.staged)
      ensures ok ==>
                txQueue == old(txQueue) + 1 && |tx.staged| == txQueue
                && tx.staged[..old(txQueue)] == old(tx.staged)
                && tx.staged[old(txQueue)].len == len
      ensures old(txFree) != [] || old(comp.pending) != [] ==> ok
    {
      hide TxAll, Ring.Valid, Frames, Addrs;
      if |txFree| == 0 {
        Reap();
        if |txFree| == 0 {
          return false;
        }
      }
      Kernel();
      var n := tx.Count();
      Sizes();
      // a free buffer already means room on the ring: the full-ring check of Queue in socket.go never fires
      assert txQueue + n < RingSize;
      var a := txFree[|txFree| - 1];
      TxQueued(txFree, Addrs(tx.staged), Addrs(tx.pending), kernel, Addrs(comp.pending[reaped..]));
      AddrsParts(tx.staged, [Desc(a, len)]);
      OneAddr(Desc(a, len));
      txFree := txFree[..|txFree| - 1];
      tx.Put(txQueue, Desc(a, len));
      txQueue := txQueue + 1;
      ok := true;
      Kernel();
    }

    /** Flush publishes everything queued since the last Flush, in order. */
    method Flush() returns (n: nat)
      requires Valid() && reaped == 0
      modifies this, tx, comp, comp.slots
      ensures Valid() && reaped == 0 && txQueue == 0 && n == old(txQueue) && tx.staged == []
      ensures published == old(published) + old(tx.staged) && old(taken) <= taken
      ensures old(txFree) <= txFree
    {
      hide TxAll, Ring.Valid, Frames, Addrs;
      n := txQueue;
      if n > 0 {
        TxFlushed(txFree, Addrs(tx.staged), Addrs(tx.pending), kernel, Addrs(comp.pending[reaped..]));
        AddrsParts(tx.pending, tx.staged);
        AddrsNone();
        published := published + tx.staged;
        tx.Publish(n);
        txQueue := 0;
      }
      Kernel();
      Reap();
    }
  }

  lemma AddrsNone()
    ensures Addrs([]) == [] && Bases([]) == []
  {
  }
}
