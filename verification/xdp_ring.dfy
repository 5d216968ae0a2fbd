/** One ring shared with the kernel (tester/xdp/socket.go): wrapping 32-bit indices into a fixed array of entries. */
module XdpRing {

  const RingSize: nat := 2048
  const Wrap: nat := 0x1_0000_0000

  /** An rx or tx descriptor; fill and completion entries are addresses only. */
  datatype Desc = Desc(addr: int, len: int)

  /** The slot of index i: i & mask, since the size is a power of two. */
  function Slot(i: nat): nat { i % RingSize }

  /** The slot k entries after index c. */
  function At(c: nat, k: nat): nat { Slot(c + k) }

  /** Subtraction of 32-bit indices. */
  function Minus(a: nat, b: nat): nat
    requires a < Wrap && b < Wrap
  {
    (a + Wrap - b) % Wrap
  }

  function Add(i: nat, n: nat): nat { (i + n) % Wrap }

  /** Wrapping an index does not change its slot. */
  lemma SlotWraps(i: nat)
    ensures Slot(i % Wrap) == Slot(i)
  {
    assert Wrap == 2097152 * RingSize;
    assert i == (i / Wrap) * Wrap + i % Wrap;
    assert i == (i / Wrap) * 2097152 * RingSize + i % Wrap;
    ModOfSum(i % Wrap, (i / Wrap) * 2097152);
  }

  lemma ModOfSum(x: nat, q: nat)
    ensures (q * RingSize + x) % RingSize == x % RingSize
  {
    if q > 0 {
      ModOfSum(x, q - 1);
      assert q * RingSize + x == ((q - 1) * RingSize + x) + RingSize;
    }
  }

  /** Fewer than RingSize apart, indices have slots of their own. */
  lemma SlotsApart(i: nat, j: nat)
    requires i < j < i + RingSize
    ensures Slot(i) != Slot(j)
  {
  }

  lemma Distinct(c: nat, at: nat)
    requires at < RingSize
    ensures forall j :: 0 <= j < at ==> At(c, j) != At(c, at)
  {
    forall j | 0 <= j < at ensures At(c, j) != At(c, at) {
      SlotsApart(c + j, c + at);
    }
  }

  lemma MinusAdd(c: nat, n: nat)
    requires c < Wrap && n < Wrap
    ensures Minus(Add(c, n), c) == n
  {
  }

  lemma AddAdd(i: nat, m: nat, n: nat)
    ensures Add(Add(i, m), n) == Add(i, m + n)
  {
  }

  /**
   * pending is what the producer has published and the consumer not yet taken; staged is what the producer
   * has written beyond its published index.
   */
  class Ring {
    const slots: array<Desc>
    var producer: nat
    var consumer: nat
    ghost var pending: seq<Desc>
    ghost var staged: seq<Desc>

    ghost predicate Valid()
      reads this, slots
    {
      && slots.Length == RingSize && producer < Wrap && consumer < Wrap
      && |pending| + |staged| <= RingSize
      && producer == Add(consumer, |pending|)
      && (forall k :: 0 <= k < |pending| + |staged| ==> slots[At(consumer, k)] == (pending + staged)[k])
    }

    /** A ring may be anywhere in its index range. */
    constructor (index: nat)
      requires index < Wrap
      ensures Valid() && fresh(slots) && pending == [] && staged == [] && producer == consumer == index
    {
      slots := new Desc[RingSize](_ => Desc(0, 0));
      producer, consumer := index, index;
      pending, staged := [], [];
    }

    /** The consumer reads entry k of those pending, at the wrapped index the code computes. */
    method Get(k: nat) returns (d: Desc)
      requires Valid() && k < |pending|
      ensures d == pending[k]
    {
      SlotWraps(consumer + k);
      assert (pending + staged)[k] == pending[k];
      assert slots[At(consumer, k)] == (pending + staged)[k];
      d := slots[Slot(Add(consumer, k))];
    }

    /** The producer writes its next entry; nothing pending is overwritten. */
    method Put(k: nat, d: Desc)
      requires Valid() && k == |staged| && |pending| + k < RingSize
      modifies slots, `staged
      ensures Valid() && staged == old(staged) + [d]
    {
      ghost var at := |pending| + k;
      ghost var was := pending + staged;
      SlotWraps(consumer + at);
      AddAdd(consumer, |pending|, k);
      var i := Slot(Add(producer, k));
      assert i == At(consumer, at);
      hide Add, Slot, At;
      Distinct(consumer, at);
      slots[i] := d;
      staged := staged + [d];
      assert pending + staged == was + [d];
    }

    /** The producer publishes what it has written. */
    method Publish(n: nat)
      requires Valid() && n == |staged|
      modifies `producer, `pending, `staged
      ensures Valid() && pending == old(pending + staged) && staged == []
    {
      AddAdd(consumer, |pending|, n);
      producer := Add(producer, n);
      pending, staged := pending + staged, [];
    }

    /** A producer that publishes each entry at once, as the kernel's side is seen. */
    method Produce(d: Desc)
      requires Valid() && staged == [] && |pending| < RingSize
      modifies slots, `producer, `pending, `staged
      ensures Valid() && staged == [] && pending == old(pending) + [d]
    {
      Put(0, d);
      assert staged == [d];
      Publish(1);
    }

    /** The consumer gives the first n entries' slots back. */
    method Advance(n: nat)
      requires Valid() && n <= |pending|
      modifies `consumer, `pending
      ensures Valid() && pending == old(pending)[n..]
    {
      AddAdd(consumer, n, |pending| - n);
      forall k | 0 <= k < |pending| + |staged| - n
        ensures slots[At(Add(consumer, n), k)] == (pending[n..] + staged)[k]
      {
        assert slots[At(consumer, n + k)] == (pending + staged)[n + k];
        SlotWraps(consumer + n + k);
        SlotWraps(Add(consumer, n) + k);
        AddAdd(consumer, n, k);
      }
      consumer := Add(consumer, n);
      pending := pending[n..];
    }

    /** producer - consumer in 32-bit arithmetic is the number of pending entries, wherever the indices have wrapped. */
    method Count() returns (n: nat)
      requires Valid()
      ensures n == |pending|
    {
      MinusAdd(consumer, |pending|);
      n := Minus(producer, consumer);
    }
  }
}
