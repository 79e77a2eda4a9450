/**
 * The single-producer/single-consumer message ring of `src/ring_buffer.rs`,
 * modelled sequentially: a fixed array of slots and two monotonically
 * increasing counters. The ghost field `contents` is the queue the two
 * counters delimit, oldest message first.
 */
module RingBuffers {
  import opened Wrappers

  class RingBuffer<T> {
    /** The slots; `None` stands for a slot that was never written (`MaybeUninit`). */
    const storage: array<Option<T>>
    /** The capacity, `storage.Length`, always positive. */
    const cap: nat
    /** Producer counter: the next message goes to slot `writeIndex % cap`. */
    var writeIndex: nat
    /** Consumer counter: the next message comes from slot `readIndex % cap`. */
    var readIndex: nat
    /** The queued messages, oldest first. */
    ghost var contents: seq<T>

    /** The ring invariant: `0 <= write - read <= cap`, and the live slots hold `contents` in order. */
    ghost predicate Valid()
      reads this, storage
    {
      && 0 < cap == storage.Length
      && readIndex <= writeIndex <= readIndex + cap
      && |contents| == writeIndex - readIndex
      && forall k :: 0 <= k < |contents| ==> storage[(readIndex + k) % cap] == Some(contents[k])
    }

    /** `RingBuffer::new`: callers must ask for a positive capacity (the source asserts it). */
    constructor (capacity: nat)
      requires capacity > 0
      ensures Valid() && fresh(storage)
      ensures cap == capacity && writeIndex == 0 && readIndex == 0 && contents == []
    {
      storage := new Option<T>[capacity](_ => None);
      cap := capacity;
      writeIndex, readIndex := 0, 0;
      contents := [];
    }

    /** The slot a counter value addresses; always inside the array. */
    function Slot(index: nat): (slot: nat)
      requires Valid()
      reads this, storage
      ensures slot < storage.Length
    {
      index % cap
    }

    /**
     * `try_send`: on a full ring hand the value back and change nothing;
     * otherwise append it at the back and advance only the write counter.
     */
    method TrySend(value: T) returns (r: Result<(), T>)
      requires Valid()
      modifies this, storage
      ensures Valid()
      ensures readIndex == old(readIndex)
      ensures old(|contents|) == cap ==>
                r == Err(value) && writeIndex == old(writeIndex) && contents == old(contents)
                && storage[..] == old(storage[..])
      ensures old(|contents|) < cap ==>
                r == Ok(()) && writeIndex == old(writeIndex) + 1 && contents == old(contents) + [value]
      ensures contents == AfterSend(old(contents), cap, value)
    {
      var read := readIndex;
      var write := writeIndex;
      if write - read == cap {
        return Err(value);
      }
      var index := Slot(write);
      storage[index] := Some(value);
      forall k | 0 <= k < |contents|
        ensures storage[(read + k) % cap] == Some(contents[k])
      {
        DistinctSlots(read + k, write, cap);
      }
      writeIndex := write + 1;
      contents := contents + [value];
      r := Ok(());
    }

    /**
     * `try_recv`: on an empty ring return `None` and change nothing;
     * otherwise return the oldest message and advance only the read counter.
     */
    method TryRecv() returns (r: Option<T>)
      requires Valid()
      modifies this
      ensures Valid()
      ensures writeIndex == old(writeIndex)
      ensures old(contents) == [] ==>
                r == None && readIndex == old(readIndex) && contents == old(contents)
      ensures old(contents) != [] ==>
                r == Some(old(contents)[0]) && readIndex == old(readIndex) + 1
                && contents == old(contents)[1..]
    {
      var read := readIndex;
      var write := writeIndex;
      if read == write {
        return None;
      }
      var index := Slot(read);
      var slot := storage[index];
      assert slot == Some(contents[0]);
      readIndex := read + 1;
      contents := contents[1..];
      return Some(slot.value);
    }

    /** `is_empty`: the counters are equal exactly when nothing is queued. */
    function IsEmpty(): (empty: bool)
      requires Valid()
      reads this, storage
      ensures empty <==> contents == []
    {
      readIndex == writeIndex
    }

    /** `is_full`: the counters are `cap` apart exactly when `cap` messages are queued. */
    function IsFull(): (full: bool)
      requires Valid()
      reads this, storage
      ensures full <==> |contents| == cap
    {
      writeIndex - readIndex == cap
    }
  }

  lemma {:induction false} MulAtLeast(k: int, m: int)
    requires k >= 1 && m >= 0
    ensures k * m >= m
    decreases k
  {
    if k > 1 {
      MulAtLeast(k - 1, m);
      assert k * m == (k - 1) * m + m;
    }
  }

  lemma MulSign(k: int, m: int)
    requires m >= 0
    ensures k >= 1 ==> k * m >= m
    ensures k <= -1 ==> k * m <= -m
  {
    if k >= 1 {
      MulAtLeast(k, m);
    } else if k <= -1 {
      MulAtLeast(-k, m);
      assert (-k) * m == -(k * m);
    }
  }

  /** Euclidean remainder is determined by any decomposition `x == q * m + r` with `0 <= r < m`. */
  lemma ModUnique(x: int, q: int, r: int, m: int)
    requires m > 0 && 0 <= r < m && x == q * m + r
    ensures x % m == r
  {
    var k := q - x / m;
    assert x == (x / m) * m + x % m;
    assert k * m == q * m - (x / m) * m;
    MulSign(k, m);
  }

  /** Two counters less than `cap` apart address different slots. */
  lemma DistinctSlots(a: nat, b: nat, cap: nat)
    requires 0 < cap && a < b < a + cap
    ensures a % cap != b % cap
  {
    var r, q := a % cap, a / cap;
    var d := b - a;
    if r + d < cap {
      ModUnique(b, q, r + d, cap);
    } else {
      assert b == (q + 1) * cap + (r + d - cap);
      ModUnique(b, q + 1, r + d - cap, cap);
    }
  }

  /** What one `try_send` does to the queue: append when there is room, nothing when full. */
  function AfterSend<T>(q: seq<T>, cap: nat, x: T): seq<T>
  {
    if |q| < cap then q + [x] else q
  }

  /** The queue after a run of `try_send` calls, in order. */
  function AfterSends<T>(q: seq<T>, cap: nat, xs: seq<T>): seq<T>
    decreases |xs|
  {
    if xs == [] then q else AfterSends(AfterSend(q, cap, xs[0]), cap, xs[1..])
  }

  /**
   * Capacity: a run of sends keeps exactly the first `cap - |q|` values, in
   * send order, and drops the rest (each of those sends failed).
   */
  lemma {:induction false} SendsKeepPrefix<T>(q: seq<T>, cap: nat, xs: seq<T>)
    requires |q| <= cap
    ensures AfterSends(q, cap, xs) == q + xs[..Min(|xs|, cap - |q|)]
    decreases |xs|
  {
    if xs != [] {
      var q' := AfterSend(q, cap, xs[0]);
      SendsKeepPrefix(q', cap, xs[1..]);
      if |q| < cap {
        assert q' + xs[1..][..Min(|xs| - 1, cap - |q'|)] == q + xs[..Min(|xs|, cap - |q|)];
      } else {
        assert q' == q;
      }
    }
  }

  /** FIFO and capacity together: an empty ring keeps the first `cap` values sent, and only those. */
  lemma EmptyRingKeepsFirstCap<T>(cap: nat, xs: seq<T>)
    ensures AfterSends([], cap, xs) == xs[..Min(|xs|, cap)]
    ensures |xs| <= cap ==> AfterSends([], cap, xs) == xs
  {
    SendsKeepPrefix([], cap, xs);
  }

  /**
   * FIFO: `|xs|` successful sends into an empty ring followed by `|xs|`
   * receives return the values in send order and leave the ring empty.
   */
  method SendThenReceive<T>(ring: RingBuffer<T>, xs: seq<T>) returns (ys: seq<T>)
    requires ring.Valid() && ring.contents == [] && |xs| <= ring.cap
    modifies ring, ring.storage
    ensures ring.Valid() && ring.contents == []
    ensures ys == xs
  {
    var i := 0;
    while i < |xs|
      invariant ring.Valid() && i <= |xs|
      invariant ring.contents == xs[..i]
    {
      var r := ring.TrySend(xs[i]);
      assert r == Ok(());
      assert xs[..i + 1] == xs[..i] + [xs[i]];
      i := i + 1;
    }
    ys := [];
    while |ys| < |xs|
      invariant ring.Valid() && |ys| <= |xs|
      invariant ring.contents == xs[|ys|..] && ys == xs[..|ys|]
    {
      var r := ring.TryRecv();
      ys := ys + [r.value];
    }
  }

  /**
   * Capacity: filling an empty ring with `cap` sends makes it full, the next
   * send fails and hands its value back, and one receive makes room for
   * exactly one more send.
   */
  method FillThenRefill<T>(ring: RingBuffer<T>, xs: seq<T>, y: T)
    returns (filled: seq<Result<(), T>>, rejected: Result<(), T>, oldest: Option<T>, accepted: Result<(), T>)
    requires ring.Valid() && ring.contents == [] && |xs| == ring.cap
    modifies ring, ring.storage
    ensures ring.Valid()
    ensures |filled| == |xs| && forall k :: 0 <= k < |filled| ==> filled[k] == Ok(())
    ensures rejected == Err(y) && oldest == Some(xs[0]) && accepted == Ok(())
    ensures ring.contents == xs[1..] + [y] && ring.IsFull()
  {
    filled := [];
    var i := 0;
    while i < |xs|
      invariant ring.Valid() && i <= |xs|
      invariant ring.contents == xs[..i]
      invariant |filled| == i && forall k :: 0 <= k < i ==> filled[k] == Ok(())
    {
      var r := ring.TrySend(xs[i]);
      filled := filled + [r];
      assert xs[..i + 1] == xs[..i] + [xs[i]];
      i := i + 1;
    }
    assert ring.contents == xs;
    rejected := ring.TrySend(y);
    oldest := ring.TryRecv();
    accepted := ring.TrySend(y);
  }
}
