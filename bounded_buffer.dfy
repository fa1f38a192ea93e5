/** Value-level specification of the fixed-capacity, append-only buffers of the
    sound variation structures: a `count` field in front of an array of slots.
    `SoundActivationSequence` (capacity 8) and `ScoreSymbolList` (capacity 4)
    both follow it; their methods are proved against the functions below. */
module BoundedBuffer {

  /** The whole state of such a buffer: the `count` field and every slot of
      the array, including the stale slots at and beyond `count`.
      The capacity is the number of slots. */
  datatype Buffer<T> = Buffer(count: int, slots: seq<T>)

  /** The invariant every append and clear keeps: `0 <= count <= capacity`. */
  predicate Valid<T>(b: Buffer<T>)
  {
    0 <= b.count <= |b.slots|
  }

  /** The items a reader of the buffer sees: the first `count` slots. */
  function Contents<T>(b: Buffer<T>): seq<T>
    requires Valid(b)
  {
    b.slots[..b.count]
  }

  /** An append: write slot `count` and increment `count`, but only while
      `count` is below the capacity; a full buffer is left as it is. */
  function Add<T>(b: Buffer<T>, x: T): (r: Buffer<T>)
    requires Valid(b)
    ensures Valid(r) && |r.slots| == |b.slots|
    ensures b.count < |b.slots| ==> Contents(r) == Contents(b) + [x]
    ensures b.count == |b.slots| ==> r == b
  {
    if b.count < |b.slots| then
      var r := Buffer(b.count + 1, b.slots[b.count := x]);
      assert Contents(r) == Contents(b) + [x];
      r
    else
      b
  }

  /** Removing all items resets `count` and leaves the slots as they were. */
  function Clear<T>(b: Buffer<T>): (r: Buffer<T>)
    ensures Valid(r) && Contents(r) == []
    ensures r.slots == b.slots
  {
    Buffer(0, b.slots)
  }

  /** The buffer after appending each of `xs` in order. */
  function AddAll<T>(b: Buffer<T>, xs: seq<T>): (r: Buffer<T>)
    requires Valid(b)
    ensures Valid(r) && |r.slots| == |b.slots|
    ensures b.count <= r.count
    decreases |xs|
  {
    if xs == [] then b else AddAll(Add(b, xs[0]), xs[1..])
  }

  function Min(a: int, b: int): int
  {
    if a <= b then a else b
  }

  /** An append writes exactly slot `count` and no other slot. */
  lemma AddWritesOneSlot<T>(b: Buffer<T>, x: T, i: int)
    requires Valid(b) && b.count < |b.slots|
    requires 0 <= i < |b.slots|
    ensures Add(b, x).count == b.count + 1
    ensures Add(b, x).slots[i] == if i == b.count then x else b.slots[i]
  {
  }

  /** After any sequence of appends the buffer holds the old items followed by
      as many of the new ones as still fit, and `count` never passes the
      capacity. */
  lemma {:induction false} AddAllContents<T>(b: Buffer<T>, xs: seq<T>)
    requires Valid(b)
    ensures var n := Min(|xs|, |b.slots| - b.count);
      AddAll(b, xs).count == b.count + n &&
      Contents(AddAll(b, xs)) == Contents(b) + xs[..n]
    decreases |xs|
  {
    if xs != [] {
      var b' := Add(b, xs[0]);
      AddAllContents(b', xs[1..]);
      if b.count < |b.slots| {
        assert xs[..Min(|xs|, |b.slots| - b.count)]
            == [xs[0]] + xs[1..][..Min(|xs| - 1, |b.slots| - b'.count)];
      }
    }
  }

  /** Once the buffer is full, no sequence of appends changes any of its state. */
  lemma {:induction false} AddAllWhenFull<T>(b: Buffer<T>, xs: seq<T>)
    requires Valid(b) && b.count == |b.slots|
    ensures AddAll(b, xs) == b
    decreases |xs|
  {
    if xs != [] {
      AddAllWhenFull(Add(b, xs[0]), xs[1..]);
    }
  }

  /** Appends never touch the slots below the `count` they started from. */
  lemma AddAllKeepsPrefix<T>(b: Buffer<T>, xs: seq<T>, i: int)
    requires Valid(b) && 0 <= i < b.count
    ensures AddAll(b, xs).slots[i] == b.slots[i]
  {
    AddAllContents(b, xs);
    assert Contents(AddAll(b, xs))[i] == Contents(b)[i];
  }

  /** Clearing twice is clearing once. */
  lemma ClearIdempotent<T>(b: Buffer<T>)
    ensures Clear(Clear(b)) == Clear(b)
  {
  }

  /** A cleared buffer refilled with `xs` holds the first `capacity` of them,
      whatever it held before. */
  lemma ClearThenAddAll<T>(b: Buffer<T>, xs: seq<T>)
    ensures Contents(AddAll(Clear(b), xs)) == xs[..Min(|xs|, |b.slots|)]
  {
    AddAllContents(Clear(b), xs);
  }
}
