/** The fixed-capacity single-producer/single-consumer FIFO of blocks (`Fifo<T>`
    in the processor header).

    The source keeps `Capacity` slots and lets a `juce::AbstractFifo` hand out the
    read and write positions. That class is not part of this model: its state is
    written out here as a read index plus a count of ready slots, the write slot
    being the one just after the ready ones, and the number of slots it lets be
    ready at once is the field `limit` (between 1 and `Capacity`).

    Every operation returns a new value instead of mutating: the single-producer /
    single-consumer discipline becomes the sequential order of the calls. */
module BlockFifo {
  import opened Audio

  /** Number of slots in the ring. */
  const Capacity: nat := 30

  datatype Fifo<T> = Fifo(slots: seq<T>, read: nat, ready: nat, limit: nat)
  {
    /** The shape every reachable FIFO has. */
    predicate Valid() {
      && |slots| == Capacity
      && read < Capacity
      && 1 <= limit <= Capacity
      && ready <= limit
    }
  }

  /** Position of the `i`-th slot after slot `start`, going round the ring. */
  function Offset(start: nat, i: nat): (r: nat)
    requires start < Capacity && i <= Capacity
    ensures r < Capacity
  {
    if start + i < Capacity then start + i else start + i - Capacity
  }

  /** While the ring is not full, the write slot differs from every ready slot. */
  lemma OffsetDistinct(start: nat, ready: nat)
    requires start < Capacity && ready < Capacity
    ensures forall i :: 0 <= i < ready ==> Offset(start, i) != Offset(start, ready)
  {
  }

  /** Advancing the read index by one slot shifts every ready position by one. */
  lemma OffsetShift(start: nat, ready: nat)
    requires start < Capacity && ready < Capacity
    ensures forall i :: 0 <= i < ready ==> Offset(Offset(start, 1), i) == Offset(start, i + 1)
  {
  }

  /** The abstract queue a FIFO holds: its ready slots, oldest first. */
  function Contents<T>(f: Fifo<T>): (q: seq<T>)
    requires f.Valid()
    ensures |q| == f.ready
  {
    seq(f.ready, i requires 0 <= i < f.ready => f.slots[Offset(f.read, i)])
  }

  /** A FIFO with no ready block, every slot holding `fill`. */
  function Empty<T>(fill: T, limit: nat): (f: Fifo<T>)
    requires 1 <= limit <= Capacity
    ensures f.Valid() && f.limit == limit
    ensures Contents(f) == []
  {
    Fifo(seq(Capacity, _ => fill), 0, 0, limit)
  }

  /** `push`: stores `t` in the write slot when one is free. The boolean says
      whether it did; a full FIFO is returned unchanged, without waiting. */
  function Push<T>(f: Fifo<T>, t: T): (r: (bool, Fifo<T>))
    requires f.Valid()
    ensures r.1.Valid() && r.1.limit == f.limit
    ensures !r.0 <==> |Contents(f)| == f.limit
    ensures !r.0 ==> r.1 == f
    ensures r.0 ==> Contents(r.1) == Contents(f) + [t]
  {
    if f.ready == f.limit then (false, f)
    else
      var w := Offset(f.read, f.ready);
      var g := f.(slots := f.slots[w := t], ready := f.ready + 1);
      OffsetDistinct(f.read, f.ready);
      assert Contents(g) == Contents(f) + [t];
      (true, g)
  }

  /** `pull`: hands out the oldest ready block through the caller's buffer `t`.
      When nothing is ready it returns false, leaves `t` as it was and the FIFO
      unchanged. The result is (success, the caller's buffer afterwards, FIFO). */
  function Pull<T>(f: Fifo<T>, t: T): (r: (bool, T, Fifo<T>))
    requires f.Valid()
    ensures r.2.Valid() && r.2.limit == f.limit
    ensures r.0 <==> |Contents(f)| > 0
    ensures !r.0 ==> r.1 == t && r.2 == f
    ensures r.0 ==> r.1 == Contents(f)[0] && Contents(r.2) == Contents(f)[1..]
  {
    if f.ready == 0 then (false, t, f)
    else
      var g := f.(read := Offset(f.read, 1), ready := f.ready - 1);
      OffsetShift(f.read, g.ready);
      assert Contents(g) == Contents(f)[1..];
      (true, f.slots[f.read], g)
  }

  /** `getNumAvailableForReading`: the number of blocks a consumer can pull. */
  function NumAvailableForReading<T>(f: Fifo<T>): (n: nat)
    requires f.Valid()
    ensures n == |Contents(f)|
    ensures n <= f.limit
  {
    f.ready
  }

  /** Slot sizing (`prepared` in the source, called as `prepare`): every slot
      becomes a cleared buffer of the given shape. The read and ready positions
      are not touched, so blocks that were ready stay ready, now silent. */
  function PrepareSlots(f: Fifo<AudioBuffer>, numChannels: nat, numSamples: nat): (r: Fifo<AudioBuffer>)
    requires f.Valid()
    ensures r.Valid() && r.limit == f.limit
    ensures |Contents(r)| == |Contents(f)|
    ensures forall i :: 0 <= i < |Contents(r)| ==> Contents(r)[i] == Silence(numChannels, numSamples)
    ensures forall i :: 0 <= i < Capacity ==> r.slots[i] == Silence(numChannels, numSamples)
  {
    f.(slots := seq(Capacity, _ => Silence(numChannels, numSamples)))
  }

  /** Pushes every element of `xs` in order, ignoring each push's result, as a
      producer that drops blocks on overflow does. */
  function PushAll<T>(f: Fifo<T>, xs: seq<T>): (r: Fifo<T>)
    requires f.Valid()
    ensures r.Valid() && r.limit == f.limit
    decreases |xs|
  {
    if xs == [] then f
    else Push(PushAll(f, xs[..|xs| - 1]), xs[|xs| - 1]).1
  }

  /** The first `n` elements of `s`, or all of `s` when it is shorter. */
  function Take<T>(s: seq<T>, n: nat): (r: seq<T>)
    ensures |r| == if |s| <= n then |s| else n
    ensures r == s[..|r|]
  {
    if |s| <= n then s else s[..n]
  }

  /** Pushing a sequence keeps as many of its elements as fit, in order, and drops
      the rest: the FIFO ends up holding the first `limit` elements of its old
      contents followed by `xs`. */
  lemma {:induction false} PushAllKeepsWhatFits<T>(f: Fifo<T>, xs: seq<T>)
    requires f.Valid()
    ensures Contents(PushAll(f, xs)) == Take(Contents(f) + xs, f.limit)
    decreases |xs|
  {
    if xs == [] {
      assert Contents(f) + xs == Contents(f);
    } else {
      var init, x := xs[..|xs| - 1], xs[|xs| - 1];
      PushAllKeepsWhatFits(f, init);
      var g := PushAll(f, init);
      assert xs == init + [x];
      assert Contents(f) + xs == (Contents(f) + init) + [x];
      var q := Contents(f) + init;
      if |Contents(g)| == f.limit {
        assert Take(q + [x], f.limit) == Take(q, f.limit);
      } else {
        assert Take(q + [x], f.limit) == q + [x];
      }
    }
  }

  /** Pulls until nothing is ready, as a consumer draining the FIFO does. The
      result is (the blocks pulled, in order; the drained FIFO). */
  function PullAll<T>(f: Fifo<T>, t: T): (r: (seq<T>, Fifo<T>))
    requires f.Valid()
    ensures r.1.Valid() && r.1.limit == f.limit
    ensures r.0 == Contents(f)
    ensures Contents(r.1) == []
    decreases f.ready
  {
    if NumAvailableForReading(f) == 0 then ([], f)
    else
      var p := Pull(f, t);
      var rest := PullAll(p.2, p.1);
      (([p.1] + rest.0), rest.1)
  }

  /** Round trip: blocks pushed into an empty FIFO, no more than it can hold, are
      all accepted and pulled back in the order they were pushed, leaving the FIFO
      empty again. */
  lemma PushThenPullAll<T>(f: Fifo<T>, xs: seq<T>, t: T)
    requires f.Valid() && Contents(f) == []
    requires |xs| <= f.limit
    ensures Contents(PushAll(f, xs)) == xs
    ensures PullAll(PushAll(f, xs), t).0 == xs
    ensures Contents(PullAll(PushAll(f, xs), t).1) == []
  {
    PushAllKeepsWhatFits(f, xs);
    assert Contents(f) + xs == xs;
  }

  /** Overflow: pushing into a FIFO that already holds `limit` blocks changes
      nothing at all, however many blocks are offered. */
  lemma {:induction false} PushAllOnFullIsNoOp<T>(f: Fifo<T>, xs: seq<T>)
    requires f.Valid() && |Contents(f)| == f.limit
    ensures PushAll(f, xs) == f
    decreases |xs|
  {
    if xs != [] {
      PushAllOnFullIsNoOp(f, xs[..|xs| - 1]);
    }
  }
}
