/** The per-channel sample collector (`SingleChannelSampleFifo`): it copies one
    channel of each incoming audio buffer, sample by sample, into a one-channel
    block of `size` samples, and hands each full block to its block FIFO.

    The hand-off is lazy: a full block is pushed only when the NEXT sample
    arrives and finds the cursor at the end of the block. Feeding exactly one
    block's worth of samples to a freshly prepared collector therefore pushes
    nothing yet. */
module SampleCollector {
  import opened Audio
  import opened BlockFifo

  /** Channel numbering of the processor header: `Right` is 0, `Left` is 1. */
  datatype Channel = Right | Left

  function ChannelIndex(ch: Channel): (i: nat)
    ensures i < 2
  {
    match ch
    case Right => 0
    case Left => 1
  }

  /** `bufferToFill` is the single channel of the one-channel accumulation buffer;
      `fifoIndex` is the write cursor into it. */
  datatype Collector = Collector(
    channelToUse: Channel,
    fifoIndex: nat,
    bufferToFill: seq<real>,
    audioBufferFifo: Fifo<AudioBuffer>,
    prepared: bool,
    size: int)
  {
    /** The cursor never passes the end of the block and the FIFO is well formed. */
    predicate Inv() {
      fifoIndex <= |bufferToFill| && audioBufferFifo.Valid()
    }
  }

  /** The constructor: a collector for channel `ch`, not yet prepared, whose FIFO
      lets `limit` blocks be ready at once. */
  function NewCollector(ch: Channel, limit: nat): (c: Collector)
    requires 1 <= limit <= Capacity
    ensures c.Inv() && !c.prepared && c.channelToUse == ch
    ensures NumAvailableForReading(c.audioBufferFifo) == 0
  {
    Collector(ch, 0, [], Empty([], limit), false, 0)
  }

  /** `prepare(bufferSize)`: sizes the block and every FIFO slot to `bufferSize`
      samples of one channel, moves the cursor to the start and marks the collector
      prepared. Blocks already waiting in the FIFO stay there (cleared). */
  function Prepare(c: Collector, bufferSize: nat): (r: Collector)
    requires c.Inv()
    ensures r.Inv() && r.prepared && r.size == bufferSize
    ensures |r.bufferToFill| == bufferSize && r.fifoIndex == 0
    ensures r.channelToUse == c.channelToUse
    ensures r.audioBufferFifo.limit == c.audioBufferFifo.limit
    ensures NumAvailableForReading(r.audioBufferFifo) == NumAvailableForReading(c.audioBufferFifo)
    ensures forall i :: 0 <= i < |Contents(r.audioBufferFifo)| ==>
              Contents(r.audioBufferFifo)[i] == Silence(1, bufferSize)
  {
    c.(size := bufferSize,
       bufferToFill := seq(bufferSize, _ => 0.0),
       audioBufferFifo := PrepareSlots(c.audioBufferFifo, 1, bufferSize),
       fifoIndex := 0,
       prepared := true)
  }

  /** The one-channel buffer the collector pushes when its block is `block`. */
  function AsBuffer(block: seq<real>): AudioBuffer
  {
    [block]
  }

  /** `pushNextSampleIntoFifo`: when the cursor sits at the end of the block, the
      block is pushed (a failed push is ignored) and the cursor goes back to the
      start; then the sample is written at the cursor, which advances. */
  function PushNextSample(c: Collector, sample: real): (r: Collector)
    requires c.Inv() && |c.bufferToFill| >= 1
    ensures r.Inv()
    ensures 1 <= r.fifoIndex <= |r.bufferToFill| == |c.bufferToFill|
    ensures r.bufferToFill[r.fifoIndex - 1] == sample
    ensures r.channelToUse == c.channelToUse && r.prepared == c.prepared && r.size == c.size
    ensures r.audioBufferFifo.limit == c.audioBufferFifo.limit
    ensures c.fifoIndex == |c.bufferToFill| ==>
              && r.fifoIndex == 1
              && r.audioBufferFifo == Push(c.audioBufferFifo, AsBuffer(c.bufferToFill)).1
              && r.bufferToFill == c.bufferToFill[0 := sample]
    ensures c.fifoIndex < |c.bufferToFill| ==>
              && r.fifoIndex == c.fifoIndex + 1
              && r.audioBufferFifo == c.audioBufferFifo
              && r.bufferToFill == c.bufferToFill[c.fifoIndex := sample]
  {
    var d :=
      if c.fifoIndex == |c.bufferToFill| then
        c.(audioBufferFifo := Push(c.audioBufferFifo, AsBuffer(c.bufferToFill)).1, fifoIndex := 0)
      else c;
    d.(bufferToFill := d.bufferToFill[d.fifoIndex := sample], fifoIndex := d.fifoIndex + 1)
  }

  /** Feeding `samples` one after the other. Blocks are only ever added at the
      back of the queue, and the latest sample sits just before the cursor. */
  function Feed(c: Collector, samples: seq<real>): (r: Collector)
    requires c.Inv() && (|samples| > 0 ==> |c.bufferToFill| >= 1)
    ensures r.Inv() && |r.bufferToFill| == |c.bufferToFill|
    ensures r.channelToUse == c.channelToUse && r.prepared == c.prepared && r.size == c.size
    ensures r.audioBufferFifo.limit == c.audioBufferFifo.limit
    ensures Contents(c.audioBufferFifo) <= Contents(r.audioBufferFifo)
    ensures samples != [] ==> 1 <= r.fifoIndex && r.bufferToFill[r.fifoIndex - 1] == samples[|samples| - 1]
    decreases |samples|
  {
    if samples == [] then c
    else PushNextSample(Feed(c, samples[..|samples| - 1]), samples[|samples| - 1])
  }

  /** `update`: feeds every sample of the collector's channel of `buffer`, in order.
      The source asserts the collector is prepared and the buffer has the channel. */
  method Update(c: Collector, buffer: AudioBuffer) returns (r: Collector)
    requires c.prepared && c.Inv()
    requires ChannelIndex(c.channelToUse) < |buffer|
    requires |buffer[ChannelIndex(c.channelToUse)]| > 0 ==> |c.bufferToFill| >= 1
    ensures r == Feed(c, buffer[ChannelIndex(c.channelToUse)])
  {
    var samples := buffer[ChannelIndex(c.channelToUse)];
    r := c;
    var i := 0;
    while i < |samples|
      invariant 0 <= i <= |samples|
      invariant r == Feed(c, samples[..i])
    {
      assert samples[..i + 1][..i] == samples[..i];
      r := PushNextSample(r, samples[i]);
      i := i + 1;
    }
    assert samples[..i] == samples;
  }

  /** Feeding two runs of samples one after the other is feeding their
      concatenation: how a stream is split into audio buffers does not matter. */
  lemma {:induction false} FeedConcat(c: Collector, xs: seq<real>, ys: seq<real>)
    requires c.Inv() && (|xs + ys| > 0 ==> |c.bufferToFill| >= 1)
    ensures Feed(c, xs + ys) == Feed(Feed(c, xs), ys)
    decreases |ys|
  {
    if ys == [] {
      assert xs + ys == xs;
    } else {
      var init := ys[..|ys| - 1];
      assert (xs + ys)[..|xs + ys| - 1] == xs + init;
      FeedConcat(c, xs, init);
    }
  }

  // ---------------------------------------------------------------------------
  // Counting what a run of samples pushes.

  /** `j * b`, written as repeated addition so that proofs about block
      boundaries stay linear. */
  function Times(j: nat, b: nat): nat
  {
    if j == 0 then 0 else Times(j - 1, b) + b
  }

  lemma {:induction false} TimesIsProduct(j: nat, b: nat)
    ensures Times(j, b) == j * b
  {
    if j > 0 {
      TimesIsProduct(j - 1, b);
    }
  }

  lemma {:induction false} TimesMono(j: nat, k: nat, b: nat)
    requires j <= k
    ensures Times(j, b) <= Times(k, b)
    decreases k
  {
    if j < k {
      TimesMono(j, k - 1, b);
    }
  }

  /** Euclidean division of `n` by `b`, with the quotient's multiple written as
      `Times`. */
  lemma DivMod(n: nat, b: nat)
    requires b >= 1
    ensures n == Times(n / b, b) + n % b && 0 <= n % b < b
  {
    TimesIsProduct(n / b, b);
  }

  /** The first `k` blocks of `b` consecutive samples of `samples`, each as a
      one-channel buffer, in arrival order. */
  function CompletedBlocks(samples: seq<real>, b: nat, k: nat): (blocks: seq<AudioBuffer>)
    requires Times(k, b) <= |samples|
    ensures |blocks| == k
    decreases k
  {
    if k == 0 then []
    else
      CompletedBlocks(samples, b, k - 1) + [AsBuffer(samples[Times(k - 1, b)..Times(k, b)])]
  }

  /** Block `j` of the list is samples `j*b` up to `(j+1)*b`. */
  lemma {:induction false} CompletedBlockAt(samples: seq<real>, b: nat, k: nat, j: nat)
    requires Times(k, b) <= |samples| && j < k
    ensures (j + 1) * b <= |samples|
    ensures CompletedBlocks(samples, b, k)[j] == AsBuffer(samples[j * b..(j + 1) * b])
    decreases k
  {
    TimesMono(j + 1, k, b);
    TimesIsProduct(j, b);
    TimesIsProduct(j + 1, b);
    if j < k - 1 {
      CompletedBlockAt(samples, b, k - 1, j);
    }
  }

  /** Samples that arrive after the first `k` blocks do not change them. */
  lemma {:induction false} CompletedBlocksGrow(samples: seq<real>, x: real, b: nat, k: nat)
    requires Times(k, b) <= |samples|
    ensures CompletedBlocks(samples + [x], b, k) == CompletedBlocks(samples, b, k)
    decreases k
  {
    if k > 0 {
      CompletedBlocksGrow(samples, x, b, k - 1);
      var s := samples + [x];
      assert s[Times(k - 1, b)..Times(k, b)] == samples[Times(k - 1, b)..Times(k, b)];
    }
  }

  /** Writing the next sample at the cursor extends the run of the latest
      samples the block holds. */
  lemma WriteExtendsRun(block: seq<real>, init: seq<real>, m: nat, x: real)
    requires m < |block| && m <= |init|
    requires block[..m] == init[|init| - m..]
    ensures block[m := x][..m + 1] == (init + [x])[|init| - m..]
  {
    assert block[m := x][..m + 1] == block[..m] + [x];
    assert (init + [x])[|init| - m..] == init[|init| - m..] + [x];
  }

  /** A sample that does not complete a block only extends the cursor's run and
      pushes nothing. */
  lemma FeedStepInside(p: Collector, init: seq<real>, x: real, m: nat)
    requires p.Inv() && m < |p.bufferToFill| && m <= |init|
    requires p.fifoIndex == m
    requires p.bufferToFill[..m] == init[|init| - m..]
    ensures var r := PushNextSample(p, x);
            && r.fifoIndex == m + 1
            && r.bufferToFill[..m + 1] == (init + [x])[|init| - m..]
            && r.audioBufferFifo == p.audioBufferFifo
  {
    WriteExtendsRun(p.bufferToFill, init, m, x);
  }

  /** With fewer than `b` samples after the first `q` blocks, one more sample
      does not complete a new block. */
  lemma StepInsideKeepsBlocks(init: seq<real>, x: real, b: nat, q: nat, m: nat)
    requires m < b && |init| == Times(q, b) + m
    ensures Times(q, b) <= |init + [x]|
    ensures CompletedBlocks(init + [x], b, q) == CompletedBlocks(init, b, q)
  {
    CompletedBlocksGrow(init, x, b, q);
  }

  /** A sample arriving with the cursor at the end of the block pushes that block,
      which is the next `b` consecutive samples, and starts a new one. */
  lemma FeedStepWrap(p: Collector, f: Fifo<AudioBuffer>, init: seq<real>, x: real, q: nat)
    requires p.Inv() && f.Valid() && |p.bufferToFill| >= 1
    requires |init| == Times(q + 1, |p.bufferToFill|)
    requires p.fifoIndex == |p.bufferToFill|
    requires p.bufferToFill[..|p.bufferToFill|] == init[|init| - |p.bufferToFill|..]
    requires p.audioBufferFifo == PushAll(f, CompletedBlocks(init, |p.bufferToFill|, q))
    ensures var r := PushNextSample(p, x);
            && r.fifoIndex == 1
            && r.bufferToFill[..1] == [x]
            && r.audioBufferFifo == PushAll(f, CompletedBlocks(init + [x], |p.bufferToFill|, q + 1))
  {
    var b := |p.bufferToFill|;
    var samples := init + [x];
    assert p.bufferToFill == init[Times(q, b)..];
    CompletedBlocksGrow(init, x, b, q);
    assert samples[Times(q, b)..Times(q + 1, b)] == init[Times(q, b)..];
    var blocks := CompletedBlocks(init, b, q);
    var next := blocks + [AsBuffer(p.bufferToFill)];
    assert CompletedBlocks(samples, b, q + 1) == next;
    assert next[..|next| - 1] == blocks;
  }

  /** Feeding one more sample is one more `pushNextSampleIntoFifo`. */
  lemma FeedSnoc(c: Collector, init: seq<real>, x: real)
    requires c.Inv() && |c.bufferToFill| >= 1
    ensures Feed(c, init + [x]) == PushNextSample(Feed(c, init), x)
  {
    assert (init + [x])[..|init|] == init;
  }

  /** The first sample after the cursor was moved to the start. */
  lemma FeedFirst(c: Collector, samples: seq<real>)
    requires c.Inv() && c.fifoIndex == 0 && |c.bufferToFill| >= 1 && |samples| == 1
    ensures var r := Feed(c, samples);
            && r.fifoIndex == 1
            && r.bufferToFill[..1] == samples
            && r.audioBufferFifo == PushAll(c.audioBufferFifo, CompletedBlocks(samples, |c.bufferToFill|, 0))
  {
    FeedSnoc(c, [], samples[0]);
    assert [] + [samples[0]] == samples;
  }

  /** Feeding `q*b + m + 1` samples (`m < b`) to a collector whose cursor is at the
      start of a `b`-sample block attempts exactly `q` pushes, of the first `q`
      blocks of `b` consecutive samples in arrival order, and leaves the cursor at
      `m + 1` with the last `m + 1` samples at the start of the block. */
  lemma {:induction false} FeedCounts(c: Collector, samples: seq<real>, q: nat, m: nat)
    requires c.Inv() && c.fifoIndex == 0 && |c.bufferToFill| >= 1
    requires m < |c.bufferToFill| && |samples| == Times(q, |c.bufferToFill|) + m + 1
    ensures var r := Feed(c, samples);
            && r.fifoIndex == m + 1
            && r.bufferToFill[..m + 1] == samples[|samples| - (m + 1)..]
            && r.audioBufferFifo == PushAll(c.audioBufferFifo, CompletedBlocks(samples, |c.bufferToFill|, q))
    decreases |samples|, 1
  {
    if |samples| == 1 {
      assert Times(q, |c.bufferToFill|) == 0;
      FeedFirst(c, samples);
    } else if m > 0 {
      FeedCountsInside(c, samples, q, m);
    } else {
      FeedCountsWrap(c, samples, q);
    }
  }

  /** `FeedCounts` when the last sample does not start a new block. */
  lemma {:induction false} FeedCountsInside(c: Collector, samples: seq<real>, q: nat, m: nat)
    requires c.Inv() && c.fifoIndex == 0 && |c.bufferToFill| >= 1
    requires 0 < m < |c.bufferToFill| && |samples| == Times(q, |c.bufferToFill|) + m + 1
    ensures var r := Feed(c, samples);
            && r.fifoIndex == m + 1
            && r.bufferToFill[..m + 1] == samples[|samples| - (m + 1)..]
            && r.audioBufferFifo == PushAll(c.audioBufferFifo, CompletedBlocks(samples, |c.bufferToFill|, q))
    decreases |samples|, 0
  {
    var n := |samples|;
    var init, x := samples[..n - 1], samples[n - 1];
    assert samples == init + [x];
    FeedSnoc(c, init, x);
    FeedCounts(c, init, q, m - 1);
    FeedStepInside(Feed(c, init), init, x, m);
    StepInsideKeepsBlocks(init, x, |c.bufferToFill|, q, m);
  }

  /** `FeedCounts` when the last sample finds the block full. */
  lemma {:induction false} FeedCountsWrap(c: Collector, samples: seq<real>, q: nat)
    requires c.Inv() && c.fifoIndex == 0 && |c.bufferToFill| >= 1
    requires |samples| == Times(q, |c.bufferToFill|) + 1 && |samples| > 1
    ensures var r := Feed(c, samples);
            && r.fifoIndex == 1
            && r.bufferToFill[..1] == samples[|samples| - 1..]
            && r.audioBufferFifo == PushAll(c.audioBufferFifo, CompletedBlocks(samples, |c.bufferToFill|, q))
    decreases |samples|, 0
  {
    var b := |c.bufferToFill|;
    var n := |samples|;
    var init, x := samples[..n - 1], samples[n - 1];
    assert samples == init + [x];
    assert q >= 1;
    var q' := q - 1;
    assert Times(q' + 1, b) == Times(q, b);
    FeedSnoc(c, init, x);
    FeedCounts(c, init, q', b - 1);
    FeedStepWrap(Feed(c, init), c.audioBufferFifo, init, x, q');
  }

  /** The closed form: from a cursor at the start of a `b`-sample block, `n >= 1`
      samples cause exactly `(n-1) / b` push attempts, one per block of `b`
      consecutive samples in arrival order (see `CompletedBlockAt`), and leave the
      cursor at `(n-1) % b + 1`, never at the start, with the latest samples at
      the start of the block. */
  lemma FeedFromStart(c: Collector, samples: seq<real>)
    requires c.Inv() && c.fifoIndex == 0 && |c.bufferToFill| >= 1 && |samples| >= 1
    ensures var b := |c.bufferToFill|;
            var n := |samples|;
            var r := Feed(c, samples);
            && Times((n - 1) / b, b) <= n
            && r.fifoIndex == (n - 1) % b + 1
            && r.bufferToFill[..r.fifoIndex] == samples[n - r.fifoIndex..]
            && r.audioBufferFifo == PushAll(c.audioBufferFifo, CompletedBlocks(samples, b, (n - 1) / b))
  {
    var b := |c.bufferToFill|;
    var n := |samples|;
    DivMod(n - 1, b);
    FeedCounts(c, samples, (n - 1) / b, (n - 1) % b);
  }

  /** Exactly one block's worth of samples, from the start, pushes nothing and
      leaves the block full with the cursor at its end. */
  lemma OneBlockPushesNothing(c: Collector, samples: seq<real>)
    requires c.Inv() && c.fifoIndex == 0 && |c.bufferToFill| >= 1
    requires |samples| == |c.bufferToFill|
    ensures Feed(c, samples).audioBufferFifo == c.audioBufferFifo
    ensures Feed(c, samples).fifoIndex == |c.bufferToFill|
    ensures Feed(c, samples).bufferToFill == samples
  {
    var b := |c.bufferToFill|;
    FeedCounts(c, samples, 0, b - 1);
    assert CompletedBlocks(samples, b, 0) == [];
  }

  /** `k >= 1` whole blocks' worth of samples, from the start, push `k - 1`
      blocks; the last one waits for the next sample. */
  lemma WholeBlocksPushAllButLast(c: Collector, samples: seq<real>, k: nat)
    requires c.Inv() && c.fifoIndex == 0 && |c.bufferToFill| >= 1 && k >= 1
    requires |samples| == k * |c.bufferToFill|
    ensures Feed(c, samples).fifoIndex == |c.bufferToFill|
    ensures Times(k - 1, |c.bufferToFill|) <= |samples| &&
            Feed(c, samples).audioBufferFifo ==
              PushAll(c.audioBufferFifo, CompletedBlocks(samples, |c.bufferToFill|, k - 1))
  {
    var b := |c.bufferToFill|;
    TimesIsProduct(k, b);
    TimesIsProduct(k - 1, b);
    FeedCounts(c, samples, k - 1, b - 1);
  }

  /** Prepared with `b >= 1` and fed `n >= 1` samples, the collector's FIFO holds
      the blocks that were there before (cleared) followed by as many of the
      completed blocks as fit, in arrival order: nothing is reordered, and
      overflow only drops the newest. */
  lemma PreparedCollectorQueue(c: Collector, b: nat, samples: seq<real>)
    requires c.Inv() && b >= 1 && |samples| >= 1
    ensures var p := Prepare(c, b);
            var r := Feed(p, samples);
            var q := (|samples| - 1) / b;
            Times(q, b) <= |samples| &&
            Contents(r.audioBufferFifo) ==
              Take(Contents(p.audioBufferFifo) + CompletedBlocks(samples, b, q), c.audioBufferFifo.limit)
  {
    var p := Prepare(c, b);
    var q := (|samples| - 1) / b;
    FeedFromStart(p, samples);
    PushAllKeepsWhatFits(p.audioBufferFifo, CompletedBlocks(samples, b, q));
  }
}
