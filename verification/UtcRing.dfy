/**
 * The receive ring. A block of samples sits at absolute sample positions; the ring keeps the newest `capacity`
 * positions in a fixed buffer keyed by position modulo capacity, and lists what was never written as gaps.
 * The reference below forgets the buffer: the first block that ends after a position decides its sample.
 */
module Ring {
  import opened Prelude

  datatype Block = Block(first: int, data: seq<int>) {
    function End(): int { first + |data| }
  }

  // ---- the reference ---------------------------------------------------

  /** Exclusive end of the written stream: the largest block end so far. */
  function High(hist: seq<Block>): int
    requires hist != []
  {
    if |hist| == 1 then hist[0].End() else Max(hist[0].End(), High(hist[1..]))
  }

  function Base(hist: seq<Block>, capacity: int): int
    requires hist != []
  {
    Max(hist[0].first, High(hist) - capacity)
  }

  /** The sample at position `i`: the one of the first block ending after `i`, if that block covers it. */
  function At(hist: seq<Block>, i: int): Option<int> {
    if hist == [] then None
    else if hist[0].End() > i then
      if hist[0].first <= i then Some(hist[0].data[i - hist[0].first]) else None
    else At(hist[1..], i)
  }

  lemma {:induction false} HighSnoc(hist: seq<Block>, b: Block)
    requires hist != []
    ensures High(hist + [b]) == Max(High(hist), b.End())
  {
    if |hist| > 1 {
      assert (hist + [b])[1..] == hist[1..] + [b];
      HighSnoc(hist[1..], b);
    } else {
      assert (hist + [b])[1..] == [b];
    }
  }

  lemma {:induction false} AtSnoc(hist: seq<Block>, b: Block, i: int)
    ensures At(hist + [b], i) == if hist != [] && High(hist) > i then At(hist, i) else At([b], i)
  {
    if hist == [] {
      assert hist + [b] == [b];
    } else {
      assert (hist + [b])[1..] == hist[1..] + [b];
      AtSnoc(hist[1..], b, i);
    }
  }

  // ---- loss accounting -------------------------------------------------

  /** Samples of the next block `b` that land at positions not reached before. */
  function Kept(hist: seq<Block>, b: Block): nat {
    if hist == [] then |b.data| else Max(0, b.End() - Max(b.first, High(hist)))
  }

  /** What the ring adds to its dropped count for block `b`. */
  function Dropped(hist: seq<Block>, b: Block, capacity: int): nat {
    if hist == [] then 0
    else if b.End() <= Base(hist, capacity) then |b.data|
    else Max(0, High(hist) - b.first)
  }

  predicate OpensGap(hist: seq<Block>, b: Block) { hist != [] && b.first > High(hist) }

  function DroppedTotal(hist: seq<Block>, capacity: int): nat {
    if hist == [] then 0
    else var front, last := hist[..|hist| - 1], hist[|hist| - 1];
         DroppedTotal(front, capacity) + Dropped(front, last, capacity)
  }

  function GapTotal(hist: seq<Block>): nat {
    if hist == [] then 0
    else var front, last := hist[..|hist| - 1], hist[|hist| - 1];
         GapTotal(front) + (if OpensGap(front, last) then 1 else 0)
  }

  function KeptTotal(hist: seq<Block>): nat {
    if hist == [] then 0
    else KeptTotal(hist[..|hist| - 1]) + Kept(hist[..|hist| - 1], hist[|hist| - 1])
  }

  function OfferedTotal(hist: seq<Block>): nat {
    if hist == [] then 0 else OfferedTotal(hist[..|hist| - 1]) + |hist[|hist| - 1].data|
  }

  /** A block that ends inside the retained stream is counted as dropped further than it reaches. */
  predicate EndsInside(hist: seq<Block>, b: Block, capacity: int) {
    hist != [] && Base(hist, capacity) < b.End() < High(hist)
  }

  /** Every offered sample is kept or dropped, never lost from the count; exact unless some late block ends inside. */
  lemma {:induction false} DropsExactlyWhen(hist: seq<Block>, capacity: int)
    requires capacity > 0
    ensures OfferedTotal(hist) <= KeptTotal(hist) + DroppedTotal(hist, capacity)
    ensures OfferedTotal(hist) == KeptTotal(hist) + DroppedTotal(hist, capacity)
            <==> forall k | 0 <= k < |hist| :: !EndsInside(hist[..k], hist[k], capacity)
  {
    if hist != [] {
      var front, last := hist[..|hist| - 1], hist[|hist| - 1];
      DropsExactlyWhen(front, capacity);
      assert forall k | 0 <= k < |front| :: front[..k] == hist[..k] && front[k] == hist[k];
      if front != [] {
        assert |last.data| <= Kept(front, last) + Dropped(front, last, capacity);
        assert |last.data| == Kept(front, last) + Dropped(front, last, capacity)
               <==> !EndsInside(front, last, capacity);
      }
    }
  }

  // ---- gap list --------------------------------------------------------

  datatype Gap = Gap(from: int, to: int)

  predicate InGaps(gaps: seq<Gap>, i: int) {
    exists g | g in gaps :: g.from <= i < g.to
  }

  function Evict(gaps: seq<Gap>, limit: int): seq<Gap> {
    if gaps == [] then []
    else
      var rest := Evict(gaps[1..], limit);
      if gaps[0].to > limit then [Gap(Max(gaps[0].from, limit), gaps[0].to)] + rest else rest
  }

  predicate Within(gaps: seq<Gap>, lo: int, hi: int) {
    forall k | 0 <= k < |gaps| :: lo <= gaps[k].from < gaps[k].to <= hi
  }

  lemma {:induction false} EvictStaysWithin(gaps: seq<Gap>, lo: int, hi: int, limit: int)
    requires Within(gaps, lo, hi)
    ensures Within(Evict(gaps, limit), limit, hi)
  {
    if gaps != [] {
      EvictStaysWithin(gaps[1..], lo, hi, limit);
    }
  }

  lemma {:induction false} EvictKeepsGaps(gaps: seq<Gap>, limit: int, i: int)
    ensures InGaps(Evict(gaps, limit), i) <==> limit <= i && InGaps(gaps, i)
  {
    if gaps != [] {
      EvictKeepsGaps(gaps[1..], limit, i);
      assert InGaps(gaps, i) <==> gaps[0].from <= i < gaps[0].to || InGaps(gaps[1..], i) by {
        assert gaps == [gaps[0]] + gaps[1..];
      }
      var kept, rest := Evict(gaps, limit), Evict(gaps[1..], limit);
      if gaps[0].to > limit {
        assert kept == [Gap(Max(gaps[0].from, limit), gaps[0].to)] + rest;
        assert InGaps(kept, i) <==> Max(gaps[0].from, limit) <= i < gaps[0].to || InGaps(rest, i);
      }
    }
  }

  // ---- the ring --------------------------------------------------------

  lemma MultipleBounds(c: int, q: int)
    requires c > 0
    ensures q >= 1 ==> c * q >= c
    ensures q <= 0 ==> c * q <= 0
  {
  }

  lemma SlotsDiffer(i: int, j: int, capacity: int)
    requires 0 < capacity && i < j < i + capacity
    ensures i % capacity != j % capacity
  {
    var q := j / capacity - i / capacity;
    assert capacity * (j / capacity) - capacity * (i / capacity) == capacity * q;
    MultipleBounds(capacity, q);
  }

  /** `base`, `high` and the gap list describe the reference stream. */
  predicate Fits(hist: seq<Block>, capacity: int, base: int, high: int, gaps: seq<Gap>)
    requires hist != []
  {
    && base == Base(hist, capacity) && high == High(hist)
    && Within(gaps, base, high)
    && (forall i | base <= i < high :: InGaps(gaps, i) <==> At(hist, i) == None)
  }

  // ---- the index beside the buffer --------------------------------------

  datatype Index = Index(base: Option<int>, high: int, gaps: seq<Gap>, dropped: nat, gapEvents: nat)

  const EMPTY := Index(None, 0, [], 0, 0)

  /** The first block ever fixes where the stream starts. */
  function Anchored(x: Index, b: Block): Index {
    if x.base == None then x.(base := Some(b.first), high := b.first) else x
  }

  /** An early block leaves a gap; a late one repeats samples that are dropped. */
  function Noted(x: Index, b: Block): Index {
    var y := if b.first > x.high then x.(gapEvents := x.gapEvents + 1, gaps := x.gaps + [Gap(x.high, b.first)]) else x;
    if b.first < x.high then y.(dropped := x.dropped + (x.high - b.first)) else y
  }

  function Evicted(x: Index, high: int, capacity: int): Index
    requires x.base.Some?
  {
    var y := x.(high := high);
    if high - x.base.value > capacity then
      y.(base := Some(high - capacity), gaps := Evict(x.gaps, high - capacity))
    else y
  }

  function Advance(x: Index, b: Block, capacity: int): Index {
    var y := Anchored(x, b);
    if b.End() <= y.base.value then y.(dropped := y.dropped + |b.data|)
    else Evicted(Noted(y, b), Max(y.high, b.End()), capacity)
  }

  /** The index is what the blocks written so far make it. */
  predicate Describes(x: Index, hist: seq<Block>, capacity: int) {
    && 0 < capacity
    && x.dropped == DroppedTotal(hist, capacity) && x.gapEvents == GapTotal(hist)
    && (hist == [] ==> x == EMPTY)
    && (hist != [] ==> x.base.Some? && Fits(hist, capacity, x.base.value, x.high, x.gaps))
  }

  lemma AdvanceDescribes(x: Index, hist: seq<Block>, b: Block, capacity: int)
    requires Describes(x, hist, capacity) && b.data != []
    ensures Describes(Advance(x, b, capacity), hist + [b], capacity)
  {
    var y, z := Anchored(x, b), Advance(x, b, capacity);
    if hist != [] {
      BaseBelowHigh(hist, capacity);
    }
    if b.End() <= y.base.value {
      LateBlock(hist, b, capacity);
    } else {
      Totals(hist, b, capacity);
      AppendedFits(hist, b, capacity, y.base.value, y.high, y.gaps, z.base.value, z.high, z.gaps);
    }
  }

  predicate Retained(hist: seq<Block>, capacity: int, i: int) {
    hist != [] && Base(hist, capacity) <= i < High(hist) && At(hist, i).Some?
  }

  predicate SlotRetained(hist: seq<Block>, capacity: int, first: int, count: int) {
    forall i | first <= i < first + count :: Retained(hist, capacity, i)
  }

  /** `samples` are the reference samples of `count` positions from `first` on. */
  predicate IsSlice(samples: seq<int>, hist: seq<Block>, first: int, count: int) {
    |samples| == count && forall k | 0 <= k < count :: At(hist, first + k) == Some(samples[k])
  }

  class UtcRing {
    const capacity: int
    const slotSamples: int
    const buffer: array<int>
    var base: Option<int>
    var highWater: int
    var gaps: seq<Gap>
    var dropped: nat
    var gapEvents: nat
    ghost var hist: seq<Block>

    /** The buffer holds the reference sample of every position in [from, to) that has one. */
    ghost predicate Holds(h: seq<Block>, from: int, to: int)
      reads buffer
      requires capacity > 0 && buffer.Length == capacity
    {
      forall i | from <= i < to && At(h, i).Some? :: buffer[i % capacity] == At(h, i).value
    }

    function View(): Index
      reads this
    {
      Index(base, highWater, gaps, dropped, gapEvents)
    }

    ghost predicate Valid()
      reads this, buffer
    {
      && 0 < capacity == buffer.Length && 0 < slotSamples
      && Describes(View(), hist, capacity)
      && (hist != [] ==> Holds(hist, base.value, highWater))
    }

    constructor (capacity: int, slotSamples: int)
      requires capacity > 0 && slotSamples > 0
      ensures Valid() && fresh(buffer) && hist == [] && this.capacity == capacity && this.slotSamples == slotSamples
    {
      this.capacity, this.slotSamples := capacity, slotSamples;
      buffer := new int[capacity](_ => 0);
      base, highWater, gaps, dropped, gapEvents, hist := None, 0, [], 0, 0, [];
    }

    /** Copy `chunk` to positions `start`, `start + 1`, ... */
    method Store(chunk: seq<int>, start: int, ghost h: seq<Block>, ghost from: int)
      requires 0 < capacity == buffer.Length
      requires forall k | 0 <= k < |chunk| :: At(h, start + k) == Some(chunk[k])
      requires Holds(h, Max(from, start - capacity), start)
      modifies buffer
      ensures Holds(h, Max(from, start + |chunk| - capacity), start + |chunk|)
    {
      for k := 0 to |chunk|
        invariant Holds(h, Max(from, start + k - capacity), start + k)
      {
        var p := start + k;
        forall i | p - capacity < i < p ensures i % capacity != p % capacity {
          SlotsDiffer(i, p, capacity);
        }
        buffer[p % capacity] := chunk[k];
      }
    }

    method Write(samples: seq<int>, first: int)
      requires Valid()
      modifies this, buffer
      ensures Valid()
      ensures hist == if samples == [] then old(hist) else old(hist) + [Block(first, samples)]
      ensures samples != [] ==> View() == Advance(old(View()), Block(first, samples), capacity)
    {
      if |samples| == 0 {
        return;
      }
      ghost var b := Block(first, samples);
      AdvanceDescribes(View(), hist, b, capacity);
      if base == None {
        base, highWater := Some(first), first;
      }
      var end := first + |samples|;
      if end <= base.value {
        LateBlock(hist, b, capacity);
        dropped := dropped + |samples|;
      } else {
        if hist != [] {
          BaseBelowHigh(hist, capacity);
        }
        Append(samples, first, b);
      }
      hist := hist + [b];
    }

    /** A block that reaches past the base: account for it, move the window, copy what is new. */
    method Append(samples: seq<int>, first: int, ghost b: Block)
      requires 0 < capacity == buffer.Length && base.Some? && base.value <= highWater
      requires b == Block(first, samples) && samples != [] && b.End() > base.value
      requires if hist == [] then base.value == highWater == first
               else highWater == High(hist) && Holds(hist, base.value, highWater)
      modifies `base, `highWater, `gaps, `dropped, `gapEvents, buffer
      ensures View() == Evicted(Noted(old(View()), b), Max(old(highWater), b.End()), capacity)
      ensures Holds(hist + [b], base.value, highWater)
    {
      var start := Max(Max(first, highWater), base.value);
      var chunk := if start - first <= |samples| then samples[start - first..] else [];
      AppendedChunk(hist, b, highWater, start, chunk);
      Enter(first, b);
      MoveUp(start + |chunk|);
      Store(chunk, start, hist + [b], base.value);
    }

    method Enter(first: int, ghost b: Block)
      requires base.Some? && b.first == first && base.value <= highWater
      modifies `gapEvents, `gaps, `dropped
      ensures View() == Noted(old(View()), b)
    {
      if first > highWater {
        gapEvents := gapEvents + 1;
        gaps := gaps + [Gap(highWater, first)];
      }
      var start := Max(Max(first, highWater), base.value);
      if start > first {
        dropped := dropped + (start - first);
      }
    }

    /** Raise the high-water mark and evict what no longer fits. */
    method MoveUp(newHigh: int)
      requires base.Some?
      modifies `base, `highWater, `gaps
      ensures View() == Evicted(old(View()), newHigh, capacity)
    {
      if newHigh - base.value > capacity {
        var evictTo := newHigh - capacity;
        base := Some(evictTo);
        gaps := Evict(gaps, evictTo);
      }
      highWater := newHigh;
    }

    /** The slot's samples exactly when every one of its positions was written and is still retained. */
    method ReadSlot(slotId: int) returns (r: Option<seq<int>>)
      requires Valid()
      ensures r.Some? <==> SlotRetained(hist, capacity, slotId * slotSamples, slotSamples)
      ensures r.Some? ==> IsSlice(r.value, hist, slotId * slotSamples, slotSamples)
    {
      var first := slotId * slotSamples;
      var last := first + slotSamples;
      if base == None {
        assert !Retained(hist, capacity, first);
        return None;
      }
      if first < base.value || last > highWater {
        assert !Retained(hist, capacity, first) || !Retained(hist, capacity, last - 1);
        return None;
      }
      for n := 0 to |gaps|
        invariant forall m | 0 <= m < n :: gaps[m].to <= first || last <= gaps[m].from
      {
        if first < gaps[n].to && last > gaps[n].from {
          var i := Max(first, gaps[n].from);
          assert gaps[n].from <= i < gaps[n].to && InGaps(gaps, i);
          assert !Retained(hist, capacity, i);
          return None;
        }
      }
      assert forall i | first <= i < last :: !InGaps(gaps, i);
      r := Some(seq(slotSamples, k requires 0 <= k < slotSamples reads this, buffer =>
                      assert 0 < capacity == buffer.Length; buffer[(first + k) % capacity]));
    }
  }

  // ---- one block appended ----------------------------------------------

  lemma Totals(hist: seq<Block>, b: Block, capacity: int)
    ensures DroppedTotal(hist + [b], capacity) == DroppedTotal(hist, capacity) + Dropped(hist, b, capacity)
    ensures GapTotal(hist + [b]) == GapTotal(hist) + (if OpensGap(hist, b) then 1 else 0)
  {
    assert (hist + [b])[..|hist + [b]| - 1] == hist;
  }

  /** A block that ends at or before the base changes nothing that is retained. */
  lemma LateBlock(hist: seq<Block>, b: Block, capacity: int)
    requires hist != [] && b.data != [] && b.End() <= Base(hist, capacity) && capacity > 0
    ensures High(hist + [b]) == High(hist) && Base(hist + [b], capacity) == Base(hist, capacity)
    ensures forall i | Base(hist, capacity) <= i < High(hist) :: At(hist + [b], i) == At(hist, i)
    ensures DroppedTotal(hist + [b], capacity) == DroppedTotal(hist, capacity) + |b.data|
    ensures GapTotal(hist + [b]) == GapTotal(hist)
  {
    HighSnoc(hist, b);
    HighAtLeastFirst(hist);
    Totals(hist, b, capacity);
    forall i | Base(hist, capacity) <= i < High(hist) ensures At(hist + [b], i) == At(hist, i) {
      AtSnoc(hist, b, i);
    }
  }

  lemma {:induction false} HighAtLeastFirst(hist: seq<Block>)
    requires hist != []
    ensures High(hist) >= hist[0].End()
  {
  }

  lemma AppendedHigh(hist: seq<Block>, b: Block, capacity: int)
    requires capacity > 0 && b.data != []
    ensures hist == [] ==> High(hist + [b]) == b.End() && Base(hist + [b], capacity) == Max(b.first, b.End() - capacity)
    ensures hist != [] ==>
              && High(hist + [b]) == Max(High(hist), b.End())
              && Base(hist + [b], capacity) == Max(Base(hist, capacity), High(hist + [b]) - capacity)
  {
    if hist != [] {
      HighSnoc(hist, b);
      assert (hist + [b])[0] == hist[0];
    }
  }

  /** From the old high-water mark on, the appended block alone decides. */
  lemma AppendedSamples(hist: seq<Block>, b: Block, high: int)
    requires if hist == [] then high == b.first else high == High(hist)
    ensures forall i | i < high && hist != [] :: At(hist + [b], i) == At(hist, i)
    ensures forall i | high <= i < b.End() ::
              At(hist + [b], i) == if b.first <= i then Some(b.data[i - b.first]) else None
  {
    forall i ensures At(hist + [b], i) == if hist != [] && High(hist) > i then At(hist, i) else At([b], i) {
      AtSnoc(hist, b, i);
    }
  }

  lemma AppendedGaps(hist: seq<Block>, b: Block, gaps: seq<Gap>, more: seq<Gap>, base: int, high: int)
    requires if hist == [] then high == b.first && gaps == [] else high == High(hist)
    requires base <= high && b.data != []
    requires Within(gaps, base, high)
    requires hist != [] ==> forall i | base <= i < high :: InGaps(gaps, i) <==> At(hist, i) == None
    requires hist == [] ==> base == high
    requires more == if b.first > high then gaps + [Gap(high, b.first)] else gaps
    ensures forall i | base <= i < Max(high, b.End()) :: InGaps(more, i) <==> At(hist + [b], i) == None
    ensures Within(more, base, Max(high, b.End()))
  {
    AppendedSamples(hist, b, high);
    forall i | base <= i < Max(high, b.End()) ensures InGaps(more, i) <==> At(hist + [b], i) == None {
      if b.first > high {
        assert InGaps(more, i) <==> InGaps(gaps, i) || high <= i < b.first;
      }
    }
  }

  lemma AppendedChunk(hist: seq<Block>, b: Block, high: int, start: int, chunk: seq<int>)
    requires if hist == [] then high == b.first else high == High(hist)
    requires start == Max(b.first, high)
    requires chunk == if start - b.first <= |b.data| then b.data[start - b.first..] else []
    ensures forall k | 0 <= k < |chunk| :: At(hist + [b], start + k) == Some(chunk[k])
    ensures forall i | i < high && hist != [] :: At(hist + [b], i) == At(hist, i)
    ensures forall i | high <= i < start :: At(hist + [b], i) == None
    ensures start + |chunk| == Max(high, b.End())
  {
    AppendedSamples(hist, b, high);
    forall k | 0 <= k < |chunk| ensures At(hist + [b], start + k) == Some(chunk[k]) {
      assert chunk[k] == b.data[start - b.first + k];
    }
  }

  lemma AppendedFits(hist: seq<Block>, b: Block, capacity: int, base: int, high: int, gaps: seq<Gap>,
                     base': int, high': int, gaps': seq<Gap>)
    requires capacity > 0 && b.data != [] && base < b.End()
    requires if hist == [] then base == high == b.first && gaps == [] else Fits(hist, capacity, base, high, gaps)
    requires high' == Max(high, b.End())
    requires var more := if b.first > high then gaps + [Gap(high, b.first)] else gaps;
             if high' - base > capacity then base' == high' - capacity && gaps' == Evict(more, base')
             else base' == base && gaps' == more
    ensures Fits(hist + [b], capacity, base', high', gaps')
  {
    var more := if b.first > high then gaps + [Gap(high, b.first)] else gaps;
    AppendedHigh(hist, b, capacity);
    if hist != [] {
      BaseBelowHigh(hist, capacity);
    }
    AppendedGaps(hist, b, gaps, more, base, high);
    if high' - base > capacity {
      EvictStaysWithin(more, base, high', base');
      forall i ensures InGaps(gaps', i) <==> base' <= i && InGaps(more, i) {
        EvictKeepsGaps(more, base', i);
      }
    }
  }

  lemma BaseBelowHigh(hist: seq<Block>, capacity: int)
    requires hist != [] && capacity > 0
    ensures Base(hist, capacity) <= High(hist)
  {
    HighAtLeastFirst(hist);
  }
}
