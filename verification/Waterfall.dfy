/**
 * The waterfall line cutter. Blocks arrive with the absolute index of their first sample; the reference cuts each
 * gap-free stretch of the whole stream into windows by position alone.
 */
module Waterfall {
  import opened Prelude

  type Sample = int

  datatype Block = Block(start: int, samples: seq<Sample>)

  /** One line before its spectrum is taken: which samples it covers, and under which number. */
  datatype Line = Line(number: nat, index: int, window: seq<Sample>)

  datatype Cutter = Cutter(size: nat, hop: nat, buffer: seq<Sample>, next: Option<int>, lines: nat)

  predicate ValidShape(size: nat, hop: nat) { 8 <= size && 1 <= hop }

  function NewCutter(size: nat, hop: nat): Cutter { Cutter(size, hop, [], None, 0) }

  // ---- what one push does --------------------------------------------------

  function Placed(c: Cutter, b: Block): Cutter {
    if c.next.None? || b.start != c.next.value + |c.buffer| then c.(buffer := b.samples, next := Some(b.start))
    else c.(buffer := c.buffer + b.samples)
  }

  /** Dropping more than there is leaves nothing, but the index still moves the whole hop. */
  function CutOne(c: Cutter): Cutter {
    c.(buffer := c.buffer[Min(c.hop, |c.buffer|)..], next := Some(c.next.GetOr(0) + c.hop), lines := c.lines + 1)
  }

  function Cut(c: Cutter): (Cutter, seq<Line>)
    requires ValidShape(c.size, c.hop)
    decreases |c.buffer|
  {
    if |c.buffer| < c.size then (c, [])
    else
      var (rest, lines) := Cut(CutOne(c));
      (rest, [Line(c.lines, c.next.GetOr(0), c.buffer[..c.size])] + lines)
  }

  function Pushed(c: Cutter, b: Block): (Cutter, seq<Line>)
    requires ValidShape(c.size, c.hop)
  {
    Cut(Placed(c, b))
  }

  lemma {:induction false} CutKeepsShape(c: Cutter)
    requires ValidShape(c.size, c.hop)
    ensures Cut(c).0.size == c.size && Cut(c).0.hop == c.hop
    decreases |c.buffer|
  {
    if |c.buffer| >= c.size {
      CutKeepsShape(CutOne(c));
    }
  }

  function PushAll(size: nat, hop: nat, blocks: seq<Block>): (r: (Cutter, seq<Line>))
    requires ValidShape(size, hop)
    ensures r.0.size == size && r.0.hop == hop
  {
    if blocks == [] then (NewCutter(size, hop), [])
    else
      var (c, lines) := PushAll(size, hop, blocks[..|blocks| - 1]);
      CutKeepsShape(Placed(c, blocks[|blocks| - 1]));
      var (d, more) := Pushed(c, blocks[|blocks| - 1]);
      (d, lines + more)
  }

  // ---- the reference ---------------------------------------------------------

  /** How many windows fit into `n` samples. */
  function LineCount(size: nat, hop: nat, n: nat): nat
    requires 0 < hop
  {
    if n < size then 0 else (n - size) / hop + 1
  }

  lemma LineFits(size: nat, hop: nat, n: nat, k: nat)
    requires 0 < hop
    ensures k < LineCount(size, hop, n) <==> k * hop + size <= n
  {
    if size <= n {
      var q := (n - size) / hop;
      assert (q + 1) * hop == q * hop + hop > n - size;
      if k <= q {
        ProductGrows(k, q, hop);
      } else {
        ProductGrows(q + 1, k, hop);
      }
    } else {
      ProductGrows(0, k, hop);
    }
  }

  /** The first `k` windows of a stretch, `hop` apart and numbered from `first`. */
  function Windows(size: nat, hop: nat, stretch: Block, first: nat, k: nat): seq<Line>
    requires 0 < hop && k <= LineCount(size, hop, |stretch.samples|)
  {
    if k == 0 then []
    else
      LineFits(size, hop, |stretch.samples|, k - 1);
      ProductGrows(0, k - 1, hop);
      var at := (k - 1) * hop;
      Windows(size, hop, stretch, first, k - 1)
      + [Line(first + k - 1, stretch.start + at, stretch.samples[at..at + size])]
  }

  function AllWindows(size: nat, hop: nat, stretch: Block, first: nat): seq<Line>
    requires 0 < hop
  {
    Windows(size, hop, stretch, first, LineCount(size, hop, |stretch.samples|))
  }

  /** The stretch being received, and the lines of the stretches before it. */
  datatype Reference = Reference(earlier: seq<Line>, stretch: Option<Block>)

  function Lines(size: nat, hop: nat, r: Reference): seq<Line>
    requires 0 < hop
  {
    if r.stretch.None? then r.earlier else r.earlier + AllWindows(size, hop, r.stretch.value, |r.earlier|)
  }

  function Joined(a: Block, b: Block): Block { Block(a.start, a.samples + b.samples) }

  predicate Adjacent(a: Block, b: Block) { b.start == a.start + |a.samples| }

  /** A block that continues the stretch extends it; any other block starts a new one. */
  function Refer(size: nat, hop: nat, blocks: seq<Block>): Reference
    requires 0 < hop
  {
    if blocks == [] then Reference([], None)
    else
      var r := Refer(size, hop, blocks[..|blocks| - 1]);
      var b := blocks[|blocks| - 1];
      if r.stretch.Some? && Adjacent(r.stretch.value, b) then Reference(r.earlier, Some(Joined(r.stretch.value, b)))
      else Reference(Lines(size, hop, r), Some(b))
  }

  // ---- windows no wider apart than they are long: the reference is met ------------

  /** The cutter has taken `k` windows from the stretch and buffers the rest. */
  ghost predicate Tracks(c: Cutter, stretch: Block, first: nat, k: nat) {
    && 0 <= k * c.hop <= |stretch.samples|
    && c.buffer == stretch.samples[k * c.hop..]
    && c.next == Some(stretch.start + k * c.hop)
    && c.lines == first + k
  }

  lemma SliceOfTail(s: seq<Sample>, at: nat, size: nat, hop: nat)
    requires hop <= size && at + size <= |s|
    ensures s[at..][..size] == s[at..at + size] && s[at..][hop..] == s[at + hop..]
  {
  }

  lemma CutOneTracks(c: Cutter, stretch: Block, first: nat, k: nat)
    requires ValidShape(c.size, c.hop) && c.hop <= c.size && Tracks(c, stretch, first, k) && c.size <= |c.buffer|
    ensures k < LineCount(c.size, c.hop, |stretch.samples|)
    ensures Tracks(CutOne(c), stretch, first, k + 1)
    ensures Windows(c.size, c.hop, stretch, first, k + 1)
         == Windows(c.size, c.hop, stretch, first, k) + [Line(c.lines, c.next.GetOr(0), c.buffer[..c.size])]
  {
    var at := k * c.hop;
    LineFits(c.size, c.hop, |stretch.samples|, k);
    SliceOfTail(stretch.samples, at, c.size, c.hop);
    assert (k + 1) * c.hop == at + c.hop;
    assert (k + 1 - 1) * c.hop == at;
  }

  lemma {:induction false} CutTakesAllWindows(c: Cutter, stretch: Block, first: nat, k: nat)
    requires ValidShape(c.size, c.hop) && c.hop <= c.size && Tracks(c, stretch, first, k)
    requires k <= LineCount(c.size, c.hop, |stretch.samples|)
    ensures Windows(c.size, c.hop, stretch, first, k) + Cut(c).1 == AllWindows(c.size, c.hop, stretch, first)
    ensures Tracks(Cut(c).0, stretch, first, LineCount(c.size, c.hop, |stretch.samples|))
    decreases |c.buffer|
  {
    if |c.buffer| < c.size {
      LineFits(c.size, c.hop, |stretch.samples|, k);
    } else {
      CutOneTracks(c, stretch, first, k);
      LineFits(c.size, c.hop, |stretch.samples|, k);
      CutTakesAllWindows(CutOne(c), stretch, first, k + 1);
      assert Windows(c.size, c.hop, stretch, first, k) + Cut(c).1
          == Windows(c.size, c.hop, stretch, first, k + 1) + Cut(CutOne(c)).1;
    }
  }

  /** Windows already taken do not change when the stretch grows. */
  lemma {:induction false} WindowsOfLongerStretch(size: nat, hop: nat, a: Block, b: Block, first: nat, k: nat)
    requires 0 < hop && k <= LineCount(size, hop, |a.samples|)
    ensures k <= LineCount(size, hop, |Joined(a, b).samples|)
    ensures Windows(size, hop, Joined(a, b), first, k) == Windows(size, hop, a, first, k)
  {
    if k > 0 {
      LineFits(size, hop, |a.samples|, k - 1);
      LineFits(size, hop, |Joined(a, b).samples|, k - 1);
      ProductGrows(0, k - 1, hop);
      WindowsOfLongerStretch(size, hop, a, b, first, k - 1);
      SliceOfPrefix(a.samples, b.samples, (k - 1) * hop, size);
    }
  }

  lemma SliceOfPrefix(s: seq<Sample>, t: seq<Sample>, at: nat, size: nat)
    requires at + size <= |s|
    ensures (s + t)[at..at + size] == s[at..at + size]
  {
  }

  ghost predicate Meets(c: Cutter, lines: seq<Line>, r: Reference)
    requires 0 < c.hop
  {
    && lines == Lines(c.size, c.hop, r) && c.lines == |lines|
    && match r.stretch
       case None => c.next.None?
       case Some(s) => Tracks(c, s, |r.earlier|, LineCount(c.size, c.hop, |s.samples|))
  }

  lemma {:induction false} WindowsLength(size: nat, hop: nat, stretch: Block, first: nat, k: nat)
    requires 0 < hop && k <= LineCount(size, hop, |stretch.samples|)
    ensures |Windows(size, hop, stretch, first, k)| == k
  {
    if k > 0 {
      WindowsLength(size, hop, stretch, first, k - 1);
    }
  }

  lemma PushContinues(c: Cutter, lines: seq<Line>, r: Reference, b: Block)
    requires ValidShape(c.size, c.hop) && c.hop <= c.size && Meets(c, lines, r)
    requires r.stretch.Some? && Adjacent(r.stretch.value, b)
    ensures var (d, more) := Pushed(c, b);
            d.size == c.size && d.hop == c.hop
            && Meets(d, lines + more, Reference(r.earlier, Some(Joined(r.stretch.value, b))))
  {
    var a := r.stretch.value;
    var k := LineCount(c.size, c.hop, |a.samples|);
    var first := |r.earlier|;
    CutKeepsShape(Placed(c, b));
    WindowsOfLongerStretch(c.size, c.hop, a, b, first, k);
    CutTakesAllWindows(Placed(c, b), Joined(a, b), first, k);
    WindowsLength(c.size, c.hop, Joined(a, b), first, LineCount(c.size, c.hop, |Joined(a, b).samples|));
    AppendAssociates(r.earlier, Windows(c.size, c.hop, a, first, k), Pushed(c, b).1);
  }

  lemma AppendAssociates(a: seq<Line>, b: seq<Line>, c: seq<Line>)
    ensures (a + b) + c == a + (b + c)
  {
  }

  lemma PushRestarts(c: Cutter, lines: seq<Line>, r: Reference, b: Block)
    requires ValidShape(c.size, c.hop) && c.hop <= c.size && Meets(c, lines, r)
    requires r.stretch.None? || !Adjacent(r.stretch.value, b)
    ensures var (d, more) := Pushed(c, b);
            d.size == c.size && d.hop == c.hop && Meets(d, lines + more, Reference(lines, Some(b)))
  {
    CutKeepsShape(Placed(c, b));
    assert b.samples[0..] == b.samples;
    CutTakesAllWindows(Placed(c, b), b, |lines|, 0);
    WindowsLength(c.size, c.hop, b, |lines|, LineCount(c.size, c.hop, |b.samples|));
    assert [] + Pushed(c, b).1 == Pushed(c, b).1;
  }

  /**
   * Whatever the blocks and wherever the gaps: the lines are the windows of each gap-free stretch, `hop` apart from
   * its first sample, numbered through, and no window spans a gap.
   */
  lemma {:induction false} CutsByPosition(size: nat, hop: nat, blocks: seq<Block>)
    requires ValidShape(size, hop) && hop <= size
    ensures Meets(PushAll(size, hop, blocks).0, PushAll(size, hop, blocks).1, Refer(size, hop, blocks))
  {
    if blocks != [] {
      var init, b := blocks[..|blocks| - 1], blocks[|blocks| - 1];
      CutsByPosition(size, hop, init);
      var (c, lines) := PushAll(size, hop, init);
      var r := Refer(size, hop, init);
      if r.stretch.Some? && Adjacent(r.stretch.value, b) {
        PushContinues(c, lines, r, b);
      } else {
        PushRestarts(c, lines, r, b);
      }
    }
  }

  // ---- splitting a gap-free stream ------------------------------------------

  /** The blocks are one stretch starting at `start`, cut into pieces in any way. */
  ghost predicate Splits(blocks: seq<Block>, start: int, stream: seq<Sample>)
    decreases |blocks|
  {
    if blocks == [] then stream == []
    else
      var b := blocks[|blocks| - 1];
      && |b.samples| <= |stream|
      && b.samples == stream[|stream| - |b.samples|..]
      && b.start == start + |stream| - |b.samples|
      && Splits(blocks[..|blocks| - 1], start, stream[..|stream| - |b.samples|])
  }

  lemma {:induction false} SplitIsOneStretch(size: nat, hop: nat, blocks: seq<Block>, start: int, stream: seq<Sample>)
    requires 0 < hop && blocks != [] && Splits(blocks, start, stream)
    ensures Refer(size, hop, blocks) == Reference([], Some(Block(start, stream)))
    decreases |blocks|
  {
    var init, b := blocks[..|blocks| - 1], blocks[|blocks| - 1];
    var head := stream[..|stream| - |b.samples|];
    assert head + b.samples == stream;
    if init == [] {
      assert b == Block(start, stream);
    } else {
      SplitIsOneStretch(size, hop, init, start, head);
    }
  }

  /** Frame `k` covers exactly `size` samples from `start + k * hop`, with number `k`, however the stream is split. */
  lemma SplitDoesNotMatter(size: nat, hop: nat, blocks: seq<Block>, start: int, stream: seq<Sample>)
    requires ValidShape(size, hop) && hop <= size && blocks != [] && Splits(blocks, start, stream)
    ensures PushAll(size, hop, blocks).1 == AllWindows(size, hop, Block(start, stream), 0)
  {
    CutsByPosition(size, hop, blocks);
    SplitIsOneStretch(size, hop, blocks, start, stream);
  }

  lemma {:induction false} WindowAt(size: nat, hop: nat, stretch: Block, first: nat, k: nat, i: nat)
    requires 0 < hop && i < k <= LineCount(size, hop, |stretch.samples|)
    ensures |Windows(size, hop, stretch, first, k)| == k && 0 <= i * hop && i * hop + size <= |stretch.samples|
    ensures Windows(size, hop, stretch, first, k)[i]
         == Line(first + i, stretch.start + i * hop, stretch.samples[i * hop..i * hop + size])
  {
    WindowsLength(size, hop, stretch, first, k);
    WindowsLength(size, hop, stretch, first, k - 1);
    LineFits(size, hop, |stretch.samples|, i);
    ProductGrows(0, i, hop);
    if i < k - 1 {
      WindowAt(size, hop, stretch, first, k - 1, i);
    }
  }

  ghost predicate SplitInvariant(size: nat, hop: nat)
    requires ValidShape(size, hop)
  {
    forall a, b, start, stream |
      a != [] && b != [] && Splits(a, start, stream) && Splits(b, start, stream) ::
      PushAll(size, hop, a).1 == PushAll(size, hop, b).1
  }

  /** With windows further apart than they are long, a split after the first window moves the second one. */
  lemma WideHopSplit(size: nat, hop: nat)
    requires ValidShape(size, hop) && size < hop
    ensures var stream := seq(size + hop, _ => 0);
            var whole, parts := [Block(0, stream)], [Block(0, stream[..size]), Block(size, stream[size..])];
            && Splits(whole, 0, stream) && Splits(parts, 0, stream)
            && PushAll(size, hop, whole).1 != PushAll(size, hop, parts).1
  {
    var stream: seq<Sample> := seq(size + hop, _ => 0);
    var whole, parts := [Block(0, stream)], [Block(0, stream[..size]), Block(size, stream[size..])];
    assert whole[..0] == [] && parts[..1] == [parts[0]] && [parts[0]][..0] == [];
    assert stream[0..] == stream && stream[..size][0..] == stream[..size];
    assert Splits([parts[0]], 0, stream[..size]);
    FirstPush(size, hop, whole[0]);
    FirstPush(size, hop, parts[0]);
    assert whole == [whole[0]];
    var p := Placed(NewCutter(size, hop), whole[0]);
    var c := CutOne(p);
    assert Cut(p).1 == [Line(0, 0, p.buffer[..size])] + Cut(c).1;
    assert |c.buffer| == size && Cut(c).1[0] == Line(1, hop, c.buffer[..size]);
    assert PushAll(size, hop, whole).1[1] == Line(1, hop, c.buffer[..size]);
    var first := PushAll(size, hop, [parts[0]]);
    assert Cut(CutOne(Placed(NewCutter(size, hop), parts[0]))).1 == [];
    assert first.0.next == Some(hop) && first.0.buffer == [] && |first.1| == 1;
    var both := PushAll(size, hop, parts);
    assert both.1 == first.1 + Pushed(first.0, parts[1]).1;
    assert both.1[1].index == size;
  }

  lemma FirstPush(size: nat, hop: nat, b: Block)
    requires ValidShape(size, hop)
    ensures PushAll(size, hop, [b]).0 == Pushed(NewCutter(size, hop), b).0
    ensures PushAll(size, hop, [b]).1 == Pushed(NewCutter(size, hop), b).1
  {
    assert [b][..0] == [];
    assert PushAll(size, hop, []).1 + Pushed(NewCutter(size, hop), b).1 == Pushed(NewCutter(size, hop), b).1;
  }

  /** The lines depend on the stream alone, not on its blocks, exactly when the hop is at most the window. */
  lemma SplitInvariantExactlyWhen(size: nat, hop: nat)
    requires ValidShape(size, hop)
    ensures SplitInvariant(size, hop) <==> hop <= size
  {
    if hop <= size {
      forall a, b, start, stream |
        a != [] && b != [] && Splits(a, start, stream) && Splits(b, start, stream)
        ensures PushAll(size, hop, a).1 == PushAll(size, hop, b).1
      {
        SplitDoesNotMatter(size, hop, a, start, stream);
        SplitDoesNotMatter(size, hop, b, start, stream);
      }
    } else {
      WideHopSplit(size, hop);
    }
  }

  lemma AppendFirst(frames: seq<Line>, first: Line, rest: seq<Line>, all: seq<Line>)
    requires all == [first] + rest
    ensures frames + all == frames + [first] + rest
  {
  }

  lemma CutUnfolds(c: Cutter)
    requires ValidShape(c.size, c.hop) && c.size <= |c.buffer|
    ensures Cut(c).0 == Cut(CutOne(c)).0
    ensures Cut(c).1 == [Line(c.lines, c.next.GetOr(0), c.buffer[..c.size])] + Cut(CutOne(c)).1
  {
  }

  lemma CutFirst(c: Cutter, frames: seq<Line>, d: Cutter, line: Line)
    requires ValidShape(c.size, c.hop) && c.size <= |c.buffer|
    requires d == CutOne(c) && line == Line(c.lines, c.next.GetOr(0), c.buffer[..c.size])
    ensures Cut(c).0 == Cut(d).0 && frames + Cut(c).1 == frames + [line] + Cut(d).1
  {
    CutUnfolds(c);
    AppendFirst(frames, line, Cut(d).1, Cut(c).1);
  }

  // ---- the object ------------------------------------------------------------

  class SpectrumComputer {
    const fftSize: nat
    const hop: nat
    var buf: seq<Sample>
    var nextIndex: Option<int>
    var seqNo: nat

    function View(): Cutter
      reads this
    {
      Cutter(fftSize, hop, buf, nextIndex, seqNo)
    }

    constructor (fftSize: nat, hop: nat)
      requires ValidShape(fftSize, hop)
      ensures View() == NewCutter(fftSize, hop)
    {
      this.fftSize, this.hop := fftSize, hop;
      buf, nextIndex, seqNo := [], None, 0;
    }

    /** Append one block and return the lines it completes. */
    method Push(pcm: seq<Sample>, startIndex: int) returns (frames: seq<Line>)
      requires ValidShape(fftSize, hop)
      modifies this
      ensures View() == Pushed(old(View()), Block(startIndex, pcm)).0
      ensures frames == Pushed(old(View()), Block(startIndex, pcm)).1
    {
      if nextIndex.None? || startIndex != nextIndex.value + |buf| {
        buf := pcm;
        nextIndex := Some(startIndex);
      } else {
        buf := buf + pcm;
      }
      ghost var placed := View();
      frames := [];
      while |buf| >= fftSize
        invariant View().size == fftSize && View().hop == hop
        invariant Cut(placed).0 == Cut(View()).0 && Cut(placed).1 == frames + Cut(View()).1
        decreases |buf|
      {
        ghost var c := View();
        CutFirst(c, frames, CutOne(c), Line(seqNo, nextIndex.GetOr(0), buf[..fftSize]));
        frames := frames + [Line(seqNo, nextIndex.GetOr(0), buf[..fftSize])];
        buf := buf[Min(hop, |buf|)..];
        nextIndex := Some(nextIndex.GetOr(0) + hop);
        seqNo := seqNo + 1;
        assert View() == CutOne(c);
      }
    }
  }
}
