/** From the sound card to the slot reader: block epochs, conversion, ring; and what a slot then contains. */
module Capture {
  import opened Prelude
  import opened Ring
  import opened Rx

  const RESYNC_THRESHOLD := 0.25

  /** The sound card's own timestamps, when it has them. */
  datatype TimeInfo = NoTime | AdcTime(adc: real, current: real)

  function Distance(a: real, b: real): real { if a < b then b - a else a - b }

  /** The sample-count chain: continue it unless it is new or the measured time disagrees too much. */
  function ChainEpoch(next: Option<real>, measured: real): real {
    if next == None || Distance(measured, next.value) > RESYNC_THRESHOLD then measured else next.value
  }

  function PositionOf(epoch: real): int { RoundHalfEven(epoch * 12000.0) }

  function Normalized(raw: seq<int>): seq<real> {
    seq(|raw|, i requires 0 <= i < |raw| => raw[i] as real / 32768.0)
  }

  /** A sample taken `epoch` seconds after the origin goes to the nearest of 12000 positions a second. */
  lemma PositionIsNearest(epoch: real)
    ensures -0.5 <= PositionOf(epoch) as real - 12000.0 * epoch <= 0.5
  {
    RoundsToNearest(epoch * 12000.0);
  }

  /** Full scale of the sound card is one: a 16-bit sample comes out in [-1, 1), in proportion. */
  lemma NormalizedToOne(raw: seq<int>, i: nat)
    requires i < |raw| && -32768 <= raw[i] <= 32767
    ensures -1.0 <= Normalized(raw)[i] < 1.0 && Normalized(raw)[i] * 32768.0 == raw[i] as real
  {
  }

  // ---- positions of chained blocks -------------------------------------

  /** Moving an epoch by `m` whole output samples moves its position by `m`, except for odd `m` on an exact half. */
  lemma RoundShiftsExactly(x: real, m: int)
    ensures RoundHalfEven(x + m as real) == RoundHalfEven(x) + m
            <==> m % 2 == 0 || x - x.Floor as real != 0.5
  {
    assert (x + m as real).Floor == x.Floor + m;
  }

  lemma ChainedPosition(anchor: real, n: int)
    requires n % 8 == 0
    ensures PositionOf(anchor + n as real / 48000.0) == PositionOf(anchor) + n / 4
  {
    var x := anchor * 12000.0;
    assert n == 4 * (n / 4);
    assert (n as real) == 4.0 * (n / 4) as real;
    assert (anchor + n as real / 48000.0) * 12000.0 == x + (n / 4) as real;
    RoundShiftsExactly(x, n / 4);
  }

  // ---- a stream without a seam -----------------------------------------

  /** The blocks written so far are exactly `stream`, placed from position `from` on, without gap or drop. */
  ghost predicate Seamless(hist: seq<Block>, from: int, stream: seq<int>) {
    && (forall i :: At(hist, i) == if from <= i < from + |stream| then Some(stream[i - from]) else None)
    && (hist == [] <==> stream == [])
    && (hist != [] ==> hist[0].first == from && High(hist) == from + |stream|)
  }

  lemma SeamlessAppend(hist: seq<Block>, from: int, stream: seq<int>, data: seq<int>, capacity: int)
    requires Seamless(hist, from, stream) && data != [] && capacity > 0
    ensures var b := Block(from + |stream|, data);
            && Seamless(hist + [b], from, stream + data)
            && Dropped(hist, b, capacity) == 0 && !OpensGap(hist, b)
  {
    var b := Block(from + |stream|, data);
    var h := hist + [b];
    forall i ensures At(h, i) == if from <= i < from + |stream + data| then Some((stream + data)[i - from]) else None {
      AtSnoc(hist, b, i);
    }
    if hist == [] {
      assert h == [b];
    } else {
      HighSnoc(hist, b);
      BaseBelowHigh(hist, capacity);
    }
  }

  /** Since `anchor` the input has run without a seam into the ring, in blocks that keep the decimator in phase. */
  ghost predicate InLock(next: real, anchor: real, hist: seq<Block>, capacity: int, taps: seq<real>, input: seq<real>) {
    && next == anchor + |input| as real / 48000.0
    && |input| % 8 == 0
    && Seamless(hist, PositionOf(anchor), Reference(taps, input))
    && DroppedTotal(hist, capacity) == 0 && GapTotal(hist) == 0
  }

  function Written(hist: seq<Block>, first: int, data: seq<int>): seq<Block> {
    if data == [] then hist else hist + [Block(first, data)]
  }

  lemma LockStarts(anchor: real, capacity: int, taps: seq<real>)
    requires capacity > 0
    ensures InLock(anchor, anchor, [], capacity, taps, [])
  {
    assert Reference(taps, []) == [];
  }

  lemma NextPosition(anchor: real, n: nat)
    requires n % 8 == 0
    ensures PositionOf(anchor + n as real / 48000.0) == PositionOf(anchor) + DecimatedLength(n)
  {
    InPhase(n, 0);
    ChainedPosition(anchor, n);
  }

  lemma LaterEpoch(anchor: real, n: nat, m: nat)
    ensures anchor + n as real / 48000.0 + m as real / 48000.0 == anchor + (n + m) as real / 48000.0
  {
    assert (n + m) as real == n as real + m as real;
  }

  lemma LockContinues(next: real, anchor: real, hist: seq<Block>, capacity: int, taps: seq<real>, input: seq<real>,
                      pcm: seq<real>, out: seq<int>)
    requires InLock(next, anchor, hist, capacity, taps, input) && capacity > 0 && |pcm| % 8 == 0
    requires Reference(taps, input + pcm) == Reference(taps, input) + out
    ensures InLock(next + |pcm| as real / 48000.0, anchor, Written(hist, PositionOf(next), out), capacity, taps,
                   input + pcm)
  {
    var stream := Reference(taps, input);
    NextPosition(anchor, |input|);
    SeamlessWriteAt(hist, PositionOf(anchor), PositionOf(next), stream, out, capacity);
    LaterEpoch(anchor, |input|, |pcm|);
    InPhase(|input|, |pcm|);
  }

  lemma EightsDecimate(a: nat)
    ensures DecimatedLength(8 * a) == 2 * a && (8 * a) % 8 == 0
  {
  }

  lemma InPhase(n: nat, m: nat)
    requires n % 8 == 0 && m % 8 == 0
    ensures DecimatedLength(n) == n / 4 && (n + m) % 8 == 0
  {
    var a, b := n / 8, m / 8;
    EightsDecimate(a);
    EightsDecimate(a + b);
    assert 8 * (a + b) == 8 * a + 8 * b == n + m;
  }

  lemma SeamlessWrite(hist: seq<Block>, from: int, stream: seq<int>, out: seq<int>, capacity: int)
    requires Seamless(hist, from, stream) && capacity > 0
    requires DroppedTotal(hist, capacity) == 0 && GapTotal(hist) == 0
    ensures var h := Written(hist, from + |stream|, out);
            Seamless(h, from, stream + out) && DroppedTotal(h, capacity) == 0 && GapTotal(h) == 0
  {
    if out == [] {
      assert stream + out == stream;
    } else {
      SeamlessAppend(hist, from, stream, out, capacity);
      Totals(hist, Block(from + |stream|, out), capacity);
    }
  }

  lemma SeamlessWriteAt(hist: seq<Block>, from: int, at: int, stream: seq<int>, out: seq<int>, capacity: int)
    requires Seamless(hist, from, stream) && capacity > 0 && at == from + |stream|
    requires DroppedTotal(hist, capacity) == 0 && GapTotal(hist) == 0
    ensures var h := Written(hist, at, out);
            Seamless(h, from, stream + out) && DroppedTotal(h, capacity) == 0 && GapTotal(h) == 0
  {
    SeamlessWrite(hist, from, stream, out, capacity);
  }

  // ---- the capture object ----------------------------------------------

  /** Wall-clock offset of the sound card's clock, calibrated once and again after a step. */
  function Calibrated(offset: Option<real>, current: real, clock: real): real {
    if offset == None || Distance(clock - current, offset.value) > RESYNC_THRESHOLD then clock - current
    else offset.value
  }

  /** Measured wall time of a block's first sample. */
  function Measured(offset: Option<real>, frames: nat, time: TimeInfo, clock: real): real {
    if Timed(time) then time.adc + Calibrated(offset, time.current, clock)
    else clock - frames as real / 48000.0
  }

  /** Whether a callback carries usable timestamps; zero stands for none. */
  predicate Timed(time: TimeInfo) { time.AdcTime? && time.adc > 0.0 && time.current > 0.0 }

  datatype Callback = Callback(frames: nat, time: TimeInfo, clock: real)

  /** What the capture remembers from one callback to the next: the end of the chain and the calibrated offset. */
  datatype Timing = Timing(next: Option<real>, offset: Option<real>)

  const UNTIMED := Timing(None, None)

  /** One callback: the new memory, and the epoch of the block's first sample. */
  function Stamp(t: Timing, b: Callback): (Timing, real) {
    var epoch := ChainEpoch(t.next, Measured(t.offset, b.frames, b.time, b.clock));
    (Timing(Some(epoch + b.frames as real / 48000.0),
            if Timed(b.time) then Some(Calibrated(t.offset, b.time.current, b.clock)) else t.offset),
     epoch)
  }

  function After(t: Timing, bs: seq<Callback>): Timing {
    if bs == [] then t else Stamp(After(t, bs[..|bs| - 1]), bs[|bs| - 1]).0
  }

  /** The epoch of block `k` of a run. */
  function EpochAt(t: Timing, bs: seq<Callback>, k: nat): real
    requires k < |bs|
  {
    Stamp(After(t, bs[..k]), bs[k]).1
  }

  // ---- what the epochs say ------------------------------------------------

  /** When the first sample of a timed block was taken: its age on the card's clock, before the callback's own time. */
  function TakenAt(b: Callback): real
    requires Timed(b.time)
  {
    b.clock - (b.time.current - b.time.adc)
  }

  /** The wall clock against the card's own, as one callback sees it. */
  function Skew(b: Callback): real
    requires Timed(b.time)
  {
    b.clock - b.time.current
  }

  /**
   * In any state and however late it is delivered, a timed block is stamped within half a second, twice the threshold,
   * of the instant it was taken, an untimed one within a quarter of its length before the callback.
   */
  lemma StampedWhenTaken(t: Timing, bs: seq<Callback>, k: nat)
    requires k < |bs|
    ensures Timed(bs[k].time) ==> Distance(EpochAt(t, bs, k), TakenAt(bs[k])) <= 0.5
    ensures !Timed(bs[k].time) ==>
              Distance(EpochAt(t, bs, k) + bs[k].frames as real / 48000.0, bs[k].clock) <= 0.25
  {
    StampIsNear(After(t, bs[..k]), bs[k]);
  }

  lemma StampIsNear(t: Timing, b: Callback)
    ensures Timed(b.time) ==>
              var offset := Stamp(t, b).0.offset;
              && offset.Some? && Distance(offset.value, Skew(b)) <= RESYNC_THRESHOLD
              && Distance(Stamp(t, b).1, b.time.adc + offset.value) <= RESYNC_THRESHOLD
    ensures !Timed(b.time) ==>
              Distance(Stamp(t, b).1 + b.frames as real / 48000.0, b.clock) <= RESYNC_THRESHOLD
  {
  }

  /** A timestamp of zero or less is none. */
  lemma ZeroTimesAreNone(t: Timing, frames: nat, adc: real, current: real, clock: real)
    ensures adc <= 0.0 || current <= 0.0 ==>
              Stamp(t, Callback(frames, AdcTime(adc, current), clock)) == Stamp(t, Callback(frames, NoTime, clock))
  {
  }

  /** Every block is timed, and the clocks stay within the threshold of how they stood at the first. */
  predicate SteadyClocks(bs: seq<Callback>) {
    && (forall k | 0 <= k < |bs| :: Timed(bs[k].time))
    && (forall k | 0 <= k < |bs| :: Distance(Skew(bs[k]), Skew(bs[0])) <= RESYNC_THRESHOLD)
  }

  /**
   * While the clocks are steady the first block's skew is kept: the first block is stamped with its sampling instant
   * exactly, every later one within the threshold of its sampling instant by that skew. Delivery times do not enter.
   */
  lemma {:induction false} SteadyClocksStampByAdc(bs: seq<Callback>, k: nat)
    requires k < |bs| && SteadyClocks(bs)
    ensures k == 0 ==> EpochAt(UNTIMED, bs, 0) == TakenAt(bs[0])
    ensures Distance(EpochAt(UNTIMED, bs, k), bs[k].time.adc + Skew(bs[0])) <= RESYNC_THRESHOLD
    ensures After(UNTIMED, bs[..k + 1]).offset == Some(Skew(bs[0]))
  {
    assert bs[..k + 1][..k] == bs[..k] && bs[..k + 1][k] == bs[k];
    if k == 0 {
      assert bs[..0] == [];
    } else {
      SteadyClocksStampByAdc(bs, k - 1);
    }
  }

  /** Block `k` starts where the one before it ended, on the card's clock. */
  predicate Continues(bs: seq<Callback>, k: nat)
    requires SteadyClocks(bs) && 0 < k < |bs|
  {
    bs[k].time.adc == bs[k - 1].time.adc + bs[k - 1].frames as real / 48000.0
  }

  /** No sample is lost between blocks. */
  predicate Contiguous(bs: seq<Callback>)
    requires SteadyClocks(bs)
  {
    forall k | 0 < k < |bs| :: Continues(bs, k)
  }

  /** Then every block, backlog included, is stamped with its sampling instant exactly, and the chain never breaks. */
  lemma {:induction false} ContiguousStreamNeverReanchors(bs: seq<Callback>, k: nat)
    requires k < |bs| && SteadyClocks(bs) && Contiguous(bs)
    ensures EpochAt(UNTIMED, bs, k) == bs[k].time.adc + Skew(bs[0])
    ensures k > 0 ==> After(UNTIMED, bs[..k]).next == Some(EpochAt(UNTIMED, bs, k))
  {
    SteadyClocksStampByAdc(bs, k);
    if k > 0 {
      assert Continues(bs, k);
      ContiguousStreamNeverReanchors(bs, k - 1);
      SteadyClocksStampByAdc(bs, k - 1);
      assert bs[..k][..k - 1] == bs[..k - 1] && bs[..k][k - 1] == bs[k - 1];
    }
  }

  /** Audio lost between two blocks is seen exactly when it moves the sampling instant beyond the threshold. */
  lemma LossReanchorsExactlyWhen(bs: seq<Callback>, k: nat)
    requires 0 < k < |bs| && SteadyClocks(bs)
    ensures var due := After(UNTIMED, bs[..k]).next;
            && due.Some?
            && (EpochAt(UNTIMED, bs, k) != due.value
                <==> Distance(bs[k].time.adc + Skew(bs[0]), due.value) > RESYNC_THRESHOLD)
            && (EpochAt(UNTIMED, bs, k) != due.value ==> EpochAt(UNTIMED, bs, k) == bs[k].time.adc + Skew(bs[0]))
  {
    SteadyClocksStampByAdc(bs, k);
    SteadyClocksStampByAdc(bs, k - 1);
    assert bs[..k][..k - 1] == bs[..k - 1] && bs[..k][k - 1] == bs[k - 1];
  }

  class AudioCapture {
    const ring: UtcRing
    const converter: RxConverter
    var nextEpoch: Option<real>
    var adcOffset: Option<real>

    ghost predicate Valid()
      reads this, ring, ring.buffer, converter
    {
      ring.Valid() && converter.Valid()
    }

    ghost predicate Locked(anchor: real)
      reads this, ring, converter
    {
      nextEpoch.Some? && InLock(nextEpoch.value, anchor, ring.hist, ring.capacity, converter.taps, converter.input)
    }

    constructor (ring: UtcRing, converter: RxConverter)
      requires ring.Valid() && converter.Valid()
      ensures Valid() && this.ring == ring && this.converter == converter && nextEpoch == None
    {
      this.ring, this.converter := ring, converter;
      nextEpoch, adcOffset := None, None;
    }

    method BlockEpoch(frames: nat, time: TimeInfo, clock: real) returns (epoch: real)
      modifies `nextEpoch, `adcOffset
      ensures (Timing(nextEpoch, adcOffset), epoch)
              == Stamp(Timing(old(nextEpoch), old(adcOffset)), Callback(frames, time, clock))
      ensures Timed(time) ==> Distance(epoch, TakenAt(Callback(frames, time, clock))) <= 2.0 * RESYNC_THRESHOLD
      ensures !Timed(time) ==> Distance(epoch + frames as real / 48000.0, clock) <= RESYNC_THRESHOLD
    {
      var measured;
      if time.AdcTime? && time.adc > 0.0 && time.current > 0.0 {
        if adcOffset == None {
          adcOffset := Some(clock - time.current);
        } else if Distance(clock - time.current, adcOffset.value) > RESYNC_THRESHOLD {
          adcOffset := Some(clock - time.current);
        }
        measured := time.adc + adcOffset.value;
      } else {
        measured := clock - frames as real / 48000.0;
      }
      if nextEpoch == None || Distance(measured, nextEpoch.value) > RESYNC_THRESHOLD {
        nextEpoch := Some(measured);
      }
      epoch := nextEpoch.value;
      nextEpoch := Some(epoch + frames as real / 48000.0);
    }

    /** Convert one block and write what comes out at the block's position. */
    method Store(raw: seq<int>, epoch: real) returns (ghost converted: seq<int>)
      requires Valid()
      modifies ring, ring.buffer, converter
      ensures Valid() && converter.input == old(converter.input) + Normalized(raw)
      ensures Reference(converter.taps, converter.input) == Reference(converter.taps, old(converter.input)) + converted
      ensures ring.hist == Written(old(ring.hist), PositionOf(epoch), converted)
    {
      var out := converter.Push(Normalized(raw));
      ring.Write(out, RoundHalfEven(epoch * 12000.0));
      converted := out;
    }

    /** One callback: stamp the block, convert it, write it. A block that continues a locked stream keeps it locked. */
    method OnBlock(raw: seq<int>, time: TimeInfo, clock: real, ghost anchor: real)
      requires Valid()
      modifies this, ring, ring.buffer, converter
      ensures Valid() && converter.input == old(converter.input) + Normalized(raw)
      ensures var (timing, epoch) := Stamp(Timing(old(nextEpoch), old(adcOffset)), Callback(|raw|, time, clock));
              && Timing(nextEpoch, adcOffset) == timing
              && (old(Locked(anchor)) && |raw| % 8 == 0 && old(nextEpoch) == Some(epoch) ==> Locked(anchor))
              && (old(converter.input) == [] && old(ring.hist) == [] && |raw| % 8 == 0 ==> Locked(epoch))
    {
      var blockEpoch := BlockEpoch(|raw|, time, clock);
      ghost var converted := Store(raw, blockEpoch);
      if |raw| % 8 == 0 {
        if old(Locked(anchor)) && blockEpoch == old(nextEpoch.value) {
          LockContinues(blockEpoch, anchor, old(ring.hist), ring.capacity, converter.taps, old(converter.input),
                        Normalized(raw), converted);
        }
        if old(converter.input) == [] && old(ring.hist) == [] {
          LockStarts(blockEpoch, ring.capacity, converter.taps);
          LockContinues(blockEpoch, blockEpoch, [], ring.capacity, converter.taps, [], Normalized(raw), converted);
        }
      }
    }

    /** A slot of a locked stream is readable exactly while it is retained, and equals the one-shot conversion. */
    method ReadSlot(slotId: int, ghost anchor: real) returns (r: Option<seq<int>>)
      requires Valid() && Locked(anchor)
      ensures var from, n, all := PositionOf(anchor), ring.slotSamples, Reference(converter.taps, converter.input);
              var first := slotId * n;
              && (r.Some? <==> Max(from, from + |all| - ring.capacity) <= first && first + n <= from + |all|)
              && (r.Some? ==> r.value == all[first - from..first - from + n])
    {
      ghost var from, n, all := PositionOf(anchor), ring.slotSamples, Reference(converter.taps, converter.input);
      ghost var first := slotId * n;
      r := ring.ReadSlot(slotId);
      LockedSlot(ring.hist, ring.capacity, from, all, first, n);
      if r.Some? {
        SlotOfStream(ring.hist, from, all, first, r.value);
      }
    }
  }

  lemma SlotOfStream(hist: seq<Block>, from: int, stream: seq<int>, first: int, slot: seq<int>)
    requires Seamless(hist, from, stream) && from <= first && first + |slot| <= from + |stream|
    requires forall k | 0 <= k < |slot| :: At(hist, first + k) == Some(slot[k])
    ensures slot == stream[first - from..first - from + |slot|]
  {
    forall k | 0 <= k < |slot| ensures slot[k] == stream[first - from + k] {
      assert At(hist, first + k) == Some(slot[k]);
    }
  }

  lemma LockedSlot(hist: seq<Block>, capacity: int, from: int, stream: seq<int>, first: int, count: int)
    requires Seamless(hist, from, stream) && capacity > 0 && count > 0
    ensures SlotRetained(hist, capacity, first, count)
            <==> Max(from, from + |stream| - capacity) <= first && first + count <= from + |stream|
  {
    if SlotRetained(hist, capacity, first, count) {
      assert Retained(hist, capacity, first) && Retained(hist, capacity, first + count - 1);
    }
  }
}
