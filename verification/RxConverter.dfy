/** The streaming 48 kHz to 12 kHz converter: filter state carried across blocks, every fourth sample kept. */
module Rx {
  import opened Prelude

  // ---- the one-shot reference ------------------------------------------

  /** FIR response to everything heard so far: tap `k` meets the newest sample, tap `k + 1` the one before, ... */
  function Fir(taps: seq<real>, k: nat, heard: seq<real>): real
    decreases |heard|
  {
    if k >= |taps| || heard == [] then 0.0
    else taps[k] * heard[|heard| - 1] + Fir(taps, k + 1, heard[..|heard| - 1])
  }

  function Silence(n: nat): (zeros: seq<real>)
    ensures |zeros| == n
  {
    seq(n, _ => 0.0)
  }

  /** A unit impulse comes out as the taps, one after the other. */
  lemma {:induction false} FirOfImpulse(taps: seq<real>, k: nat, n: nat)
    ensures Fir(taps, k, [1.0] + Silence(n)) == if k + n < |taps| then taps[k + n] else 0.0
    decreases n
  {
    var heard := [1.0] + Silence(n);
    if n == 0 {
      assert heard == [1.0] && heard[..0] == [];
    } else {
      assert heard[..n] == [1.0] + Silence(n - 1);
      if k < |taps| {
        FirOfImpulse(taps, k + 1, n - 1);
      }
    }
  }

  function Mixed(a: seq<real>, b: seq<real>, gain: real): seq<real>
    requires |a| == |b|
  {
    seq(|a|, i requires 0 <= i < |a| => a[i] + gain * b[i])
  }

  lemma MixedFront(a: seq<real>, b: seq<real>, gain: real, n: nat)
    requires |a| == |b| && n <= |a|
    ensures Mixed(a, b, gain)[..n] == Mixed(a[..n], b[..n], gain)
  {
    forall i | 0 <= i < n ensures Mixed(a, b, gain)[i] == Mixed(a[..n], b[..n], gain)[i] {
      assert a[..n][i] == a[i] && b[..n][i] == b[i];
    }
  }

  /** The filter is linear, so its answer to impulses settles its answer to everything. */
  lemma {:induction false} FirIsLinear(taps: seq<real>, k: nat, a: seq<real>, b: seq<real>, gain: real)
    requires |a| == |b|
    ensures Fir(taps, k, Mixed(a, b, gain)) == Fir(taps, k, a) + gain * Fir(taps, k, b)
    decreases |a|
  {
    if k < |taps| && a != [] {
      var n := |a| - 1;
      MixedFront(a, b, gain, n);
      FirIsLinear(taps, k + 1, a[..n], b[..n], gain);
      Distributes(taps[k], a[n], b[n], gain, Fir(taps, k + 1, a[..n]), Fir(taps, k + 1, b[..n]));
    }
  }

  lemma Distributes(t: real, x: real, y: real, gain: real, p: real, q: real)
    ensures t * (x + gain * y) + (p + gain * q) == (t * x + p) + gain * (t * y + q)
  {
  }

  function RoundHalfEven(x: real): int {
    var f := x.Floor;
    var d := x - f as real;
    if d < 0.5 || (d == 0.5 && f % 2 == 0) then f else f + 1
  }

  function Quantize(y: real): int { Max(-32768, Min(32767, RoundHalfEven(y * 32767.0))) }

  /** The nearest whole number, an exact half going to the even one. */
  lemma RoundsToNearest(x: real)
    ensures -0.5 <= RoundHalfEven(x) as real - x <= 0.5
    ensures RoundHalfEven(x) as real - x in {-0.5, 0.5} ==> RoundHalfEven(x) % 2 == 0
  {
  }

  /** Full scale maps to the ends of the 16-bit range; what lies within is rounded, what lies beyond is clipped. */
  lemma QuantizesWithinRange(y: real)
    ensures -32768 <= Quantize(y) <= 32767
    ensures -1.0 <= y <= 1.0 ==> -0.5 <= Quantize(y) as real - y * 32767.0 <= 0.5
    ensures y > 1.0 ==> Quantize(y) == 32767
    ensures y < -2.0 ==> Quantize(y) == -32768
  {
    RoundsToNearest(y * 32767.0);
  }

  function DecimatedLength(n: nat): nat { (n + 3) / 4 }

  /** Filter the whole input at once and keep positions 0, 4, 8, ... */
  function Reference(taps: seq<real>, input: seq<real>): (out: seq<int>)
    ensures |out| == DecimatedLength(|input|)
  {
    seq(DecimatedLength(|input|), m requires 0 <= m < DecimatedLength(|input|) =>
          Quantize(Fir(taps, 0, input[..4 * m + 1])))
  }

  // ---- the converter ---------------------------------------------------

  class RxConverter {
    const taps: seq<real>
    var zi: seq<real>
    var consumed: nat
    ghost var input: seq<real>

    /** Each delay cell holds the contribution of the samples heard so far to a later output. */
    ghost predicate Valid()
      reads this
    {
      && taps != [] && |zi| == |taps| - 1 && consumed == |input|
      && forall i | 0 <= i < |zi| :: zi[i] == Fir(taps, i + 1, input)
    }

    constructor (taps: seq<real>)
      requires taps != []
      ensures Valid() && input == [] && this.taps == taps
    {
      this.taps := taps;
      zi := seq(|taps| - 1, _ => 0.0);
      consumed := 0;
      input := [];
    }

    /** One filter tick: output the first cell plus the newest sample's share, shift the cells. */
    method Tick(x: real) returns (y: real)
      requires Valid()
      modifies `zi, `input, `consumed
      ensures Valid() && input == old(input) + [x] && y == Fir(taps, 0, input)
    {
      assert (input + [x])[..|input + [x]| - 1] == input;
      y := taps[0] * x + (if zi == [] then 0.0 else zi[0]);
      zi := seq(|zi|, i requires 0 <= i < |zi| && |zi| < |taps| reads this =>
                  taps[i + 1] * x + (if i + 1 < |zi| then zi[i + 1] else 0.0));
      input := input + [x];
      consumed := consumed + 1;
    }

    /** The block's outputs continue the one-shot reference, wherever the stream was cut. */
    method Push(block: seq<real>) returns (out: seq<int>)
      requires Valid()
      modifies this
      ensures Valid() && input == old(input) + block
      ensures Reference(taps, input) == Reference(taps, old(input)) + out
    {
      var first := (0 - consumed as int) % 4;
      var filtered: seq<real> := [];
      for n := 0 to |block|
        invariant Valid() && input == old(input) + block[..n] && |filtered| == n
        invariant forall k | 0 <= k < n :: filtered[k] == Fir(taps, 0, old(input) + block[..k + 1])
      {
        var y := Tick(block[n]);
        assert old(input) + block[..n] + [block[n]] == old(input) + block[..n + 1];
        filtered := filtered + [y];
      }
      assert block[..|block|] == block;
      out := EveryFourth(filtered, first);
      Continues(taps, old(input), block, filtered, out);
    }
  }

  /** filtered[first::4], quantized. */
  function EveryFourth(filtered: seq<real>, first: nat): seq<int>
    requires first < 4
  {
    var count := if |filtered| <= first then 0 else DecimatedLength(|filtered| - first);
    seq(count, m requires 0 <= m < count => Quantize(filtered[first + 4 * m]))
  }

  lemma Continues(taps: seq<real>, before: seq<real>, block: seq<real>, filtered: seq<real>, out: seq<int>)
    requires |filtered| == |block|
    requires forall k | 0 <= k < |block| :: filtered[k] == Fir(taps, 0, before + block[..k + 1])
    requires out == EveryFourth(filtered, (0 - |before| as int) % 4)
    ensures Reference(taps, before + block) == Reference(taps, before) + out
  {
    var all, done := Reference(taps, before + block), Reference(taps, before);
    Counts(|before|, |block|);
    OldOutputs(taps, before, block);
    NewOutputs(taps, before, block, filtered, out, |done|);
    assert all == done + out;
  }

  lemma OldOutputs(taps: seq<real>, before: seq<real>, block: seq<real>)
    ensures |Reference(taps, before)| <= |Reference(taps, before + block)|
    ensures forall m | 0 <= m < |Reference(taps, before)| ::
              Reference(taps, before + block)[m] == Reference(taps, before)[m]
  {
    forall m | 0 <= m < |Reference(taps, before)|
      ensures Reference(taps, before + block)[m] == Reference(taps, before)[m]
    {
      OnePosition(before, block, m);
    }
  }

  lemma NewOutputs(taps: seq<real>, before: seq<real>, block: seq<real>, filtered: seq<real>, out: seq<int>, done: nat)
    requires |filtered| == |block|
    requires forall k | 0 <= k < |block| :: filtered[k] == Fir(taps, 0, before + block[..k + 1])
    requires out == EveryFourth(filtered, (0 - |before| as int) % 4)
    requires 4 * done == |before| + (0 - |before| as int) % 4
    requires |Reference(taps, before + block)| == done + |out|
    ensures forall m | 0 <= m < |out| :: Reference(taps, before + block)[done + m] == out[m]
  {
    forall m | 0 <= m < |out| ensures Reference(taps, before + block)[done + m] == out[m] {
      OnePosition(before, block, done + m);
    }
  }

  lemma Counts(c: nat, n: nat)
    ensures var first := (0 - c as int) % 4;
            && c + first == 4 * DecimatedLength(c)
            && DecimatedLength(c + n) == DecimatedLength(c) + (if n <= first then 0 else DecimatedLength(n - first))
  {
  }

  /** Position 4m of the concatenation, seen from before the cut or from inside the new block. */
  lemma OnePosition(before: seq<real>, block: seq<real>, m: nat)
    requires 4 * m < |before| + |block|
    ensures 4 * m < |before| ==> (before + block)[..4 * m + 1] == before[..4 * m + 1]
    ensures 4 * m >= |before| ==> (before + block)[..4 * m + 1] == before + block[..4 * m - |before| + 1]
  {
  }
}
