/**
 * Float-to-int16 conversion of faded audio. The container writer clips to
 * [-1, 1] before scaling by 32767; the older writer scales without clipping.
 * numpy's `astype(np.int16)` truncates toward zero.
 */
module Quantise {
  import opened Pcm

  const Scale: int := 32767

  /** Truncation toward zero, as numpy's float-to-integer cast does. */
  function Trunc(x: real): (n: int)
    ensures x >= 0.0 ==> 0 <= n && n as real <= x < n as real + 1.0
    ensures x < 0.0 ==> n <= 0 && n as real - 1.0 < x <= n as real
  {
    if x >= 0.0 then x.Floor else -((-x).Floor)
  }

  /** `np.clip(x, lo, hi)`. */
  function Clip(x: real, lo: real, hi: real): (y: real)
    requires lo <= hi
    ensures lo <= y <= hi
    ensures lo <= x <= hi ==> y == x
    ensures x < lo ==> y == lo
    ensures x > hi ==> y == hi
  {
    if x < lo then lo else if x > hi then hi else x
  }

  /** The container writer's conversion `(np.clip(x, -1, 1) * 32767).astype(np.int16)`. */
  function QuantiseClipped(x: real): (q: Int16)
    ensures -Scale <= q <= Scale
    ensures x >= 1.0 ==> q == Scale
    ensures x <= -1.0 ==> q == -Scale
    ensures -1.0 <= x <= 1.0 ==> q == Trunc(x * Scale as real)
  {
    var y := Clip(x, -1.0, 1.0) * Scale as real;
    assert -(Scale as real) <= y <= Scale as real;
    Trunc(y)
  }

  /** Reduction of an integer into the int16 range modulo 2^16 (two's-complement wrap-around). */
  function Wrap16(n: int): (w: Int16)
    ensures (w - n) % 65536 == 0
    ensures -32768 <= n < 32768 ==> w == n
  {
    (n + 32768) % 65536 - 32768
  }

  /**
   * The older writer's conversion `(x * 32767).astype(np.int16)`. Out of range,
   * the float-to-int16 cast keeps the low 16 bits of the truncated value.
   */
  function QuantiseUnclipped(x: real): (q: Int16)
    ensures -1.0 <= x <= 1.0 ==> q == Trunc(x * Scale as real) && -Scale <= q <= Scale
  {
    Wrap16(Trunc(x * Scale as real))
  }

  /** Within [-1, 1] the two conversions agree. */
  lemma UnclippedAgreesInRange(x: real)
    requires -1.0 <= x <= 1.0
    ensures QuantiseUnclipped(x) == QuantiseClipped(x)
  {
  }

  /** A hot sample (1.5) wraps to a large negative value without clipping, and saturates with it. */
  lemma HotSampleWrapsWithoutClipping()
    ensures QuantiseUnclipped(1.5) == -16386
    ensures QuantiseClipped(1.5) == Scale
  {
    assert 1.5 * Scale as real == 49150.5;
    assert Trunc(49150.5) == 49150;
  }

  type FloatRow = seq<real>
  type PcmRow = seq<Int16>

  /** Every sample of every row clipped and quantised. */
  function QuantiseRowsClipped(rows: seq<FloatRow>): (q: seq<PcmRow>)
    ensures |q| == |rows|
    ensures forall i :: 0 <= i < |rows| ==> |q[i]| == |rows[i]|
    ensures forall i, k :: 0 <= i < |rows| && 0 <= k < |rows[i]| ==>
      q[i][k] == QuantiseClipped(rows[i][k]) && -Scale <= q[i][k] <= Scale
  {
    seq(|rows|, i requires 0 <= i < |rows| =>
      seq(|rows[i]|, k requires 0 <= k < |rows[i]| => QuantiseClipped(rows[i][k])))
  }

  /** Every sample of every row quantised without clipping. */
  function QuantiseRowsUnclipped(rows: seq<FloatRow>): (q: seq<PcmRow>)
    ensures |q| == |rows|
    ensures forall i :: 0 <= i < |rows| ==> |q[i]| == |rows[i]|
    ensures forall i, k :: 0 <= i < |rows| && 0 <= k < |rows[i]| ==> q[i][k] == QuantiseUnclipped(rows[i][k])
  {
    seq(|rows|, i requires 0 <= i < |rows| =>
      seq(|rows[i]|, k requires 0 <= k < |rows[i]| => QuantiseUnclipped(rows[i][k])))
  }

  /** Rows holding no sample at all: numpy's `max` raises `ValueError` on such a zero-size array. */
  predicate NoSamples(rows: seq<FloatRow>) {
    forall i :: 0 <= i < |rows| ==> |rows[i]| == 0
  }

  /** The container writer's diagnostic: some sample has magnitude above 1.0 (`np.abs(x).max() > 1.0`). */
  predicate IsHot(rows: seq<FloatRow>) {
    exists i, k :: 0 <= i < |rows| && 0 <= k < |rows[i]| && (rows[i][k] > 1.0 || rows[i][k] < -1.0)
  }

  /** When no sample is hot, clipping changes nothing, so the clipped rows are the plain truncations. */
  lemma {:induction false} ClippingInertWhenCool(rows: seq<FloatRow>)
    requires !IsHot(rows)
    ensures QuantiseRowsClipped(rows) == QuantiseRowsUnclipped(rows)
  {
    var a := QuantiseRowsClipped(rows);
    var b := QuantiseRowsUnclipped(rows);
    forall i | 0 <= i < |rows|
      ensures a[i] == b[i]
    {
      forall k | 0 <= k < |rows[i]|
        ensures a[i][k] == b[i][k]
      {
        UnclippedAgreesInRange(rows[i][k]);
      }
    }
  }
}
