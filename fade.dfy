/**
 * `AudioFade`, the crossfade between consecutive generated chunks. Both writer
 * variants carry the same class. A chunk is a sequence of rows (one row per
 * sample instant, one value per channel). The ramp stands for
 * `sin(linspace(0, pi/2, fade_size))**2`; only the facts about it that the
 * proofs use are assumed, as hypotheses.
 */
module Fade {

  type Row = seq<real>

  /** One sample weighted by a ramp value. */
  function Weigh(x: real, w: real): real {
    x * w
  }

  function ScaleRow(r: Row, k: real): (s: Row)
    ensures |s| == |r| && forall c :: 0 <= c < |r| ==> s[c] == Weigh(r[c], k)
  {
    seq(|r|, c requires 0 <= c < |r| => Weigh(r[c], k))
  }

  function AddRows(a: Row, b: Row): (s: Row)
    requires |a| == |b|
    ensures |s| == |a| && forall c :: 0 <= c < |a| ==> s[c] == a[c] + b[c]
  {
    seq(|a|, c requires 0 <= c < |a| => a[c] + b[c])
  }

  /** Every ramp value lies in [0, 1] (true of a squared sine). */
  predicate RampInRange(ramp: seq<real>) {
    forall i :: 0 <= i < |ramp| ==> 0.0 <= ramp[i] <= 1.0
  }

  /**
   * The ramp and its reverse sum to one: sin^2 at `i * (pi/2) / (f - 1)` plus sin^2
   * at the mirrored point. Holds for `fade_size >= 2` (for one sample linspace gives [0]).
   */
  predicate Complementary(ramp: seq<real>) {
    forall i :: 0 <= i < |ramp| ==> ramp[i] + ramp[|ramp| - 1 - i] == 1.0
  }

  predicate HasWidth(rows: seq<Row>, width: nat) {
    forall i :: 0 <= i < |rows| ==> |rows[i]| == width
  }

  /** `np.zeros_like(rows)`: the same shape, every value zero. */
  function ZerosLike(rows: seq<Row>): (z: seq<Row>)
    ensures |z| == |rows|
    ensures forall i :: 0 <= i < |rows| ==> |z[i]| == |rows[i]| && forall c :: 0 <= c < |rows[i]| ==> z[i][c] == 0.0
  {
    seq(|rows|, i requires 0 <= i < |rows| => seq(|rows[i]|, c requires 0 <= c < |rows[i]| => 0.0))
  }

  /**
   * The chunk after the two in-place updates `chunk[:f] *= ramp` and
   * `chunk[:f] += previous`: head row `i` is `chunk[i] * ramp[i] + previous[i]`,
   * the other rows are untouched.
   */
  ghost function Faded(chunk: seq<Row>, ramp: seq<real>, previous: seq<Row>): (r: seq<Row>)
    requires |ramp| == |previous| <= |chunk|
    requires forall i :: 0 <= i < |previous| ==> |previous[i]| == |chunk[i]|
    ensures |r| == |chunk|
    ensures forall i :: 0 <= i < |chunk| ==> |r[i]| == |chunk[i]|
  {
    seq(|chunk|, i requires 0 <= i < |chunk| =>
      if i < |ramp| then AddRows(ScaleRow(chunk[i], ramp[i]), previous[i]) else chunk[i])
  }

  /** The new stored tail `chunk[-f:] * flip(ramp)`, taken from the chunk after its head was faded. */
  function Tail(faded: seq<Row>, ramp: seq<real>): (t: seq<Row>)
    requires |ramp| <= |faded|
    ensures |t| == |ramp|
    ensures forall j :: 0 <= j < |ramp| ==> |t[j]| == |faded[|faded| - |ramp| + j]|
  {
    seq(|ramp|, j requires 0 <= j < |ramp| => ScaleRow(faded[|faded| - |ramp| + j], ramp[|ramp| - 1 - j]))
  }

  /** `chunk[:-f]` for `f > 0`: all but the last `f` rows. */
  function DropLast<T>(s: seq<T>, f: nat): (r: seq<T>)
    requires 0 < f <= |s|
    ensures |r| == |s| - f && r == s[..|s| - f]
  {
    s[..|s| - f]
  }

  /** Python's `s[:-f]` for any `f`: with `f == 0` it is `s[:0]`, the empty sequence, not the whole `s`. */
  function PySliceToNegative<T>(s: seq<T>, f: nat): (r: seq<T>)
    ensures f == 0 ==> r == []
    ensures 0 < f <= |s| ==> r == DropLast(s, f)
    ensures f > |s| ==> r == []
  {
    if f == 0 || f > |s| then [] else s[..|s| - f]
  }

  class AudioFade {
    const fadeSize: nat
    const numChunks: nat
    const channels: nat
    const ramp: seq<real>
    /** The stored tail, already weighted by the reversed ramp. */
    var previous: seq<Row>

    ghost predicate Valid()
      reads this
    {
      && fadeSize > 0
      && |ramp| == fadeSize
      && RampInRange(ramp)
      && |previous| == fadeSize
      && HasWidth(previous, channels)
    }

    /**
     * `AudioFade(chunk_size, num_chunks, stereo)`. `ramp` is the precomputed
     * window; the initial tail is silence with one value per channel.
     */
    constructor (chunkSize: nat, numChunks: nat, channels: nat, ramp: seq<real>)
      requires chunkSize * numChunks > 0
      requires |ramp| == chunkSize * numChunks && RampInRange(ramp)
      ensures Valid()
      ensures this.fadeSize == chunkSize * numChunks && this.numChunks == numChunks
      ensures this.channels == channels && this.ramp == ramp
      ensures forall j :: 0 <= j < fadeSize ==> forall c :: 0 <= c < channels ==> previous[j][c] == 0.0
    {
      this.fadeSize := chunkSize * numChunks;
      this.numChunks := numChunks;
      this.channels := channels;
      this.ramp := ramp;
      previous := seq(chunkSize * numChunks, j => seq(channels, c => 0.0));
    }

    /** `reset()`: silence the stored tail, keeping its shape; ramp and size are constants. */
    method Reset()
      requires Valid()
      modifies this
      ensures Valid()
      ensures previous == ZerosLike(old(previous))
    {
      previous := ZerosLike(previous);
    }

    /**
     * `__call__(chunk)`: fade the head of `chunk` in place, store its last
     * `fade_size` rows weighted by the reversed ramp, and return all rows but those.
     */
    method Apply(chunk: array<Row>) returns (out: seq<Row>)
      requires Valid()
      requires chunk.Length >= fadeSize
      requires forall i :: 0 <= i < chunk.Length ==> |chunk[i]| == channels
      modifies this, chunk
      ensures Valid()
      ensures chunk[..] == Faded(old(chunk[..]), ramp, old(previous))
      ensures previous == Tail(chunk[..], ramp)
      ensures out == DropLast(chunk[..], fadeSize)
    {
      ghost var before := chunk[..];
      for i := 0 to fadeSize
        modifies chunk
        invariant forall k :: 0 <= k < i ==> chunk[k] == AddRows(ScaleRow(before[k], ramp[k]), previous[k])
        invariant forall k :: i <= k < chunk.Length ==> chunk[k] == before[k]
      {
        chunk[i] := AddRows(ScaleRow(chunk[i], ramp[i]), previous[i]);
      }
      var faded := chunk[..];
      assert faded == Faded(before, ramp, previous);
      assert HasWidth(faded, channels);
      var n := chunk.Length;
      previous := Tail(faded, ramp);
      out := faded[..n - fadeSize];
    }
  }

  // ---- properties of one fade step, stated on the specification functions ----

  /**
   * Lengths: the call emits `len(chunk) - f` rows and keeps a tail of `f` rows of
   * the same width; emitted row `i` is the faded head row when `i < f`.
   */
  lemma FadeShape(chunk: seq<Row>, ramp: seq<real>, previous: seq<Row>, width: nat)
    requires 0 < |ramp| == |previous| <= |chunk|
    requires HasWidth(chunk, width) && HasWidth(previous, width)
    ensures |DropLast(Faded(chunk, ramp, previous), |ramp|)| == |chunk| - |ramp|
    ensures |Tail(Faded(chunk, ramp, previous), ramp)| == |ramp|
    ensures HasWidth(Faded(chunk, ramp, previous), width)
    ensures HasWidth(Tail(Faded(chunk, ramp, previous), ramp), width)
    ensures forall i :: 0 <= i < |ramp| && i < |chunk| - |ramp| ==>
      DropLast(Faded(chunk, ramp, previous), |ramp|)[i] == AddRows(ScaleRow(chunk[i], ramp[i]), previous[i])
  {
  }

  predicate Constant(rows: seq<Row>, v: Row) {
    forall i :: 0 <= i < |rows| ==> rows[i] == v
  }

  lemma ComplementaryWeightsKeepRow(v: Row, a: real, b: real)
    requires a + b == 1.0
    ensures AddRows(ScaleRow(v, a), ScaleRow(v, b)) == v
  {
    var r := AddRows(ScaleRow(v, a), ScaleRow(v, b));
    forall c | 0 <= c < |v|
      ensures r[c] == v[c]
    {
      assert r[c] == Weigh(v[c], a) + Weigh(v[c], b) == v[c] * (a + b);
    }
  }

  /**
   * A constant signal crosses the seam unchanged: when the stored tail came from
   * a chunk holding the constant row `v` and the next chunk holds `v` too, every
   * faded head row is `v`, because `ramp[i] + ramp[f-1-i] == 1`.
   */
  lemma {:induction false} ConstantSignalCrossesSeam(before: seq<Row>, chunk: seq<Row>, ramp: seq<real>, v: Row)
    requires 0 < |ramp| <= |before| && |ramp| <= |chunk|
    requires Complementary(ramp)
    requires Constant(before, v) && Constant(chunk, v)
    ensures Constant(Faded(chunk, ramp, Tail(before, ramp)), v)
  {
    var f := |ramp|;
    var prev := Tail(before, ramp);
    var out := Faded(chunk, ramp, prev);
    forall i | 0 <= i < |chunk|
      ensures out[i] == v
    {
      SeamRowIsConstant(before, chunk, ramp, v, i);
    }
  }

  /** One row of the seam: row `i` of the faded chunk is `v`. */
  lemma SeamRowIsConstant(before: seq<Row>, chunk: seq<Row>, ramp: seq<real>, v: Row, i: nat)
    requires 0 < |ramp| <= |before| && |ramp| <= |chunk| && i < |chunk|
    requires Complementary(ramp)
    requires Constant(before, v) && Constant(chunk, v)
    ensures Faded(chunk, ramp, Tail(before, ramp))[i] == v
  {
    var f := |ramp|;
    var prev := Tail(before, ramp);
    FadedRowAt(chunk, ramp, prev, i);
    if i < f {
      TailRowAt(before, ramp, i);
      assert ramp[i] + ramp[f - 1 - i] == 1.0;
      ComplementaryWeightsKeepRow(v, ramp[i], ramp[f - 1 - i]);
    }
  }

  lemma TailRowAt(faded: seq<Row>, ramp: seq<real>, j: nat)
    requires j < |ramp| <= |faded|
    ensures Tail(faded, ramp)[j] == ScaleRow(faded[|faded| - |ramp| + j], ramp[|ramp| - 1 - j])
  {
  }

  lemma FadedRowAt(chunk: seq<Row>, ramp: seq<real>, previous: seq<Row>, i: nat)
    requires |ramp| == |previous| <= |chunk|
    requires forall k :: 0 <= k < |previous| ==> |previous[k]| == |chunk[k]|
    requires i < |chunk|
    ensures i < |ramp| ==> Faded(chunk, ramp, previous)[i] == AddRows(ScaleRow(chunk[i], ramp[i]), previous[i])
    ensures i >= |ramp| ==> Faded(chunk, ramp, previous)[i] == chunk[i]
  {
  }

  predicate Bounded(rows: seq<Row>) {
    forall i, c :: 0 <= i < |rows| && 0 <= c < |rows[i]| ==> -1.0 <= rows[i][c] <= 1.0
  }

  lemma WeightedSumBounded(x: real, y: real, a: real, b: real, z: real)
    requires -1.0 <= x <= 1.0 && -1.0 <= y <= 1.0
    requires 0.0 <= a && 0.0 <= b && a + b == 1.0
    requires z == Weigh(x, a) + Weigh(y, b)
    ensures -1.0 <= z <= 1.0
  {
    ProductOfNonNegatives(1.0 - x, a);
    ProductOfNonNegatives(1.0 + x, a);
    ProductOfNonNegatives(1.0 - y, b);
    ProductOfNonNegatives(1.0 + y, b);
  }

  lemma ProductOfNonNegatives(p: real, q: real)
    requires p >= 0.0 && q >= 0.0
    ensures p * q >= 0.0
  {
  }

  /**
   * No double-counted energy at the seam: if both the chunk whose tail was stored
   * and the new chunk stay within [-1, 1], so does every faded row, because the two
   * weights are non-negative and sum to one.
   */
  lemma {:induction false} SeamStaysInRange(before: seq<Row>, chunk: seq<Row>, ramp: seq<real>, width: nat)
    requires 0 < |ramp| <= |before| && |ramp| <= |chunk|
    requires RampInRange(ramp) && Complementary(ramp)
    requires HasWidth(before, width) && HasWidth(chunk, width)
    requires Bounded(before) && Bounded(chunk)
    ensures Bounded(Faded(chunk, ramp, Tail(before, ramp)))
  {
    var f := |ramp|;
    var prev := Tail(before, ramp);
    var out := Faded(chunk, ramp, prev);
    forall i, c | 0 <= i < |out| && 0 <= c < |out[i]|
      ensures -1.0 <= out[i][c] <= 1.0
    {
      if i < f {
        var x, y, a, b := chunk[i][c], before[|before| - f + i][c], ramp[i], ramp[f - 1 - i];
        TailAt(before, ramp, i, c);
        FadedHeadAt(chunk, ramp, prev, i, c);
        assert out[i][c] == Weigh(x, a) + Weigh(y, b);
        WeightedSumBounded(x, y, a, b, out[i][c]);
      }
    }
  }

  lemma TailAt(faded: seq<Row>, ramp: seq<real>, j: nat, c: nat)
    requires j < |ramp| <= |faded| && c < |faded[|faded| - |ramp| + j]|
    ensures Tail(faded, ramp)[j][c] == Weigh(faded[|faded| - |ramp| + j][c], ramp[|ramp| - 1 - j])
  {
    TailRowAt(faded, ramp, j);
  }

  lemma FadedHeadAt(chunk: seq<Row>, ramp: seq<real>, previous: seq<Row>, i: nat, c: nat)
    requires |ramp| == |previous| <= |chunk|
    requires forall k :: 0 <= k < |previous| ==> |previous[k]| == |chunk[k]|
    requires i < |ramp| && c < |chunk[i]|
    ensures Faded(chunk, ramp, previous)[i][c] == Weigh(chunk[i][c], ramp[i]) + previous[i][c]
  {
    FadedRowAt(chunk, ramp, previous, i);
  }

  /** After `reset()`, nothing of the old tail reaches the output: head row `i` is just `chunk[i] * ramp[i]`. */
  lemma ResetTailAddsNothing(chunk: seq<Row>, ramp: seq<real>, previous: seq<Row>)
    requires |ramp| == |previous| <= |chunk|
    requires forall i :: 0 <= i < |previous| ==> |previous[i]| == |chunk[i]|
    ensures forall i :: 0 <= i < |ramp| ==> Faded(chunk, ramp, ZerosLike(previous))[i] == ScaleRow(chunk[i], ramp[i])
  {
    var z := ZerosLike(previous);
    forall i | 0 <= i < |ramp|
      ensures Faded(chunk, ramp, z)[i] == ScaleRow(chunk[i], ramp[i])
    {
      FadedRowAt(chunk, ramp, z, i);
      var s := ScaleRow(chunk[i], ramp[i]);
      assert AddRows(s, z[i]) == s;
    }
  }
}
