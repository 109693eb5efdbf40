/**
 * Multichannel sample buffers and the gain arithmetic shared by the voices and
 * the master stage: a flat gain, a linear gain ramp across a block, and the
 * linear pan law `min(1 - pan, 1)` / `min(1 + pan, 1)`.
 */
module Audio {

  /** A buffer is a sequence of channels, each a sequence of samples. */
  type Buffer = seq<seq<real>>

  /** Number of samples per channel (the length of channel 0). */
  function NumSamples(b: Buffer): nat
  {
    if |b| == 0 then 0 else |b[0]|
  }

  /** Every channel has the same number of samples. */
  predicate IsRect(b: Buffer)
  {
    forall c :: 0 <= c < |b| ==> |b[c]| == NumSamples(b)
  }

  /** Two buffers with the same channel count and the same channel lengths. */
  predicate SameShape(a: Buffer, b: Buffer)
  {
    |a| == |b| && forall c :: 0 <= c < |a| ==> |a[c]| == |b[c]|
  }

  function Min(a: real, b: real): (m: real)
    ensures m <= a && m <= b && (m == a || m == b)
  {
    if b < a then b else a
  }

  function Max(a: real, b: real): (m: real)
    ensures a <= m && b <= m && (m == a || m == b)
  {
    if a < b then b else a
  }

  /** Left-channel factor of the linear pan law. */
  function PanLeft(pan: real): (f: real)
    ensures -1.0 <= pan <= 1.0 ==> 0.0 <= f <= 1.0
    ensures pan <= 0.0 ==> f == 1.0
    ensures pan > 0.0 ==> f == 1.0 - pan
  {
    Min(1.0 - pan, 1.0)
  }

  /** Right-channel factor of the linear pan law. */
  function PanRight(pan: real): (f: real)
    ensures -1.0 <= pan <= 1.0 ==> 0.0 <= f <= 1.0
    ensures pan >= 0.0 ==> f == 1.0
    ensures pan < 0.0 ==> f == 1.0 + pan
  {
    Min(1.0 + pan, 1.0)
  }

  /** The per-sample increment of a ramp from `g0` to `g1` over `n` samples. */
  function RampStep(g0: real, g1: real, n: nat): real
    requires n > 0
  {
    (g1 - g0) / (n as real)
  }

  /**
   * The gain a ramp from `g0` to `g1` over `n` samples applies to sample `i`:
   * the ramp starts at `g0` and adds one step per sample, so the last sample
   * of the block gets `g1 - step` and the block after starts at `g1`.
   */
  function RampGain(g0: real, g1: real, n: nat, i: nat): real
    requires n > 0
  {
    g0 + (i as real) * RampStep(g0, g1, n)
  }

  /** Scaling by a factor in [0, 1] keeps a value between 0 and itself. */
  lemma ScaleWithin(x: real, t: real)
    requires 0.0 <= t <= 1.0
    ensures 0.0 <= x ==> 0.0 <= x * t <= x
    ensures x <= 0.0 ==> x <= x * t <= 0.0
  {
    assert x - x * t == x * (1.0 - t);
  }

  /** Multiplying by a non-negative factor keeps order. */
  lemma ScaleMonotone(a: real, b: real, w: real)
    requires a <= b && 0.0 <= w
    ensures a * w <= b * w
  {
    assert b * w - a * w == (b - a) * w;
  }

  /** Multiplying by a positive factor keeps strict order. */
  lemma ScaleStrict(a: real, b: real, w: real)
    requires a < b && 0.0 < w
    ensures a * w < b * w
  {
    assert b * w - a * w == (b - a) * w;
  }

  /** Dividing by a non-zero factor and multiplying back gives the value. */
  lemma DivCancel(x: real, d: real)
    requires d != 0.0
    ensures d * (x / d) == x
  {
  }

  /** A ramp stays between its end points and reaches the target after `n` steps. */
  lemma {:induction false} RampWithinBounds(g0: real, g1: real, n: nat, i: nat)
    requires 0 < n && i <= n
    ensures Min(g0, g1) <= RampGain(g0, g1, n, i) <= Max(g0, g1)
    ensures i == n ==> RampGain(g0, g1, n, i) == g1
  {
    var t := (i as real) / (n as real);
    assert 0.0 <= t <= 1.0;
    assert (i as real) * RampStep(g0, g1, n) == (g1 - g0) * t;
    ScaleWithin(g1 - g0, t);
    if i == n {
      DivCancel(g1 - g0, n as real);
    }
  }

  /**
   * Gain continuity: consecutive samples of a ramp differ by exactly one step,
   * whose size is the gain change divided by the block length, and the ramp
   * moves monotonically from `g0` towards `g1`.
   */
  lemma {:induction false} RampIsMonotone(g0: real, g1: real, n: nat, i: nat)
    requires 0 < n && i < n
    ensures RampGain(g0, g1, n, i + 1) - RampGain(g0, g1, n, i) == (g1 - g0) / (n as real)
    ensures g0 <= g1 ==> RampGain(g0, g1, n, i) <= RampGain(g0, g1, n, i + 1)
    ensures g1 <= g0 ==> RampGain(g0, g1, n, i + 1) <= RampGain(g0, g1, n, i)
  {
    var s := RampStep(g0, g1, n);
    assert ((i + 1) as real) * s == (i as real) * s + s;
    if g0 <= g1 {
      assert s >= 0.0;
    } else {
      assert s <= 0.0;
    }
  }

  /** Multiplies every sample of one channel by `gain`. */
  method ScaleChannel(ch: seq<real>, gain: real) returns (r: seq<real>)
    ensures |r| == |ch|
    ensures forall i :: 0 <= i < |ch| ==> r[i] == ch[i] * gain
  {
    r := ch;
    var i := 0;
    while i < |r|
      invariant |r| == |ch| && 0 <= i <= |r|
      invariant forall k :: 0 <= k < i ==> r[k] == ch[k] * gain
      invariant forall k :: i <= k < |r| ==> r[k] == ch[k]
    {
      r := r[i := r[i] * gain];
      i := i + 1;
    }
  }

  /**
   * Ramps one channel from `g0` to `g1`: when the two gains are equal this is a
   * flat gain; otherwise the running gain starts at `g0` and grows by one step
   * after every sample.
   */
  method RampChannel(ch: seq<real>, g0: real, g1: real) returns (r: seq<real>)
    ensures |r| == |ch|
    ensures forall i :: 0 <= i < |ch| ==> r[i] == ch[i] * RampGain(g0, g1, |ch|, i)
  {
    if g0 == g1 || |ch| == 0 {
      r := ScaleChannel(ch, g0);
      return;
    }
    var step := (g1 - g0) / (|ch| as real);
    var gain := g0;
    r := ch;
    var i := 0;
    while i < |r|
      invariant |r| == |ch| && 0 <= i <= |r|
      invariant step == RampStep(g0, g1, |ch|)
      invariant gain == g0 + (i as real) * step
      invariant forall k :: 0 <= k < i ==> r[k] == ch[k] * RampGain(g0, g1, |ch|, k)
      invariant forall k :: i <= k < |r| ==> r[k] == ch[k]
    {
      r := r[i := r[i] * gain];
      gain := gain + step;
      i := i + 1;
    }
  }

  /** Applies a flat gain to every channel of the buffer. */
  method ApplyGain(b: Buffer, gain: real) returns (r: Buffer)
    ensures SameShape(r, b)
    ensures forall c, i :: 0 <= c < |b| && 0 <= i < |b[c]| ==> r[c][i] == b[c][i] * gain
  {
    r := b;
    var c := 0;
    while c < |r|
      invariant 0 <= c <= |r| && SameShape(r, b)
      invariant forall c', i :: 0 <= c' < c && 0 <= i < |b[c']| ==> r[c'][i] == b[c'][i] * gain
      invariant forall c' :: c <= c' < |r| ==> r[c'] == b[c']
    {
      var ch := ScaleChannel(r[c], gain);
      r := r[c := ch];
      c := c + 1;
    }
  }

  /** Applies a linear ramp from `g0` to `g1` over the whole block to every channel. */
  method ApplyGainRamp(b: Buffer, g0: real, g1: real) returns (r: Buffer)
    requires IsRect(b)
    ensures SameShape(r, b)
    ensures forall c, i :: 0 <= c < |b| && 0 <= i < |b[c]| ==>
      r[c][i] == b[c][i] * RampGain(g0, g1, NumSamples(b), i)
  {
    r := b;
    var c := 0;
    while c < |r|
      invariant 0 <= c <= |r| && SameShape(r, b)
      invariant forall c', i :: 0 <= c' < c && 0 <= i < |b[c']| ==>
        r[c'][i] == b[c'][i] * RampGain(g0, g1, NumSamples(b), i)
      invariant forall c' :: c <= c' < |r| ==> r[c'] == b[c']
    {
      var ch := RampChannel(r[c], g0, g1);
      r := r[c := ch];
      c := c + 1;
    }
  }
}
