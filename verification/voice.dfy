/**
 * DrumVoice: one polyphony slot. It reads its sound's sample at a fractional
 * position that advances by the pitch ratio, interpolates linearly between
 * neighbouring frames, pans or folds the frame down into the output, and
 * finally applies the channel level to the output buffer, ramping it when the
 * level changed since the previous block.
 */
module Voice {

  import opened Options
  import opened Audio
  import opened Sound

  /**
   * A voice slot. `note` is -1 while the voice is idle; `sound` is the index,
   * in the synth's sound list, of the sound being played. `prevGain` is the
   * level the previous block ended on.
   */
  datatype Voice = Voice(
    note: int,
    channel: int,
    sound: Option<nat>,
    noteOnTime: nat,
    position: real,
    pitchRatio: real,
    prevGain: real)
  {
    /** `isVoiceActive`: a note is being played. */
    predicate IsActive()
    {
      note >= 0
    }

    /** `isPlayingChannel`. */
    predicate IsPlayingChannel(ch: int)
    {
      channel == ch
    }

    /** The voice sounds `n` on MIDI channel `ch`. */
    predicate Plays(n: int, ch: int)
    {
      IsActive() && note == n && channel == ch
    }
  }

  /** The parameter values a voice reads once per block. */
  datatype VoiceParams = VoiceParams(level: real, pan: real, mute: real)
  {
    /** The block's gain: zero while the mute parameter is above one half. */
    function CurrentGain(): real
    {
      if mute > 0.5 then 0.0 else level
    }
  }

  /**
   * What mute does to the level stage. Muting fades the block out from the
   * previous gain (`prev * (1 - i/n)` on sample `i`) instead of cutting it,
   * and leaves a gain memory of 0, so a second muted block is silent. An
   * unmuted block's ramp ends on the level.
   */
  lemma MuteFadesOut(params: VoiceParams, prev: real, n: nat, i: nat)
    requires 0 < n && i <= n
    ensures params.mute > 0.5 ==>
      RampGain(prev, params.CurrentGain(), n, i) == prev * (1.0 - (i as real) / (n as real))
    ensures params.mute > 0.5 ==> RampGain(params.CurrentGain(), params.CurrentGain(), n, i) == 0.0
    ensures params.mute <= 0.5 ==> RampGain(prev, params.CurrentGain(), n, n) == params.level
  {
    if params.mute > 0.5 {
      assert (i as real) * ((0.0 - prev) / (n as real)) == prev * (0.0 - (i as real) / (n as real));
    } else {
      RampWithinBounds(prev, params.level, n, n);
    }
  }

  /**
   * An idle voice slot; `prevGain` is whatever the slot holds before its first
   * block (the source leaves it uninitialised).
   */
  function IdleVoice(prevGain: real): (v: Voice)
    ensures !v.IsActive() && v.sound.None? && v.prevGain == prevGain
  {
    Voice(-1, 0, None, 0, 0.0, 0.0, prevGain)
  }

  /**
   * `stopNote`: tail-off is ignored and the note is cleared at once; the read
   * position, pitch ratio and gain memory stay as they were.
   */
  function StopNote(v: Voice): (r: Voice)
    ensures !r.IsActive() && r.sound.None?
    ensures forall n, ch :: !r.Plays(n, ch)
    ensures r.position == v.position && r.pitchRatio == v.pitchRatio && r.prevGain == v.prevGain
  {
    v.(note := -1, channel := 0, sound := None)
  }

  // ----- one frame -----

  /** Linear interpolation between `a` and `b` with weight `t` on `b`. */
  function Lerp(a: real, b: real, t: real): real
  {
    a * (1.0 - t) + b * t
  }

  /** An interpolated value lies between its two end points and is the first at weight 0. */
  lemma LerpBetween(a: real, b: real, t: real)
    requires 0.0 <= t <= 1.0
    ensures Min(a, b) <= Lerp(a, b, t) <= Max(a, b)
    ensures t == 0.0 ==> Lerp(a, b, t) == a
  {
    var d := (b - a) * t;
    assert Lerp(a, b, t) == a + d;
    ScaleWithin(b - a, t);
    if a <= b {
      assert 0.0 <= d <= b - a;
      assert a <= Lerp(a, b, t) <= b;
    } else {
      assert b - a <= d <= 0.0;
      assert b <= Lerp(a, b, t) <= a;
    }
  }

  /**
   * Two-point linear interpolation of one sample channel at a fractional
   * position: frame `floor(p)` weighted by `1 - alpha` plus the next frame
   * weighted by `alpha`, where `alpha` is the fractional part.
   */
  function Interp(ch: seq<real>, p: real): real
    requires 0.0 <= p && p.Floor + 1 < |ch|
  {
    var pos := p.Floor;
    Lerp(ch[pos], ch[pos + 1], p - pos as real)
  }

  /** Interpolation returns a value between the two frames it reads, and the frame itself at whole positions. */
  lemma InterpBetweenFrames(ch: seq<real>, p: real)
    requires 0.0 <= p && p.Floor + 1 < |ch|
    ensures Min(ch[p.Floor], ch[p.Floor + 1]) <= Interp(ch, p) <= Max(ch[p.Floor], ch[p.Floor + 1])
    ensures p == p.Floor as real ==> Interp(ch, p) == ch[p.Floor]
  {
    LerpBetween(ch[p.Floor], ch[p.Floor + 1], p - p.Floor as real);
  }

  /** The read position after `j` frames: `j` pitch ratios past the start position. */
  function PositionAt(pos0: real, ratio: real, j: int): (p: real)
    ensures 0 <= j && 0.0 <= ratio ==> pos0 <= p
  {
    pos0 + (j as real) * ratio
  }

  /** The source adds the pitch ratio to the position once per frame. */
  lemma NextPosition(pos0: real, ratio: real, j: int)
    ensures PositionAt(pos0, ratio, j + 1) == PositionAt(pos0, ratio, j) + ratio
  {
    assert ((j + 1) as real) * ratio == (j as real) * ratio + ratio;
  }

  /** The read position stays inside the sample: both frames read lie in `len + 4` frames. */
  predicate InSample(data: Buffer, len: int, p: real)
  {
    IsSample(data, len) && 0.0 <= p < len as real
  }

  /** The interpolated left frame at `p`. */
  function FrameLeft(data: Buffer, len: int, p: real): real
    requires InSample(data, len, p)
  {
    Interp(data[0], p)
  }

  /** The interpolated right frame at `p`; a mono sample repeats its left frame. */
  function FrameRight(data: Buffer, len: int, p: real): real
    requires InSample(data, len, p)
  {
    if |data| > 1 then Interp(data[1], p) else FrameLeft(data, len, p)
  }

  /**
   * What one frame adds to output channel `c` of an `outChannels`-channel
   * buffer: a stereo output gets the panned left and right frames on its
   * first two channels, a mono output gets the average of left and right.
   */
  function FrameOutput(c: nat, outChannels: nat, l: real, r: real, pan: real): real
  {
    if outChannels > 1 then
      (if c == 0 then l * PanLeft(pan) else if c == 1 then r * PanRight(pan) else 0.0)
    else
      (if c == 0 then (l + r) * 0.5 else 0.0)
  }

  /**
   * What the voice adds to output channel `c` for the frame read at position
   * `p`; nothing is read, and nothing added, outside the sample.
   */
  function Contribution(data: Buffer, len: int, c: nat, outChannels: nat, p: real, pan: real): real
  {
    if InSample(data, len, p) then
      FrameOutput(c, outChannels, FrameLeft(data, len, p), FrameRight(data, len, p), pan)
    else
      0.0
  }

  /**
   * Adds one frame into output sample `idx`: the existing contents are kept
   * and the frame's output is added on top.
   */
  function MixFrame(out: Buffer, idx: nat, l: real, r: real, pan: real): (res: Buffer)
    requires |out| >= 1 && IsRect(out) && idx < NumSamples(out)
    ensures SameShape(res, out) && IsRect(res) && NumSamples(res) == NumSamples(out)
    ensures forall c, i :: 0 <= c < |out| && 0 <= i < |out[c]| ==>
      res[c][i] == out[c][i] + (if i == idx then FrameOutput(c, |out|, l, r, pan) else 0.0)
  {
    if |out| > 1 then
      out[0 := out[0][idx := out[0][idx] + l * PanLeft(pan)]]
         [1 := out[1][idx := out[1][idx] + r * PanRight(pan)]]
    else
      out[0 := out[0][idx := out[0][idx] + (l + r) * 0.5]]
  }

  /**
   * `res` is `out` with the first `k` frames of the voice added at samples
   * `start .. start + k - 1`; frame `j` is read at `PositionAt(pos0, ratio, j)`,
   * which lies inside the sample.
   */
  predicate Accumulated(res: Buffer, out: Buffer, data: Buffer, len: int, pos0: real, ratio: real,
                        pan: real, start: nat, k: nat)
  {
    && IsSample(data, len) && 0.0 <= pos0 && 0.0 < ratio
    && SameShape(res, out) && IsRect(res) && NumSamples(res) == NumSamples(out)
    && (forall j :: 0 <= j < k ==> PositionAt(pos0, ratio, j) < len as real)
    && (forall c, i :: 0 <= c < |out| && 0 <= i < |out[c]| ==>
          res[c][i] == out[c][i]
            + (if start <= i < start + k
               then Contribution(data, len, c, |out|, PositionAt(pos0, ratio, i - start), pan)
               else 0.0))
  }

  /** Mixing frame `k` into a buffer holding frames `0 .. k - 1` gives one holding frames `0 .. k`. */
  lemma AccumulateFrame(res: Buffer, out: Buffer, data: Buffer, len: int, pos0: real, ratio: real,
                        pan: real, start: nat, k: nat)
    requires Accumulated(res, out, data, len, pos0, ratio, pan, start, k)
    requires |out| >= 1 && IsRect(out) && start + k < NumSamples(out)
    requires PositionAt(pos0, ratio, k) < len as real
    ensures var p := PositionAt(pos0, ratio, k);
      Accumulated(MixFrame(res, start + k, FrameLeft(data, len, p), FrameRight(data, len, p), pan),
                  out, data, len, pos0, ratio, pan, start, k + 1)
  {
  }

  /**
   * The sample loop of `renderNextBlock`: starting at `pos0`, renders up to
   * `n` frames into `out` from sample `start` on, advancing the position by
   * `ratio` after each frame, and stops as soon as the position reaches the
   * sample length. Every frame read is at a position below `len`, so both
   * frames it interpolates lie inside the sample buffer.
   */
  method RenderFrames(data: Buffer, len: int, pos0: real, ratio: real, pan: real,
                      out: Buffer, start: nat, n: nat)
    returns (res: Buffer, pos: real, rendered: nat, stopped: bool)
    requires InSample(data, len, pos0) && ratio > 0.0
    requires |out| >= 1 && IsRect(out) && start + n <= NumSamples(out)
    ensures SameShape(res, out) && IsRect(res)
    ensures rendered <= n
    ensures forall j :: 0 <= j < rendered ==> PositionAt(pos0, ratio, j) < len as real
    ensures pos == PositionAt(pos0, ratio, rendered)
    ensures stopped <==> pos >= len as real
    ensures !stopped ==> rendered == n
    ensures stopped ==> rendered >= 1
    ensures forall c, i :: 0 <= c < |out| && 0 <= i < |out[c]| ==>
      res[c][i] == out[c][i]
        + (if start <= i < start + rendered
           then Contribution(data, len, c, |out|, PositionAt(pos0, ratio, i - start), pan)
           else 0.0)
  {
    res := out;
    pos := pos0;
    rendered := 0;
    stopped := false;
    while rendered < n && !stopped
      invariant rendered <= n
      invariant pos == PositionAt(pos0, ratio, rendered)
      invariant stopped <==> pos >= len as real
      invariant stopped ==> rendered >= 1
      invariant Accumulated(res, out, data, len, pos0, ratio, pan, start, rendered)
    {
      AccumulateFrame(res, out, data, len, pos0, ratio, pan, start, rendered);
      res := MixFrame(res, start + rendered, FrameLeft(data, len, pos), FrameRight(data, len, pos), pan);
      NextPosition(pos0, ratio, rendered);
      pos := pos + ratio;
      rendered := rendered + 1;
      if pos >= len as real {
        stopped := true;
      }
    }
  }

  /**
   * The block's level stage: a flat gain when the level equals the previous
   * block's, otherwise a ramp from the previous level to the current one over
   * the whole output buffer. Either way every sample ends up scaled by the
   * ramp from the previous to the current level, and the current level is
   * remembered for the next block.
   */
  method GainStage(out: Buffer, prevGain: real, curGain: real) returns (res: Buffer, newPrev: real)
    requires IsRect(out)
    ensures SameShape(res, out)
    ensures newPrev == curGain
    ensures forall c, i :: 0 <= c < |out| && 0 <= i < |out[c]| ==>
      res[c][i] == out[c][i] * RampGain(prevGain, curGain, NumSamples(out), i)
  {
    if curGain == prevGain {
      res := ApplyGain(out, curGain);
      newPrev := prevGain;
    } else {
      res := ApplyGainRamp(out, prevGain, curGain);
      newPrev := curGain;
    }
  }

  /** Voice and sample agree: an active voice reads inside a loaded sample. */
  predicate Ready(v: Voice, data: Buffer, len: int)
  {
    v.sound.Some? ==> InSample(data, len, v.position) && v.pitchRatio > 0.0
  }

  /** A later frame is read at a strictly later position when the ratio is positive. */
  lemma {:induction false} LaterFrameLaterPosition(pos0: real, ratio: real, j: int, k: int)
    requires ratio > 0.0 && j < k
    ensures PositionAt(pos0, ratio, j) < PositionAt(pos0, ratio, k)
    decreases k - j
  {
    NextPosition(pos0, ratio, k - 1);
    if j < k - 1 {
      LaterFrameLaterPosition(pos0, ratio, j, k - 1);
    }
  }

  /** Positions are increasing in the frame number when the ratio is positive. */
  lemma PositionsIncrease(pos0: real, ratio: real, j: int, k: int)
    requires ratio > 0.0
    ensures j < k ==> PositionAt(pos0, ratio, j) < PositionAt(pos0, ratio, k)
    ensures j >= k ==> PositionAt(pos0, ratio, j) >= PositionAt(pos0, ratio, k)
  {
    if j < k {
      LaterFrameLaterPosition(pos0, ratio, j, k);
    } else if k < j {
      LaterFrameLaterPosition(pos0, ratio, k, j);
    }
  }

  /**
   * `renderNextBlock` for a voice playing a sound whose sample is `data`
   * (`len` frames). An idle voice renders nothing and applies no gain. A
   * playing voice adds frames at positions `p0, p0 + r, p0 + 2r, ...` to
   * samples `start, start + 1, ...`, stopping (and clearing the voice) when
   * the position reaches `len`, and then scales the whole output buffer by
   * the level ramp.
   */
  method RenderNextBlock(v: Voice, data: Buffer, len: int, params: VoiceParams,
                         out: Buffer, start: nat, n: nat)
    returns (v': Voice, out': Buffer)
    requires Ready(v, data, len)
    requires |out| >= 1 && IsRect(out) && start + n <= NumSamples(out)
    ensures v.sound.None? ==> v' == v && out' == out
    ensures SameShape(out', out)
    ensures Ready(v', data, len)
    ensures v.sound.Some? ==>
      && v'.prevGain == params.CurrentGain()
      && v'.pitchRatio == v.pitchRatio
      && (n > 0 ==> v'.position > v.position)
      && v'.position <= PositionAt(v.position, v.pitchRatio, n)
      && (v'.sound.None? <==> v'.position >= len as real)
      && (v'.sound.Some? ==> v' == v.(position := v'.position, prevGain := v'.prevGain))
      && (v'.sound.None? ==> v' == StopNote(v).(position := v'.position, prevGain := v'.prevGain))
    ensures v.sound.Some? ==>
      forall c, i :: 0 <= c < |out| && 0 <= i < |out[c]| ==>
        var p := PositionAt(v.position, v.pitchRatio, i - start);
        out'[c][i] ==
          (out[c][i]
            + (if start <= i < start + n && p < v'.position && p < len as real
               then Contribution(data, len, c, |out|, p, params.pan)
               else 0.0))
          * RampGain(v.prevGain, params.CurrentGain(), NumSamples(out), i)
  {
    if v.sound.None? {
      v' := v;
      out' := out;
      return;
    }
    var curGain := params.CurrentGain();
    var mixed, pos, rendered, stopped := RenderFrames(data, len, v.position, v.pitchRatio, params.pan, out, start, n);
    v' := v.(position := pos);
    if stopped {
      v' := StopNote(v');
    }
    var newPrev;
    out', newPrev := GainStage(mixed, v.prevGain, curGain);
    v' := v'.(prevGain := newPrev);
    PositionsIncrease(v.position, v.pitchRatio, rendered, n);
    PositionsIncrease(v.position, v.pitchRatio, 0, rendered);
    assert NumSamples(mixed) == NumSamples(out);
    forall j | 0 <= j
      ensures var p := PositionAt(v.position, v.pitchRatio, j);
        j < rendered <==> (j < n && p < pos && p < len as real)
    {
      PositionsIncrease(v.position, v.pitchRatio, j, rendered);
    }
  }
}
