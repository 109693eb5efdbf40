/**
 * DrumProcessor: the plug-in. It names its output buses (the leading names up
 * to the first "Empty" are instruments), builds one instrument per named
 * output, keeps mute and solo flags per instrument and a master mute, bounds
 * the number of output buses, and runs the master stage on every block:
 * unused output channels are cleared, and the first two channels are scaled
 * by master level and pan, with a ramp when the level changed.
 */
module Processor {

  import opened Options
  import opened Audio
  import opened Voice
  import opened Synth

  /** `MAX_INSTRUMENTS`: size of the per-instrument arrays and the bus limit. */
  const MaxInstruments: nat := 8

  /** Output buses declared at construction: the master bus and seven instruments. */
  const InitialBusCount: nat := 8

  /** The name that ends the instrument list. */
  const EmptyName: string := "Empty"

  datatype Processor = Processor(
    outputs: seq<string>,
    maxMidiChannel: nat,
    synths: seq<Synth>,
    channelMute: seq<bool>,
    solo: seq<bool>,
    masterMute: bool,
    previousMasterGain: real,
    busCount: nat)

  /** `outputs[i]`: a missing entry reads as the empty string, not as "Empty". */
  function OutputName(outputs: seq<string>, i: int): string
  {
    if 0 <= i < |outputs| then outputs[i] else ""
  }

  /** The names from `from` on, below `limit`, that precede the first "Empty". */
  function LeadingFrom(outputs: seq<string>, limit: nat, from: nat): (c: nat)
    requires from <= limit
    ensures from + c <= limit
    ensures forall i :: from <= i < from + c ==> OutputName(outputs, i) != EmptyName
    ensures from + c < limit ==> OutputName(outputs, from + c) == EmptyName
    decreases limit - from
  {
    if from == limit || OutputName(outputs, from) == EmptyName then 0
    else 1 + LeadingFrom(outputs, limit, from + 1)
  }

  /** How many instruments the output names define among the first `limit`. */
  function LeadingCount(outputs: seq<string>, limit: nat): (c: nat)
    ensures c <= limit
    ensures forall i :: 0 <= i < c ==> OutputName(outputs, i) != EmptyName
    ensures c < limit ==> OutputName(outputs, c) == EmptyName
  {
    LeadingFrom(outputs, limit, 0)
  }

  /** The processor's shape: one instrument per leading name, full flag arrays, a bus count in range. */
  predicate WellFormed(p: Processor)
  {
    && p.maxMidiChannel <= MaxInstruments
    && |p.channelMute| == MaxInstruments && |p.solo| == MaxInstruments
    && |p.synths| == LeadingCount(p.outputs, p.maxMidiChannel)
    && 1 <= p.busCount <= MaxInstruments
  }

  // ----- construction -----

  /**
   * The constructor loop: for each channel below `maxMidiChannel`, stop at
   * the first "Empty" output; otherwise build an instrument named after the
   * output and clear its mute and solo flags. `defaultNotes` are the
   * instruments' notes, `learn0` what their unattached MIDI learn flags
   * read as, `prevGain` the voices' uninitialised gain memory,
   * `mute0`/`solo0`/`previousGain0` the flag arrays and master gain memory
   * before any assignment.
   */
  method NewProcessor(outputs: seq<string>, maxMidiChannel: nat, defaultNotes: seq<int>, learn0: seq<bool>,
                      prevGain: real, mute0: seq<bool>, solo0: seq<bool>, previousGain0: real)
    returns (p: Processor)
    requires maxMidiChannel <= MaxInstruments && |defaultNotes| >= maxMidiChannel && |learn0| >= maxMidiChannel
    requires |mute0| == MaxInstruments && |solo0| == MaxInstruments
    ensures WellFormed(p)
    ensures p.outputs == outputs && p.maxMidiChannel == maxMidiChannel
    ensures p.busCount == InitialBusCount && !p.masterMute
    ensures forall i :: 0 <= i < |p.synths| ==> p.synths[i] == NewSynth(OutputName(outputs, i), defaultNotes[i], prevGain, learn0[i])
    ensures forall i :: 0 <= i < |p.synths| ==> !p.channelMute[i] && !p.solo[i]
    ensures forall i :: |p.synths| <= i < MaxInstruments ==> p.channelMute[i] == mute0[i] && p.solo[i] == solo0[i]
  {
    var synths: seq<Synth> := [];
    var mute := mute0;
    var solo := solo0;
    var channel := 0;
    while channel < maxMidiChannel
      invariant channel <= maxMidiChannel && |synths| == channel
      invariant |mute| == MaxInstruments && |solo| == MaxInstruments
      invariant forall i :: 0 <= i < channel ==> OutputName(outputs, i) != EmptyName
      invariant forall i :: 0 <= i < channel ==> synths[i] == NewSynth(OutputName(outputs, i), defaultNotes[i], prevGain, learn0[i])
      invariant forall i :: 0 <= i < channel ==> !mute[i] && !solo[i]
      invariant forall i :: channel <= i < MaxInstruments ==> mute[i] == mute0[i] && solo[i] == solo0[i]
      invariant LeadingFrom(outputs, maxMidiChannel, 0) == channel + LeadingFrom(outputs, maxMidiChannel, channel)
    {
      if OutputName(outputs, channel) == EmptyName {
        break;
      }
      synths := synths + [NewSynth(OutputName(outputs, channel), defaultNotes[channel], prevGain, learn0[channel])];
      mute := mute[channel := false];
      solo := solo[channel := false];
      channel := channel + 1;
    }
    p := Processor(outputs, maxMidiChannel, synths, mute, solo, false, previousGain0, InitialBusCount);
  }

  /** Every instrument the constructor builds satisfies the instrument invariant. */
  lemma NewInstrumentsValid(p: Processor, defaultNotes: seq<int>, learn0: seq<bool>, prevGain: real)
    requires |defaultNotes| >= |p.synths| && |learn0| >= |p.synths|
    requires forall i :: 0 <= i < |p.synths| ==> p.synths[i] == NewSynth(OutputName(p.outputs, i), defaultNotes[i], prevGain, learn0[i])
    ensures forall i :: 0 <= i < |p.synths| ==> Valid(p.synths[i])
  {
    forall i | 0 <= i < |p.synths|
      ensures Valid(p.synths[i])
    {
      assert p.synths[i] == NewSynth(OutputName(p.outputs, i), defaultNotes[i], prevGain, learn0[i]);
    }
  }

  /**
   * `prepareToPlay`: the master gain memory takes the current master level,
   * and each instrument before the first "Empty" output takes the host rate.
   */
  method PrepareToPlay(p: Processor, sampleRate: real, masterLevel: real) returns (r: Processor)
    requires WellFormed(p)
    ensures WellFormed(r)
    ensures r == p.(synths := r.synths, previousMasterGain := masterLevel)
    ensures |r.synths| == |p.synths|
    ensures forall i :: 0 <= i < |r.synths| ==> r.synths[i].sampleRate == sampleRate
    ensures forall i :: 0 <= i < |r.synths| ==> r.synths[i] == SetPlaybackRate(p.synths[i], sampleRate)
    ensures forall i :: 0 <= i < |r.synths| ==> Valid(p.synths[i]) ==> Valid(r.synths[i])
  {
    var synths := p.synths;
    var midiChannel := 0;
    while midiChannel < p.maxMidiChannel
      invariant midiChannel <= |p.synths| && |synths| == |p.synths|
      invariant forall i :: 0 <= i < midiChannel ==> synths[i] == SetPlaybackRate(p.synths[i], sampleRate)
      invariant forall i :: midiChannel <= i < |synths| ==> synths[i] == p.synths[i]
      invariant |p.synths| == midiChannel + LeadingFrom(p.outputs, p.maxMidiChannel, midiChannel)
    {
      if OutputName(p.outputs, midiChannel) == EmptyName {
        break;
      }
      synths := synths[midiChannel := SetPlaybackRate(synths[midiChannel], sampleRate)];
      midiChannel := midiChannel + 1;
    }
    forall i | 0 <= i < |synths| && Valid(p.synths[i])
      ensures Valid(synths[i])
    {
      SetPlaybackRateKeepsValid(p.synths[i], sampleRate);
    }
    r := p.(synths := synths, previousMasterGain := masterLevel);
  }

  // ----- buses -----

  /** `canAddBus`: only output buses, and only below the instrument limit. */
  predicate CanAddBus(p: Processor, isInput: bool)
  {
    !isInput && p.busCount < MaxInstruments
  }

  /** `canRemoveBus`: only output buses, and never the last one. */
  predicate CanRemoveBus(p: Processor, isInput: bool)
  {
    !isInput && p.busCount > 1
  }

  /** A host request to add a bus, honoured only when `canAddBus` allows it. */
  function AddBus(p: Processor, isInput: bool): (r: Processor)
    ensures r == p.(busCount := r.busCount)
    ensures CanAddBus(p, isInput) ==> r.busCount == p.busCount + 1
    ensures !CanAddBus(p, isInput) ==> r == p
    ensures p.busCount <= MaxInstruments ==> r.busCount <= MaxInstruments
  {
    if CanAddBus(p, isInput) then p.(busCount := p.busCount + 1) else p
  }

  /** A host request to remove a bus, honoured only when `canRemoveBus` allows it. */
  function RemoveBus(p: Processor, isInput: bool): (r: Processor)
    ensures r == p.(busCount := r.busCount)
    ensures CanRemoveBus(p, isInput) ==> r.busCount + 1 == p.busCount
    ensures !CanRemoveBus(p, isInput) ==> r == p
    ensures p.busCount >= 1 ==> r.busCount >= 1
  {
    if CanRemoveBus(p, isInput) then p.(busCount := p.busCount - 1) else p
  }

  /** Any sequence of guarded bus requests keeps the bus count in [1, 8]. */
  lemma {:induction false} BusRequestsKeepCount(p: Processor, requests: seq<(bool, bool)>)
    requires 1 <= p.busCount <= MaxInstruments
    ensures 1 <= ApplyBusRequests(p, requests).busCount <= MaxInstruments
    decreases |requests|
  {
    if |requests| > 0 {
      var (add, isInput) := requests[0];
      var p' := if add then AddBus(p, isInput) else RemoveBus(p, isInput);
      BusRequestsKeepCount(p', requests[1..]);
    }
  }

  /** Applies host requests in order: `(true, isInput)` adds a bus, `(false, isInput)` removes one. */
  function ApplyBusRequests(p: Processor, requests: seq<(bool, bool)>): Processor
    decreases |requests|
  {
    if |requests| == 0 then p
    else
      var (add, isInput) := requests[0];
      ApplyBusRequests(if add then AddBus(p, isInput) else RemoveBus(p, isInput), requests[1..])
  }

  // ----- mute and solo -----

  /**
   * `setMuteEnabled`: a channel index sets only that channel's mute flag; a
   * negative index sets the master mute parameter instead.
   */
  function SetMuteEnabled(p: Processor, shouldBeEnabled: bool, index: int): (r: Processor)
    requires index < |p.channelMute|
    ensures index >= 0 ==>
      && r == p.(channelMute := r.channelMute)
      && |r.channelMute| == |p.channelMute|
      && r.channelMute[index] == shouldBeEnabled
      && forall c :: 0 <= c < |p.channelMute| && c != index ==> r.channelMute[c] == p.channelMute[c]
    ensures index < 0 ==> r == p.(masterMute := shouldBeEnabled)
  {
    if index >= 0 then p.(channelMute := p.channelMute[index := shouldBeEnabled])
    else p.(masterMute := shouldBeEnabled)
  }

  /** `setSoloEnabled`: a channel index sets only that channel's solo flag; a negative index does nothing. */
  function SetSoloEnabled(p: Processor, shouldBeEnabled: bool, index: int): (r: Processor)
    requires index < |p.solo|
    ensures index >= 0 ==>
      && r == p.(solo := r.solo)
      && |r.solo| == |p.solo|
      && r.solo[index] == shouldBeEnabled
      && forall c :: 0 <= c < |p.solo| && c != index ==> r.solo[c] == p.solo[c]
    ensures index < 0 ==> r == p
  {
    if index >= 0 then p.(solo := p.solo[index := shouldBeEnabled]) else p
  }

  /** The scan of `getSoloChannel` from channel `from` on. */
  function SoloChannelFrom(solo: seq<bool>, from: nat): (r: Option<int>)
    requires from <= |solo|
    ensures r.None? <==> forall c :: from <= c < |solo| ==> !solo[c]
    ensures r.Some? ==> (from <= r.value < |solo| && solo[r.value]
      && forall c :: from <= c < r.value ==> !solo[c])
    decreases |solo| - from
  {
    if from == |solo| then None
    else if solo[from] then Some(from)
    else SoloChannelFrom(solo, from + 1)
  }

  /** `getSoloChannel`: the first soloed channel, or none. */
  function GetSoloChannel(p: Processor): (r: Option<int>)
    requires |p.solo| == MaxInstruments
    ensures r.None? <==> forall c :: 0 <= c < MaxInstruments ==> !p.solo[c]
    ensures r.Some? ==> (0 <= r.value < MaxInstruments && p.solo[r.value]
      && forall c :: 0 <= c < r.value ==> !p.solo[c])
  {
    SoloChannelFrom(p.solo, 0)
  }

  /** No "Empty" output among channels `0..c`. */
  predicate NamedUpTo(outputs: seq<string>, c: int)
  {
    forall d :: 0 <= d <= c ==> OutputName(outputs, d) != EmptyName
  }

  /** The scan of `allSoloDisabled` from channel `from` on. */
  function NoSoloFrom(outputs: seq<string>, solo: seq<bool>, from: nat): (r: bool)
    requires from <= |solo| && NamedUpTo(outputs, from - 1)
    ensures r <==> forall c :: from <= c < |solo| && NamedUpTo(outputs, c) ==> !solo[c]
    decreases |solo| - from
  {
    if from == |solo| then true
    else if OutputName(outputs, from) == EmptyName then true
    else if solo[from] then false
    else NoSoloFrom(outputs, solo, from + 1)
  }

  /**
   * `allSoloDisabled`: true exactly when no channel before the first "Empty"
   * output is soloed.
   */
  function AllSoloDisabled(p: Processor): (r: bool)
    requires |p.solo| == MaxInstruments
    ensures r <==> forall c :: 0 <= c < MaxInstruments && NamedUpTo(p.outputs, c) ==> !p.solo[c]
  {
    NoSoloFrom(p.outputs, p.solo, 0)
  }

  /**
   * The two queries agree where the names run: a solo on a named channel is
   * found by `getSoloChannel`; only a solo past the first "Empty" output can
   * make them disagree.
   */
  lemma {:induction false} SoloQueriesAgree(p: Processor)
    requires |p.solo| == MaxInstruments
    ensures GetSoloChannel(p).None? ==> AllSoloDisabled(p)
    ensures !AllSoloDisabled(p) ==> GetSoloChannel(p).Some? && NamedUpTo(p.outputs, GetSoloChannel(p).value)
    ensures NamedUpTo(p.outputs, MaxInstruments - 1) ==> (AllSoloDisabled(p) <==> GetSoloChannel(p).None?)
  {
    if !AllSoloDisabled(p) {
      var c :| 0 <= c < MaxInstruments && NamedUpTo(p.outputs, c) && p.solo[c];
      var f := GetSoloChannel(p).value;
      assert f <= c;
      assert NamedUpTo(p.outputs, f);
    }
    if NamedUpTo(p.outputs, MaxInstruments - 1) && GetSoloChannel(p).Some? {
      var f := GetSoloChannel(p).value;
      assert NamedUpTo(p.outputs, f);
    }
  }

  // ----- the block -----

  /** Zeroes the output channels `numIn .. numOut - 1` (those no input feeds). */
  method ClearUnusedOutputs(b: Buffer, numIn: int, numOut: int) returns (r: Buffer)
    requires numOut <= |b|
    ensures SameShape(r, b)
    ensures forall c, i :: 0 <= c < |b| && 0 <= i < |b[c]| ==>
      r[c][i] == (if numIn <= c < numOut then 0.0 else b[c][i])
  {
    r := b;
    var first := if numIn < 0 then 0 else numIn;
    var c := first;
    while c < numOut
      invariant first <= c && (c <= numOut || c == first)
      invariant SameShape(r, b)
      invariant forall c', i :: 0 <= c' < |b| && 0 <= i < |b[c']| ==>
        r[c'][i] == (if numIn <= c' < c then 0.0 else b[c'][i])
    {
      r := r[c := seq(|b[c]|, _ => 0.0)];
      c := c + 1;
    }
  }

  /** The pan factor the master stage gives channel `c`: left on 0, right on 1, none elsewhere. */
  function MasterPan(c: nat, pan: real): (f: real)
    ensures -1.0 <= pan <= 1.0 ==> 0.0 <= f <= 1.0
    ensures pan == 0.0 ==> f == 1.0
  {
    if c == 0 then PanLeft(pan) else if c == 1 then PanRight(pan) else 1.0
  }

  /** The master level and pan multiply, which touches only the first two channels. */
  function LevelAndPan(c: nat, level: real, pan: real): real
  {
    if c < 2 then level * MasterPan(c, pan) else 1.0
  }

  /**
   * The factor the master stage as written gives sample `i` of channel `c`:
   * level times pan, and when the level changed the ramp from the previous
   * level on top of it.
   */
  function AsWrittenMasterGain(c: nat, level: real, pan: real, previous: real, n: nat, i: nat): real
    requires i < n
  {
    LevelAndPan(c, level, pan) * (if level == previous then 1.0 else RampGain(previous, level, n, i))
  }

  /**
   * The factor the master stage gives when a level change is faded in rather
   * than applied on top of the new level: pan times the ramp from the
   * previous level to the new one.
   */
  function CorrectedMasterGain(c: nat, level: real, pan: real, previous: real, n: nat, i: nat): real
    requires i < n
  {
    if level == previous then LevelAndPan(c, level, pan)
    else MasterPan(c, pan) * RampGain(previous, level, n, i)
  }

  /** Multiplies every sample of channel 0 by `f0` and of channel 1 (when present) by `f1`. */
  method ScaleFirstTwo(b: Buffer, f0: real, f1: real) returns (r: Buffer)
    requires |b| >= 1 && IsRect(b)
    ensures SameShape(r, b) && IsRect(r) && NumSamples(r) == NumSamples(b)
    ensures forall c, i :: 0 <= c < |b| && 0 <= i < |b[c]| ==>
      r[c][i] == (if c == 0 then b[c][i] * f0 else if c == 1 then b[c][i] * f1 else b[c][i])
  {
    var left := ScaleChannel(b[0], f0);
    r := b[0 := left];
    if |b| > 1 {
      var right := ScaleChannel(b[1], f1);
      r := r[1 := right];
    }
  }

  /**
   * The master section of `processBlock` as written: every sample of the
   * first two channels is multiplied by level times pan; when the level
   * differs from the previous block's, the whole buffer is then ramped from
   * the previous level to the new one, and the new level is remembered.
   */
  method MasterStage(b: Buffer, level: real, pan: real, previous: real) returns (r: Buffer, newPrevious: real)
    requires |b| >= 1 && IsRect(b)
    ensures SameShape(r, b)
    ensures newPrevious == level
    ensures forall c, i :: 0 <= c < |b| && 0 <= i < |b[c]| ==>
      r[c][i] == b[c][i] * AsWrittenMasterGain(c, level, pan, previous, NumSamples(b), i)
  {
    var scaled := ScaleFirstTwo(b, level * MasterPan(0, pan), level * MasterPan(1, pan));
    if level == previous {
      r := scaled;
    } else {
      r := ApplyGainRamp(scaled, previous, level);
    }
    newPrevious := level;
  }

  /**
   * The master section with the level change faded in once: the first two
   * channels get their pan factor and, when the level is unchanged, the level;
   * when it changed, the whole buffer is ramped from the previous level.
   */
  method MasterStageCorrected(b: Buffer, level: real, pan: real, previous: real) returns (r: Buffer, newPrevious: real)
    requires |b| >= 1 && IsRect(b)
    ensures SameShape(r, b)
    ensures newPrevious == level
    ensures forall c, i :: 0 <= c < |b| && 0 <= i < |b[c]| ==>
      r[c][i] == b[c][i] * CorrectedMasterGain(c, level, pan, previous, NumSamples(b), i)
  {
    if level == previous {
      r := ScaleFirstTwo(b, level * MasterPan(0, pan), level * MasterPan(1, pan));
    } else {
      var panned := ScaleFirstTwo(b, MasterPan(0, pan), MasterPan(1, pan));
      r := ApplyGainRamp(panned, previous, level);
    }
    newPrevious := level;
  }

  /**
   * The corrected stage fades: across a block where the level changes, the
   * gain starts at the previous level (continuing the last block) and stays
   * between the old and new levels, times the pan factor.
   */
  lemma {:induction false} CorrectedMasterGainFades(c: nat, level: real, pan: real, previous: real, n: nat, i: nat)
    requires i < n && level != previous && -1.0 <= pan <= 1.0
    ensures CorrectedMasterGain(c, level, pan, previous, n, 0) == MasterPan(c, pan) * previous
    ensures MasterPan(c, pan) * Min(previous, level) <= CorrectedMasterGain(c, level, pan, previous, n, i)
    ensures CorrectedMasterGain(c, level, pan, previous, n, i) <= MasterPan(c, pan) * Max(previous, level)
  {
    RampWithinBounds(previous, level, n, i);
    ScaledBetween(MasterPan(c, pan), Min(previous, level), RampGain(previous, level, n, i), Max(previous, level),
                  CorrectedMasterGain(c, level, pan, previous, n, i));
  }

  /** ... and moves by the same step, the pan factor times the level change over the block length, each sample. */
  lemma {:induction false} CorrectedMasterGainSteps(c: nat, level: real, pan: real, previous: real, n: nat, i: nat)
    requires i + 1 < n && level != previous
    ensures CorrectedMasterGain(c, level, pan, previous, n, i + 1) - CorrectedMasterGain(c, level, pan, previous, n, i)
      == MasterPan(c, pan) * RampStep(previous, level, n)
  {
    var f := MasterPan(c, pan);
    RampIsMonotone(previous, level, n, i);
    ScaledDifference(f, RampGain(previous, level, n, i + 1), RampGain(previous, level, n, i));
  }

  /** A non-negative factor `f` keeps `x = f * g` between `f * lo` and `f * hi`. */
  lemma ScaledBetween(f: real, lo: real, g: real, hi: real, x: real)
    requires 0.0 <= f && lo <= g <= hi && x == f * g
    ensures f * lo <= x <= f * hi
  {
    ScaleMonotone(lo, g, f);
    ScaleMonotone(g, hi, f);
    assert lo * f == f * lo && g * f == f * g && hi * f == f * hi;
  }

  /** Multiplication distributes over a difference. */
  lemma ScaledDifference(f: real, a: real, b: real)
    ensures f * a - f * b == f * (a - b)
  {
  }

  /**
   * As written, the level is applied twice across a change: going from level
   * 1 to 1/2 over a four-sample block at centre pan, the block starts at 1/2
   * instead of 1 (a jump from the previous block's end) and ends at 5/16,
   * below both levels.
   */
  lemma AsWrittenMasterGainJumps()
    ensures AsWrittenMasterGain(0, 0.5, 0.0, 1.0, 4, 0) == 0.5
    ensures AsWrittenMasterGain(0, 0.5, 0.0, 1.0, 4, 3) == 5.0 / 16.0
    ensures AsWrittenMasterGain(0, 0.5, 0.0, 1.0, 4, 3) < Min(1.0, 0.5)
    ensures CorrectedMasterGain(0, 0.5, 0.0, 1.0, 4, 0) == 1.0
  {
    assert RampGain(1.0, 0.5, 4, 3) == 0.625;
  }

  /**
   * `processBlock`: clears the outputs no input feeds, then runs the master
   * stage as written using the current master level and pan. The master
   * mute parameter plays no part, and the instruments are not rendered here.
   */
  method ProcessBlock(p: Processor, b: Buffer, numIn: int, numOut: int, masterLevel: real, masterPan: real)
    returns (r: Processor, out: Buffer)
    requires |b| >= 1 && IsRect(b) && numOut <= |b|
    ensures r == p.(previousMasterGain := masterLevel)
    ensures SameShape(out, b)
    ensures forall c, i :: 0 <= c < |b| && 0 <= i < |b[c]| ==>
      out[c][i] == (if numIn <= c < numOut then 0.0 else b[c][i])
                   * AsWrittenMasterGain(c, masterLevel, masterPan, p.previousMasterGain, NumSamples(b), i)
  {
    var cleared := ClearUnusedOutputs(b, numIn, numOut);
    assert IsRect(cleared) && NumSamples(cleared) == NumSamples(b);
    var newPrevious;
    out, newPrevious := MasterStage(cleared, masterLevel, masterPan, p.previousMasterGain);
    r := p.(previousMasterGain := newPrevious);
  }

  /** `processBlock` with the level change faded in once. */
  method ProcessBlockCorrected(p: Processor, b: Buffer, numIn: int, numOut: int, masterLevel: real, masterPan: real)
    returns (r: Processor, out: Buffer)
    requires |b| >= 1 && IsRect(b) && numOut <= |b|
    ensures r == p.(previousMasterGain := masterLevel)
    ensures SameShape(out, b)
    ensures forall c, i :: 0 <= c < |b| && 0 <= i < |b[c]| ==>
      out[c][i] == (if numIn <= c < numOut then 0.0 else b[c][i])
                   * CorrectedMasterGain(c, masterLevel, masterPan, p.previousMasterGain, NumSamples(b), i)
  {
    var cleared := ClearUnusedOutputs(b, numIn, numOut);
    assert IsRect(cleared) && NumSamples(cleared) == NumSamples(b);
    var newPrevious;
    out, newPrevious := MasterStageCorrected(cleared, masterLevel, masterPan, p.previousMasterGain);
    r := p.(previousMasterGain := newPrevious);
  }
}
