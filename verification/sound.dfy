/**
 * DrumSound: one sample slot of an instrument. It is bound to a MIDI note and
 * a half-open velocity range, resolves its sample file name from the
 * instrument name, round-robin index and velocity floor, and loads that file
 * once from its background thread.
 */
module Sound {

  import opened Options
  import opened Audio

  /** JUCE `Range<float>`: the half-open interval [start, end). */
  datatype VelocityRange = VelocityRange(start: real, end: real)
  {
    /** `Range::contains`: start is included, end is excluded. */
    predicate Contains(v: real)
    {
      start <= v < end
    }

    /** `Range::setStart`: moving the start past the end drags the end along. */
    function SetStart(s: real): (r: VelocityRange)
      ensures r.start == s && r.end == Max(end, s)
    {
      VelocityRange(s, if end < s then s else end)
    }

    /** `Range::setEnd`: moving the end before the start drags the start along. */
    function SetEnd(e: real): (r: VelocityRange)
      ensures r.end == e && r.start == Min(start, e)
    {
      VelocityRange(if e < start then e else start, e)
    }
  }

  /**
   * What the audio decoder reports for a file: sample rate, length in frames,
   * channel count, and the decoded frames of each channel.
   */
  datatype AudioFile = AudioFile(sampleRate: real, lengthInSamples: int, numChannels: nat, frames: seq<seq<real>>)

  /** A decoder's report is consistent: every channel holds at least `lengthInSamples` frames. */
  predicate IsDecoded(f: AudioFile)
  {
    && f.numChannels >= 1
    && |f.frames| == f.numChannels
    && forall c :: 0 <= c < |f.frames| ==> |f.frames[c]| >= f.lengthInSamples
  }

  /** Number of guard frames allocated after the last frame of a sample. */
  const GuardFrames: nat := 4

  /**
   * A loaded sample: one or two channels, each `len` frames followed by the
   * guard frames the loader allocates past the end.
   */
  predicate IsSample(data: Buffer, len: int)
  {
    && len > 0
    && 1 <= |data| <= 2
    && forall c :: 0 <= c < |data| ==> |data[c]| == len + GuardFrames
  }

  datatype DrumSound = DrumSound(
    name: string,
    index: int,
    velocity: VelocityRange,
    playingMidiNote: int,
    path: string,
    isPathSet: bool,
    data: Option<Buffer>,
    lenght: int)
  {
    predicate IsLoaded()
    {
      data.Some? && IsSample(data.value, lenght)
    }

    /** `appliesToNote`: the trigger's note is the bound note. */
    predicate AppliesToNote(midiNoteNumber: int)
    {
      midiNoteNumber == playingMidiNote
    }

    /** `appliesTo`: the note matches and the velocity lies in the half-open range. */
    predicate AppliesTo(midiNoteNumber: int, vel: real)
    {
      AppliesToNote(midiNoteNumber) && velocity.Contains(vel)
    }

    /** `appliesToChannel`: every MIDI channel is accepted. */
    predicate AppliesToChannel(midiChannel: int)
    {
      true
    }
  }

  /**
   * The velocity range is half-open: a trigger at the range's start applies
   * (when the range is not empty), one at its end never does.
   */
  lemma HalfOpenRange(s: DrumSound, n: int)
    ensures s.AppliesTo(n, s.velocity.start) <==> n == s.playingMidiNote && s.velocity.start < s.velocity.end
    ensures !s.AppliesTo(n, s.velocity.end)
  {
  }

  /** Every MIDI channel is accepted, so the channel never filters a trigger. */
  lemma AnyChannelApplies(s: DrumSound)
    ensures forall ch :: s.AppliesToChannel(ch)
  {
  }

  /** A freshly constructed sound: note 0, empty range, no path, nothing loaded. */
  function NewSound(): (s: DrumSound)
    ensures !s.isPathSet && s.data.None? && s.path == ""
  {
    DrumSound("", 0, VelocityRange(0.0, 0.0), 0, "", false, None, 0)
  }

  function SetName(s: DrumSound, name: string): DrumSound
  {
    s.(name := name)
  }

  function SetIndex(s: DrumSound, i: int): DrumSound
  {
    s.(index := i)
  }

  /**
   * `setVelocityRange`: copies the start and then the end through the range
   * setters, so a well-formed range is copied as is.
   */
  function SetVelocityRange(s: DrumSound, range: VelocityRange): (r: DrumSound)
    ensures r == s.(velocity := r.velocity)
    ensures r.velocity.start <= r.velocity.end
    ensures range.start <= range.end ==> r.velocity == range
    ensures range.end < range.start ==> r.velocity == VelocityRange(range.end, range.end)
  {
    s.(velocity := s.velocity.SetStart(range.start).SetEnd(range.end))
  }

  /** `setMidiNote`: rebinds the sound to another note and changes nothing else. */
  function SetMidiNote(s: DrumSound, noteToSet: int): (r: DrumSound)
    ensures forall n :: r.AppliesToNote(n) <==> n == noteToSet
    ensures r.(playingMidiNote := s.playingMidiNote) == s
  {
    s.(playingMidiNote := noteToSet)
  }

  /**
   * A sound given a well-formed range and then a note answers exactly the
   * triggers on that note whose velocity lies in the range, on any channel.
   */
  lemma ConfiguredSoundApplies(s: DrumSound, range: VelocityRange, k: int, n: int, v: real, ch: int)
    requires range.start <= range.end
    ensures var t := SetMidiNote(SetVelocityRange(s, range), k);
      && (t.AppliesToNote(n) <==> n == k)
      && (t.AppliesTo(n, v) <==> n == k && range.start <= v < range.end)
      && t.AppliesToChannel(ch)
  {
  }

  // ----- sample file naming -----

  function DigitChar(d: nat): char
    requires d < 10
  {
    (('0' as int) + d) as char
  }

  predicate IsDigit(ch: char)
  {
    '0' as int <= ch as int <= '9' as int
  }

  function DigitValue(ch: char): (d: nat)
    requires IsDigit(ch)
    ensures d < 10
  {
    (ch as int) - ('0' as int)
  }

  /** Decimal text of a natural number, as JUCE's `String << int` writes it. */
  function NatToString(n: nat): (s: string)
    ensures |s| >= 1
    ensures forall k :: 0 <= k < |s| ==> IsDigit(s[k])
  {
    if n < 10 then [DigitChar(n)] else NatToString(n / 10) + [DigitChar(n % 10)]
  }

  /** Decimal text of an integer, with a leading minus sign when negative. */
  function IntToString(i: int): string
  {
    if i < 0 then "-" + NatToString(-i) else NatToString(i)
  }

  /**
   * JUCE's `roundToInt`: adding 1.5 * 2^52 in double precision rounds to the
   * nearest integer, ties going to the even neighbour.
   */
  function RoundToInt(x: real): (k: int)
    ensures (k - 1) as real < x < (k + 1) as real
    ensures x - 0.5 <= k as real <= x + 0.5
    ensures x - (x.Floor as real) == 0.5 ==> k % 2 == 0
  {
    var f := x.Floor;
    var d := x - f as real;
    if d < 0.5 then f
    else if d > 0.5 then f + 1
    else if f % 2 == 0 then f else f + 1
  }

  /**
   * The sample file of a sound:
   * `<dir><sep><name>_<index>_<round(velocityStart * 127)>.aif`.
   */
  function SamplePath(dir: string, sep: char, name: string, index: int, velocityStart: real): string
  {
    dir + [sep] + name + "_" + IntToString(index) + "_"
      + IntToString(RoundToInt(velocityStart * 127.0)) + ".aif"
  }

  /**
   * `setPath`: appends the sample file name to `path` and marks the path as
   * set. `dir` and `sep` are the sample directory and separator the source
   * derives from the process's working directory.
   */
  function SetPath(s: DrumSound, dir: string, sep: char): (r: DrumSound)
    ensures r.isPathSet
    ensures s.path == "" ==> r.path == SamplePath(dir, sep, s.name, s.index, s.velocity.start)
    ensures r.(path := s.path, isPathSet := s.isPathSet) == s
  {
    s.(path := s.path + SamplePath(dir, sep, s.name, s.index, s.velocity.start), isPathSet := true)
  }

  /**
   * `readFromPath`: `reader` is what the decoder returns for the file (None
   * when it is missing or unreadable). Loads only when the path is not empty
   * and the decoder reports a positive sample rate and length; the buffer then
   * has min(2, channels) channels of `length + 4` frames.
   */
  function ReadFromPath(s: DrumSound, pathToOpen: string, reader: Option<AudioFile>): (r: DrumSound)
    requires reader.Some? ==> IsDecoded(reader.value)
    ensures (|pathToOpen| == 0 || reader.None? || reader.value.sampleRate <= 0.0
             || reader.value.lengthInSamples <= 0) ==> r == s
    ensures !(|pathToOpen| == 0 || reader.None? || reader.value.sampleRate <= 0.0
              || reader.value.lengthInSamples <= 0) ==>
      && r.IsLoaded()
      && r.lenght == reader.value.lengthInSamples
      && |r.data.value| == (if reader.value.numChannels < 2 then reader.value.numChannels else 2)
      && (forall c, i :: 0 <= c < |r.data.value| && 0 <= i < r.lenght ==>
            r.data.value[c][i] == reader.value.frames[c][i])
    ensures r.(data := s.data, lenght := s.lenght) == s
  {
    if |pathToOpen| == 0 then s
    else match reader
      case None => s
      case Some(f) =>
        if f.sampleRate > 0.0 && f.lengthInSamples > 0 then
          var len := f.lengthInSamples;
          var channels := if f.numChannels < 2 then f.numChannels else 2;
          var buffer := seq(channels, c requires 0 <= c < channels =>
                              f.frames[c][..len] + seq(GuardFrames, _ => 0.0));
          s.(lenght := len, data := Some(buffer))
        else s
  }

  /**
   * One pass of the loader thread's loop: a sound whose path is not yet set
   * resolves it and reads the file; afterwards the path is set and further
   * passes do nothing. `reader` is the decoder's answer for the resolved path.
   */
  function RunStep(s: DrumSound, dir: string, sep: char, reader: Option<AudioFile>): (r: DrumSound)
    requires reader.Some? ==> IsDecoded(reader.value)
    ensures r.isPathSet
    ensures s.isPathSet ==> r == s
    ensures s.IsLoaded() ==> r.IsLoaded()
    ensures r.name == s.name && r.index == s.index && r.velocity == s.velocity
      && r.playingMidiNote == s.playingMidiNote
  {
    if !s.isPathSet then
      var s1 := SetPath(s, dir, sep);
      ReadFromPath(s1, s1.path, reader)
    else s
  }

  /** The loader resolves and loads at most once: a second pass changes nothing. */
  lemma LoadsAtMostOnce(s: DrumSound, dir: string, sep: char, first: Option<AudioFile>, second: Option<AudioFile>)
    requires first.Some? ==> IsDecoded(first.value)
    requires second.Some? ==> IsDecoded(second.value)
    ensures RunStep(RunStep(s, dir, sep, first), dir, sep, second) == RunStep(s, dir, sep, first)
  {
  }

  /**
   * On a fresh sound the first loader pass reads exactly the file named by
   * the naming convention, and loads it when the decoder accepts it.
   */
  lemma {:induction false} FirstPassReadsSamplePath(s: DrumSound, dir: string, sep: char, f: AudioFile)
    requires !s.isPathSet && s.path == ""
    requires IsDecoded(f) && f.sampleRate > 0.0 && f.lengthInSamples > 0
    ensures RunStep(s, dir, sep, Some(f)).path == SamplePath(dir, sep, s.name, s.index, s.velocity.start)
    ensures RunStep(s, dir, sep, Some(f)).IsLoaded()
    ensures RunStep(s, dir, sep, Some(f)).lenght == f.lengthInSamples
  {
    var s1 := SetPath(s, dir, sep);
    assert |s1.path| > 0;
  }

  // ----- reading a sample file name back -----

  /** Value of a string of decimal digits. */
  function ParseNat(s: string): nat
    requires forall k :: 0 <= k < |s| ==> IsDigit(s[k])
  {
    if |s| == 0 then 0
    else ParseNat(s[..|s| - 1]) * 10 + DigitValue(s[|s| - 1])
  }

  /** Parsing the decimal text of a number gives the number back. */
  lemma {:induction false} ParseNatToString(n: nat)
    ensures ParseNat(NatToString(n)) == n
    decreases n
  {
    var s := NatToString(n);
    if n >= 10 {
      ParseNatToString(n / 10);
      assert s[..|s| - 1] == NatToString(n / 10);
    }
  }

  /** Splits a string into its longest suffix of digits and what precedes it. */
  function SplitTrailingDigits(s: string): (r: (string, string))
    ensures r.0 + r.1 == s
    ensures forall k :: 0 <= k < |r.1| ==> IsDigit(r.1[k])
  {
    if |s| == 0 || !IsDigit(s[|s| - 1]) then (s, "")
    else
      var p := SplitTrailingDigits(s[..|s| - 1]);
      (p.0, p.1 + [s[|s| - 1]])
  }

  lemma {:induction false} SplitTrailingDigitsOf(prefix: string, digits: string)
    requires forall k :: 0 <= k < |digits| ==> IsDigit(digits[k])
    requires |prefix| > 0 && !IsDigit(prefix[|prefix| - 1])
    ensures SplitTrailingDigits(prefix + digits) == (prefix, digits)
    decreases |digits|
  {
    var s := prefix + digits;
    if |digits| == 0 {
      assert s == prefix;
    } else {
      assert s[..|s| - 1] == prefix + digits[..|digits| - 1];
      SplitTrailingDigitsOf(prefix, digits[..|digits| - 1]);
      assert digits == digits[..|digits| - 1] + [s[|s| - 1]];
    }
  }

  /**
   * Reads `<prefix>_<index>_<velocity>.aif` back into its three parts; None
   * when the name does not have that shape.
   */
  function ParseSamplePath(path: string): Option<(string, nat, nat)>
  {
    if |path| < 4 || path[|path| - 4..] != ".aif" then None
    else
      var (rest1, vel) := SplitTrailingDigits(path[..|path| - 4]);
      if |vel| == 0 || |rest1| == 0 || rest1[|rest1| - 1] != '_' then None
      else
        var (rest2, idx) := SplitTrailingDigits(rest1[..|rest1| - 1]);
        if |idx| == 0 || |rest2| == 0 || rest2[|rest2| - 1] != '_' then None
        else Some((rest2[..|rest2| - 1], ParseNat(idx), ParseNat(vel)))
  }

  /** A name of the shape `<prefix>_<digits>_<digits>.aif` is read back into its parts. */
  lemma {:induction false} ParseNamedPath(pre: string, idx: string, vel: string)
    requires |idx| > 0 && forall k :: 0 <= k < |idx| ==> IsDigit(idx[k])
    requires |vel| > 0 && forall k :: 0 <= k < |vel| ==> IsDigit(vel[k])
    ensures ParseSamplePath(pre + "_" + idx + "_" + vel + ".aif") == Some((pre, ParseNat(idx), ParseNat(vel)))
  {
    var rest1 := pre + "_" + idx + "_";
    var path := rest1 + vel + ".aif";
    assert path[..|path| - 4] == rest1 + vel;
    assert path[|path| - 4..] == ".aif";
    assert !IsDigit(rest1[|rest1| - 1]);
    SplitTrailingDigitsOf(rest1, vel);
    var pre1 := pre + "_";
    assert rest1[..|rest1| - 1] == pre1 + idx;
    assert !IsDigit(pre1[|pre1| - 1]);
    SplitTrailingDigitsOf(pre1, idx);
    assert pre1[..|pre1| - 1] == pre;
  }

  /**
   * Round trip of the naming convention: the directory-and-name prefix, the
   * round-robin index and the velocity floor can be read back from the path,
   * so sounds that differ in index or velocity floor never share a file.
   */
  lemma {:induction false} SamplePathRoundTrip(dir: string, sep: char, name: string, index: nat, velocityStart: real)
    requires RoundToInt(velocityStart * 127.0) >= 0
    ensures ParseSamplePath(SamplePath(dir, sep, name, index, velocityStart))
      == Some((dir + [sep] + name, index, RoundToInt(velocityStart * 127.0) as nat))
  {
    var floor: nat := RoundToInt(velocityStart * 127.0);
    var pre := dir + [sep] + name;
    assert SamplePath(dir, sep, name, index, velocityStart)
      == pre + "_" + NatToString(index) + "_" + NatToString(floor) + ".aif";
    ParseNamedPath(pre, NatToString(index), NatToString(floor));
    ParseNatToString(index);
    ParseNatToString(floor);
  }

  /** Two sounds of one instrument whose index or velocity floor differ load different files. */
  lemma SamplePathsDistinct(dir: string, sep: char, name: string, i1: nat, v1: real, i2: nat, v2: real)
    requires RoundToInt(v1 * 127.0) >= 0 && RoundToInt(v2 * 127.0) >= 0
    requires i1 != i2 || RoundToInt(v1 * 127.0) != RoundToInt(v2 * 127.0)
    ensures SamplePath(dir, sep, name, i1, v1) != SamplePath(dir, sep, name, i2, v2)
  {
    SamplePathRoundTrip(dir, sep, name, i1, v1);
    SamplePathRoundTrip(dir, sep, name, i2, v2);
  }
}
