/**
 * The velocity layers and sound list a DrumSynth builds at construction:
 * `numVelocityRange` contiguous equal-width ranges starting at 1/128, with
 * `maxSoundsPerRange` round-robin sounds per range, all bound to the
 * instrument's note.
 */
module Layers {

  import opened Options
  import opened Audio
  import opened Sound

  /** Round-robin sounds per velocity layer. */
  const MaxSoundsPerRange: nat := 1
  /** Voices in each instrument's polyphony pool. */
  const MaxVoices: nat := 10
  /** Velocity layers per instrument. */
  const NumVelocityRange: nat := 2

  /** Start of the first layer. */
  const VelocityBase: real := 1.0 / 128.0
  /** Total width the layers share. */
  const VelocityTotal: real := 1.0

  /** Width of each of `n` layers. */
  function LayerWidth(n: nat): (w: real)
    requires n >= 1
    ensures w > 0.0 && (n as real) * w == VelocityTotal
  {
    VelocityTotal / (n as real)
  }

  /** Start of layer `k` (counting from 0). */
  function LayerStart(n: nat, k: int): real
    requires n >= 1
  {
    VelocityBase + (k as real) * LayerWidth(n)
  }

  /** Layer `k` of `n`: [start, start + width). */
  function Layer(n: nat, k: nat): VelocityRange
    requires n >= 1
  {
    VelocityRange(LayerStart(n, k), LayerStart(n, k) + LayerWidth(n))
  }

  /** The start of layer `k + 1` is one width above the start of layer `k`. */
  lemma NextLayerStart(n: nat, k: int)
    requires n >= 1
    ensures LayerStart(n, k + 1) == LayerStart(n, k) + LayerWidth(n)
  {
    assert ((k + 1) as real) * LayerWidth(n) == (k as real) * LayerWidth(n) + LayerWidth(n);
  }

  /** Layer starts grow with the layer number. */
  lemma LayerStartMonotone(n: nat, j: int, k: int)
    requires n >= 1 && j <= k
    ensures LayerStart(n, j) <= LayerStart(n, k)
  {
    assert (k as real) * LayerWidth(n) - (j as real) * LayerWidth(n) == ((k - j) as real) * LayerWidth(n);
    assert ((k - j) as real) * LayerWidth(n) >= 0.0;
  }

  /**
   * How many layers the construction loop builds once it has reached layer
   * `k`: it builds layer `k`, then stops when that was the last one or when
   * the next start exceeds the total.
   */
  function LayersFrom(n: nat, k: nat): (c: nat)
    requires 1 <= n && k < n
    ensures 1 <= c <= n - k
    decreases n - k
  {
    if k + 1 >= n || LayerStart(n, k + 1) > VelocityTotal then 1 else 1 + LayersFrom(n, k + 1)
  }

  /** Number of layers the construction loop builds for `n` requested layers. */
  function LayerCount(n: nat): (c: nat)
    requires n >= 1
    ensures 1 <= c <= n
  {
    LayersFrom(n, 0)
  }

  /** Up to 128 layers the early exit never fires, so all `n` layers are built. */
  lemma {:induction false} AllLayersBuilt(n: nat)
    requires 1 <= n <= 128
    ensures LayerCount(n) == n
  {
    forall k | 0 <= k < n
      ensures LayersFrom(n, k) == n - k
    {
      AllLayersBuiltFrom(n, k);
    }
  }

  lemma {:induction false} AllLayersBuiltFrom(n: nat, k: nat)
    requires 1 <= n <= 128 && k < n
    ensures LayersFrom(n, k) == n - k
    decreases n - k
  {
    if k + 1 < n {
      LayerStartMonotone(n, k + 1, n - 1);
      NextLayerStart(n, n - 1);
      assert LayerStart(n, n) == VelocityBase + VelocityTotal;
      assert LayerWidth(n) >= 1.0 / 128.0;
      AllLayersBuiltFrom(n, k + 1);
    }
  }

  /**
   * The layers partition [1/128, 1/128 + 1): the first starts at 1/128, each
   * ends where the next starts, each is non-empty, and the last ends at
   * 1/128 + 1 rather than at 1.
   */
  lemma {:induction false} LayersPartition(n: nat)
    requires n >= 1
    ensures Layer(n, 0).start == VelocityBase
    ensures Layer(n, n - 1).end == VelocityBase + VelocityTotal
    ensures forall k :: 0 <= k < n ==> Layer(n, k).start < Layer(n, k).end
    ensures forall k :: 0 <= k < n - 1 ==> Layer(n, k).end == Layer(n, k + 1).start
  {
    NextLayerStart(n, n - 1);
    forall k | 0 <= k < n - 1
      ensures Layer(n, k).end == Layer(n, k + 1).start
    {
      NextLayerStart(n, k);
    }
  }

  /** Scaling an offset up by `n` layers and back down by the width gives the offset. */
  lemma ScaleBack(d: real, n: nat)
    requires n >= 1
    ensures (d * (n as real)) * LayerWidth(n) == d
  {
    assert (d * (n as real)) * LayerWidth(n) == d * ((n as real) * LayerWidth(n));
  }

  /** Every velocity in [1/128, 1/128 + 1) lies in some layer. */
  lemma {:induction false} LayerOf(n: nat, v: real) returns (k: nat)
    requires n >= 1
    requires VelocityBase <= v < VelocityBase + VelocityTotal
    ensures k < n && Layer(n, k).Contains(v)
  {
    var w := LayerWidth(n);
    var d := v - VelocityBase;
    var x := d * (n as real);
    ScaleMonotone(0.0, d, n as real);
    ScaleStrict(d, 1.0, n as real);
    k := x.Floor;
    ScaleMonotone(k as real, x, w);
    ScaleStrict(x, (k as real) + 1.0, w);
    ScaleBack(d, n);
    NextLayerStart(n, k);
  }

  /** No velocity lies in two different layers. */
  lemma {:induction false} LayersDisjoint(n: nat, k1: nat, k2: nat, v: real)
    requires n >= 1
    requires Layer(n, k1).Contains(v) && Layer(n, k2).Contains(v)
    ensures k1 == k2
  {
    if k1 < k2 {
      NextLayerStart(n, k1);
      LayerStartMonotone(n, k1 + 1, k2);
    } else if k2 < k1 {
      NextLayerStart(n, k2);
      LayerStartMonotone(n, k2 + 1, k1);
    }
  }

  /** A velocity below 1/128 or at or above the end of the built layers lies in no layer. */
  lemma {:induction false} OutsideAllLayers(n: nat, k: nat, v: real)
    requires n >= 1 && k < n
    requires v < VelocityBase || v >= VelocityBase + VelocityTotal
    ensures !Layer(n, k).Contains(v)
  {
    LayerStartMonotone(n, 0, k);
    NextLayerStart(n, k);
    LayerStartMonotone(n, k + 1, n);
    NextLayerStart(n, n - 1);
  }

  /** MIDI note-on velocities 1..127, read as `v / 127`, all fall inside the layers' span. */
  lemma MidiVelocityInSpan(velocity: int)
    requires 1 <= velocity <= 127
    ensures VelocityBase <= velocity as real / 127.0 < VelocityBase + VelocityTotal
  {
  }

  // ----- the sound list -----

  /** A sound as `addSounds` configures it. */
  function MakeSound(name: string, range: VelocityRange, index: int, note: int): (s: DrumSound)
    ensures !s.isPathSet && s.path == "" && s.data.None?
    ensures s.name == name && s.index == index && s.playingMidiNote == note
    ensures range.start <= range.end ==> s.velocity == range
  {
    SetMidiNote(SetIndex(SetVelocityRange(SetName(NewSound(), name), range), index), note)
  }

  /**
   * The loader thread as the setup order intends: when the four setters run
   * before its first pass, that pass reads the configured sample file.
   */
  lemma {:induction false} ConfiguredFirstPass(name: string, range: VelocityRange, index: int, note: int,
                                              dir: string, sep: char, f: AudioFile)
    requires range.start <= range.end
    requires IsDecoded(f) && f.sampleRate > 0.0 && f.lengthInSamples > 0
    ensures RunStep(MakeSound(name, range, index, note), dir, sep, Some(f)).path
      == SamplePath(dir, sep, name, index, range.start)
    ensures RunStep(MakeSound(name, range, index, note), dir, sep, Some(f)).IsLoaded()
  {
    FirstPassReadsSamplePath(MakeSound(name, range, index, note), dir, sep, f);
  }

  /**
   * The loader thread as written: the constructor starts it before the
   * setters run, and nothing makes its first pass wait for them. If that
   * pass comes first, it resolves the path from the empty name, the index
   * the constructor left behind (`index0`) and the empty range, and marks
   * the path as set; the configured file is then never read.
   */
  lemma LoaderRaceReadsUnconfiguredPath(index0: int, name: string, range: VelocityRange, index: int, note: int,
                                        dir: string, sep: char, early: Option<AudioFile>, later: Option<AudioFile>)
    requires early.Some? ==> IsDecoded(early.value)
    requires later.Some? ==> IsDecoded(later.value)
    ensures var raced := RunStep(NewSound().(index := index0), dir, sep, early);
      var configured := SetMidiNote(SetIndex(SetVelocityRange(SetName(raced, name), range), index), note);
      && configured.path == SamplePath(dir, sep, "", index0, 0.0)
      && RunStep(configured, dir, sep, later) == configured
  {
  }

  /** Sound `j` of the list: layer `j / m`, round-robin index `j % m + 1`. */
  function SoundAt(n: nat, m: nat, name: string, note: int, j: nat): DrumSound
    requires n >= 1 && m >= 1
  {
    MakeSound(name, Layer(n, j / m), j % m + 1, note)
  }

  /** Sound `j` carries layer `j / m`'s range, slot `j % m + 1`, the name and the note. */
  lemma SoundAtFields(n: nat, m: nat, name: string, note: int, j: nat)
    requires n >= 1 && m >= 1
    ensures SoundAt(n, m, name, note, j).velocity == Layer(n, j / m)
    ensures SoundAt(n, m, name, note, j).index == j % m + 1
    ensures SoundAt(n, m, name, note, j).playingMidiNote == note
    ensures SoundAt(n, m, name, note, j).name == name
  {
    assert Layer(n, j / m).start <= Layer(n, j / m).end;
  }

  /** The sound list of a freshly constructed synth. */
  function InitialSounds(n: nat, m: nat, name: string, note: int): seq<DrumSound>
    requires n >= 1 && m >= 1
  {
    seq(LayerCount(n) * m, j requires 0 <= j => SoundAt(n, m, name, note, j))
  }

  /** A multiple of a positive `m` strictly between `-m` and `m` is zero. */
  lemma MultipleInsideUnit(d: int, m: int)
    requires m > 0 && -m < d * m < m
    ensures d == 0
  {
    if d >= 1 {
      MulMonotone(1, d, m);
    } else if d <= -1 {
      MulMonotone(d, -1, m);
    }
  }

  lemma MulMonotone(a: int, b: int, m: nat)
    requires a <= b
    ensures a * m <= b * m
  {
    assert b * m - a * m == (b - a) * m;
  }

  /** Position `j` splits into its layer `j / m` and slot `j % m`. */
  lemma SplitPosition(j: nat, m: nat)
    requires m > 0
    ensures j == (j / m) * m + j % m && 0 <= j % m < m && 0 <= j / m
  {
  }

  /** A position below `c * m` lies in a layer below `c`. */
  lemma LayerBelow(j: nat, m: nat, c: nat)
    requires m > 0 && j < c * m
    ensures j / m < c
  {
    SplitPosition(j, m);
    if j / m >= c {
      MulMonotone(c, j / m, m);
    }
  }

  /** Slot `i` of layer `k` is list position `k * m + i`, and back. */
  lemma {:induction false} DivModOfSlot(k: nat, i: nat, m: nat)
    requires i < m
    ensures (k * m + i) / m == k && (k * m + i) % m == i
  {
    var j := k * m + i;
    var q := j / m;
    var r := j % m;
    assert j == q * m + r && 0 <= r < m;
    assert (q - k) * m == q * m - k * m;
    MultipleInsideUnit(q - k, m);
  }

  /**
   * The inner loop of `addSounds`: appends the `m` sounds of layer `k`, with
   * round-robin indices 1..m, to a list holding the layers below it.
   */
  method AddLayerSounds(sounds: seq<DrumSound>, n: nat, m: nat, name: string, note: int, k: nat, range: VelocityRange)
    returns (r: seq<DrumSound>)
    requires n >= 1 && m >= 1 && range == Layer(n, k)
    requires |sounds| == k * m
    requires forall j :: 0 <= j < |sounds| ==> sounds[j] == SoundAt(n, m, name, note, j)
    ensures |r| == (k + 1) * m
    ensures forall j :: 0 <= j < |r| ==> r[j] == SoundAt(n, m, name, note, j)
  {
    r := sounds;
    var index := 1;
    while index <= m
      invariant 1 <= index <= m + 1
      invariant |r| == k * m + index - 1
      invariant forall j :: 0 <= j < |r| ==> r[j] == SoundAt(n, m, name, note, j)
    {
      DivModOfSlot(k, index - 1, m);
      assert MakeSound(name, range, index, note) == SoundAt(n, m, name, note, |r|);
      r := r + [MakeSound(name, range, index, note)];
      index := index + 1;
    }
  }

  /**
   * `addSounds`: for each velocity layer (leaving the loop early once the
   * next start exceeds the total) adds `m` sounds with round-robin indices
   * 1..m, each with that layer's range and bound to `note`.
   */
  method AddSounds(n: nat, m: nat, name: string, note: int) returns (sounds: seq<DrumSound>)
    requires n >= 1 && m >= 1
    ensures sounds == InitialSounds(n, m, name, note)
  {
    var velocityRange := VelocityRange(0.0, 0.0);
    var start := VelocityBase;
    var width := VelocityTotal / (n as real);
    sounds := [];
    var k: nat := 0;
    var done := false;
    while k < n && !done
      invariant k <= n
      invariant width == LayerWidth(n) && start == LayerStart(n, k)
      invariant (done || k == n) ==> k == LayerCount(n)
      invariant !done && k < n ==> k + LayersFrom(n, k) == LayerCount(n)
      invariant |sounds| == k * m
      invariant forall j :: 0 <= j < |sounds| ==> sounds[j] == SoundAt(n, m, name, note, j)
    {
      velocityRange := velocityRange.SetStart(start).SetEnd(start + width);
      sounds := AddLayerSounds(sounds, n, m, name, note, k, velocityRange);
      NextLayerStart(n, k);
      start := start + width;
      k := k + 1;
      if start > VelocityTotal {
        done := true;
      }
    }
  }

  /**
   * Sound `j` of the initial list is named after the instrument, bound to its
   * note, covers velocity layer `j / m` and has round-robin index `j % m + 1`;
   * nothing is loaded and no path is set.
   */
  lemma InitialSoundsFields(n: nat, m: nat, name: string, note: int)
    requires n >= 1 && m >= 1
    ensures var sounds := InitialSounds(n, m, name, note);
      forall j :: 0 <= j < |sounds| ==>
        && sounds[j].name == name
        && sounds[j].velocity == Layer(n, j / m)
        && sounds[j].index == j % m + 1
        && sounds[j].playingMidiNote == note
        && !sounds[j].isPathSet && sounds[j].data.None?
  {
    var sounds := InitialSounds(n, m, name, note);
    forall j | 0 <= j < |sounds|
      ensures sounds[j].velocity == Layer(n, j / m) && sounds[j].index == j % m + 1
    {
      SoundAtFields(n, m, name, note, j);
    }
  }

  /**
   * For a note-on on the bound note with a velocity in [1/128, 1/128 + 1),
   * each round-robin index has exactly one sound that applies.
   */
  lemma {:induction false} ExactlyOneSoundPerSlot(n: nat, m: nat, name: string, note: int, v: real, slot: nat)
    requires 1 <= n <= 128 && m >= 1 && 1 <= slot <= m
    requires VelocityBase <= v < VelocityBase + VelocityTotal
    ensures var sounds := InitialSounds(n, m, name, note);
      exists j :: 0 <= j < |sounds| && sounds[j].index == slot && sounds[j].AppliesTo(note, v)
    ensures var sounds := InitialSounds(n, m, name, note);
      forall j1, j2 :: (0 <= j1 < |sounds| && 0 <= j2 < |sounds|
        && sounds[j1].index == slot && sounds[j1].AppliesTo(note, v)
        && sounds[j2].index == slot && sounds[j2].AppliesTo(note, v)) ==> j1 == j2
  {
    var sounds := InitialSounds(n, m, name, note);
    AllLayersBuilt(n);
    var k := LayerOf(n, v);
    var j := k * m + (slot - 1);
    DivModOfSlot(k, slot - 1, m);
    MulMonotone(k + 1, n, m);
    assert j < n * m by {
      assert (k + 1) * m == k * m + m;
    }
    SoundAtFields(n, m, name, note, j);
    assert sounds[j] == SoundAt(n, m, name, note, j);
    assert sounds[j].index == slot && sounds[j].AppliesTo(note, v);
    forall j1, j2 | 0 <= j1 < |sounds| && 0 <= j2 < |sounds|
        && sounds[j1].index == slot && sounds[j1].AppliesTo(note, v)
        && sounds[j2].index == slot && sounds[j2].AppliesTo(note, v)
      ensures j1 == j2
    {
      assert sounds[j1] == SoundAt(n, m, name, note, j1);
      assert sounds[j2] == SoundAt(n, m, name, note, j2);
      SoundAtFields(n, m, name, note, j1);
      SoundAtFields(n, m, name, note, j2);
      SameSlotSameLayer(n, m, v, j1, j2);
    }
  }

  /** Two list positions in the same slot whose layers both contain `v` are the same. */
  lemma SameSlotSameLayer(n: nat, m: nat, v: real, j1: nat, j2: nat)
    requires 1 <= n && m >= 1
    requires j1 % m == j2 % m
    requires Layer(n, j1 / m).Contains(v) && Layer(n, j2 / m).Contains(v)
    ensures j1 == j2
  {
    LayersDisjoint(n, j1 / m, j2 / m, v);
    SplitPosition(j1, m);
    SplitPosition(j2, m);
  }

  /**
   * No sound of a fresh synth applies to another note, to a velocity below
   * 1/128 (such as 0), or to one at or above 1/128 + 1.
   */
  lemma {:induction false} NoSoundOutsideSpan(n: nat, m: nat, name: string, note: int, n2: int, v: real)
    requires 1 <= n && m >= 1
    requires n2 != note || v < VelocityBase || v >= VelocityBase + VelocityTotal
    ensures var sounds := InitialSounds(n, m, name, note);
      forall j :: 0 <= j < |sounds| ==> !sounds[j].AppliesTo(n2, v)
  {
    var sounds := InitialSounds(n, m, name, note);
    forall j | 0 <= j < |sounds|
      ensures !sounds[j].AppliesTo(n2, v)
    {
      if n2 == note {
        LayerBelow(j, m, LayerCount(n));
        OutsideAllLayers(n, j / m, v);
      }
    }
  }

  /**
   * With the shipped constants an instrument has two sounds, whose sample
   * files are `<name>_1_1.aif` (velocities from 1/128) and `<name>_1_64.aif`
   * (velocities from 1/128 + 1/2).
   */
  lemma {:induction false} DefaultSampleFiles(dir: string, sep: char, name: string, note: int)
    ensures var sounds := InitialSounds(NumVelocityRange, MaxSoundsPerRange, name, note);
      && |sounds| == 2
      && SamplePath(dir, sep, name, sounds[0].index, sounds[0].velocity.start) == dir + [sep] + name + "_1_1.aif"
      && SamplePath(dir, sep, name, sounds[1].index, sounds[1].velocity.start) == dir + [sep] + name + "_1_64.aif"
  {
    AllLayersBuilt(NumVelocityRange);
    var sounds := InitialSounds(NumVelocityRange, MaxSoundsPerRange, name, note);
    assert sounds[0].velocity.start == 1.0 / 128.0;
    assert sounds[1].velocity.start == 1.0 / 128.0 + 0.5;
    assert RoundToInt(1.0 / 128.0 * 127.0) == 1;
    assert RoundToInt((1.0 / 128.0 + 0.5) * 127.0) == 64;
    assert IntToString(1) == "1";
    assert IntToString(64) == "64";
  }
}
