/**
 * DrumSynth: one instrument. It owns a sound list (velocity layers times
 * round-robin slots, see Layers) and a pool of voices, and it dispatches
 * MIDI: a note-on either re-binds every sound to the note (while MIDI learn
 * is on) or starts a voice for each matching sound, after stopping whatever
 * already rings on that note and channel; all-notes-off and all-sound-off
 * stop voices; every other message is ignored. The voice-pool steps it
 * relies on (finding a free voice, starting and stopping voices, rendering
 * them) are those of the Synthesiser base class.
 */
module Synth {

  import opened Options
  import opened Audio
  import opened Sound
  import opened Voice
  import opened Layers

  /**
   * An instrument. `note` is the bound MIDI note; `lastNoteOnCounter` is the
   * stamp the last started voice received; `sampleRate` is the host rate.
   */
  datatype Synth = Synth(
    name: string,
    note: int,
    sounds: seq<DrumSound>,
    voices: seq<Voice>,
    shouldStealNotes: bool,
    learnEnabled: bool,
    lastNoteOnCounter: nat,
    sampleRate: real)

  // ----- the state invariant -----

  /**
   * A voice is active exactly when it holds a sound; that sound is in the list
   * and loaded, and the voice reads inside its sample at a positive ratio.
   */
  predicate VoiceReady(v: Voice, sounds: seq<DrumSound>)
  {
    && (v.IsActive() <==> v.sound.Some?)
    && (v.sound.Some? ==>
          && v.sound.value < |sounds|
          && sounds[v.sound.value].IsLoaded()
          && Ready(v, sounds[v.sound.value].data.value, sounds[v.sound.value].lenght))
  }

  /** No two active voices sound the same note on the same channel. */
  predicate NotesDistinct(voices: seq<Voice>)
  {
    forall k1, k2 :: (0 <= k1 < |voices| && 0 <= k2 < |voices|
      && voices[k1].IsActive() && voices[k2].IsActive()
      && voices[k1].note == voices[k2].note && voices[k1].channel == voices[k2].channel) ==> k1 == k2
  }

  /**
   * The instrument invariant: a loaded sound has resolved its path (so it is
   * never loaded again), every voice is ready, and notes are not doubled.
   */
  predicate Valid(s: Synth)
  {
    && (forall j :: 0 <= j < |s.sounds| ==> s.sounds[j].IsLoaded() ==> s.sounds[j].isPathSet)
    && (forall k :: 0 <= k < |s.voices| ==> VoiceReady(s.voices[k], s.sounds))
    && NotesDistinct(s.voices)
  }

  /** At most one voice sounds `note` on `ch`. */
  predicate AtMostOnePlays(voices: seq<Voice>, note: int, ch: int)
  {
    forall k1, k2 :: (0 <= k1 < |voices| && 0 <= k2 < |voices|
      && voices[k1].Plays(note, ch) && voices[k2].Plays(note, ch)) ==> k1 == k2
  }

  // ----- construction -----

  /**
   * The constructor: `MaxVoices` idle voices and the layered sound list bound
   * to `defaultNote`; note stealing on. `prevGain` is the value a voice's
   * gain memory holds before its first block, and `learn0` is what the
   * never-attached MIDI learn flag reads as.
   */
  function NewSynth(name: string, defaultNote: int, prevGain: real, learn0: bool): (s: Synth)
    ensures |s.voices| == MaxVoices
    ensures forall k :: 0 <= k < |s.voices| ==> !s.voices[k].IsActive()
    ensures |s.sounds| == NumVelocityRange * MaxSoundsPerRange
    ensures forall j, n :: 0 <= j < |s.sounds| ==> (s.sounds[j].AppliesToNote(n) <==> n == defaultNote)
    ensures forall j :: 0 <= j < |s.sounds| ==> !s.sounds[j].IsLoaded() && !s.sounds[j].isPathSet
    ensures s.note == defaultNote && s.shouldStealNotes && s.learnEnabled == learn0
    ensures Valid(s)
  {
    AllLayersBuilt(NumVelocityRange);
    Synth(name, defaultNote, InitialSounds(NumVelocityRange, MaxSoundsPerRange, name, defaultNote),
          seq(MaxVoices, _ => IdleVoice(prevGain)), true, learn0, 0, 0.0)
  }

  // ----- the voice pool -----

  /** The first idle voice at or after `from`. */
  function FirstIdle(voices: seq<Voice>, from: nat): (r: Option<nat>)
    requires from <= |voices|
    ensures r.Some? ==> from <= r.value < |voices| && !voices[r.value].IsActive()
    ensures r.Some? ==> forall k :: from <= k < r.value ==> voices[k].IsActive()
    ensures r.None? ==> forall k :: from <= k < |voices| ==> voices[k].IsActive()
    decreases |voices| - from
  {
    if from == |voices| then None
    else if !voices[from].IsActive() then Some(from)
    else FirstIdle(voices, from + 1)
  }

  /**
   * `findFreeVoice`: the first idle voice; when every voice is busy and
   * stealing is on, the voice the stealing policy `victim` picks.
   */
  function FindFreeVoice(voices: seq<Voice>, stealIfNoneAvailable: bool, victim: seq<Voice> -> nat): (r: Option<nat>)
    ensures r.Some? ==> r.value < |voices|
    ensures (exists k :: 0 <= k < |voices| && !voices[k].IsActive()) ==> r.Some? && !voices[r.value].IsActive()
    ensures r.None? <==> (|voices| == 0 || (!stealIfNoneAvailable && forall k :: 0 <= k < |voices| ==> voices[k].IsActive()))
  {
    match FirstIdle(voices, 0)
    case Some(k) => Some(k)
    case None => if stealIfNoneAvailable && |voices| > 0 then Some(victim(voices) % |voices|) else None
  }

  /**
   * Stops every voice whose current note is `note` and whose channel is `ch`,
   * before a new one is started for that note.
   */
  function StopMatching(voices: seq<Voice>, note: int, ch: int): (r: seq<Voice>)
    ensures |r| == |voices|
    ensures note >= 0 ==> forall k :: 0 <= k < |r| ==> !r[k].Plays(note, ch)
    ensures forall k :: 0 <= k < |r| ==> voices[k].Plays(note, ch) ==> r[k] == StopNote(voices[k])
    ensures forall k :: 0 <= k < |r| ==> r[k] == voices[k] || r[k] == StopNote(voices[k])
    ensures forall k :: 0 <= k < |r| ==> voices[k].IsActive() && !voices[k].Plays(note, ch) ==> r[k] == voices[k]
  {
    seq(|voices|, k requires 0 <= k < |voices| =>
      if voices[k].note == note && voices[k].IsPlayingChannel(ch) then StopNote(voices[k]) else voices[k])
  }

  /**
   * `startVoice`: a voice that still holds a sound is stopped first; the voice
   * then takes the note, channel, sound and a fresh note-on stamp, and
   * `startNote` rewinds it with the given pitch ratio.
   */
  function StartVoice(s: Synth, vi: nat, si: nat, ch: int, note: int, ratio: real): (r: Synth)
    requires vi < |s.voices|
    ensures r == s.(voices := r.voices, lastNoteOnCounter := r.lastNoteOnCounter)
    ensures r.lastNoteOnCounter == s.lastNoteOnCounter + 1
    ensures |r.voices| == |s.voices|
    ensures forall k :: 0 <= k < |s.voices| && k != vi ==> r.voices[k] == s.voices[k]
    ensures r.voices[vi].note == note && r.voices[vi].channel == ch && r.voices[vi].sound == Some(si)
    ensures r.voices[vi].position == 0.0 && r.voices[vi].pitchRatio == ratio
    ensures r.voices[vi].noteOnTime == r.lastNoteOnCounter
    ensures r.voices[vi].prevGain == s.voices[vi].prevGain
  {
    var v := s.voices[vi];
    var stopped := if v.sound.Some? then StopNote(v) else v;
    var started := stopped.(note := note, channel := ch, sound := Some(si),
                            noteOnTime := s.lastNoteOnCounter + 1, position := 0.0, pitchRatio := ratio);
    s.(voices := s.voices[vi := started], lastNoteOnCounter := s.lastNoteOnCounter + 1)
  }

  // ----- note-on -----

  /** `appliesTo` and `appliesToChannel`: the sound answers this note-on. */
  predicate Matches(d: DrumSound, ch: int, note: int, vel: real)
  {
    d.AppliesTo(note, vel) && d.AppliesToChannel(ch)
  }

  /**
   * The sounds a note-on starts a voice for. As written, every matching
   * sound; with `loadedOnly`, only those whose sample has been loaded.
   */
  predicate Triggers(d: DrumSound, ch: int, note: int, vel: real, loadedOnly: bool)
  {
    Matches(d, ch, note, vel) && (loadedOnly ==> d.IsLoaded())
  }

  /** The body of the note-on loop for one matching sound `si`. */
  function TriggerSound(s: Synth, si: nat, ch: int, note: int, ratio: real, victim: seq<Voice> -> nat): (r: Synth)
    ensures r == s.(voices := r.voices, lastNoteOnCounter := r.lastNoteOnCounter)
    ensures |r.voices| == |s.voices|
    ensures note >= 0 ==> AtMostOnePlays(r.voices, note, ch)
    ensures note >= 0 && s.shouldStealNotes && |s.voices| > 0 ==>
      exists k :: 0 <= k < |r.voices| && r.voices[k].Plays(note, ch) && r.voices[k].sound == Some(si)
        && r.voices[k].position == 0.0 && r.voices[k].noteOnTime == r.lastNoteOnCounter
    ensures forall k :: 0 <= k < |r.voices| ==>
      r.voices[k] == s.voices[k] || !r.voices[k].IsActive()
      || (r.voices[k].Plays(note, ch) && r.voices[k].sound == Some(si) && r.voices[k].position == 0.0)
  {
    var cleared := s.(voices := StopMatching(s.voices, note, ch));
    match FindFreeVoice(cleared.voices, cleared.shouldStealNotes, victim)
    case None => cleared
    case Some(vi) => StartVoice(cleared, vi, si, ch, note, ratio)
  }

  /** The note-on loop over the sounds from `j` on. */
  function TriggerFrom(s: Synth, j: nat, ch: int, note: int, vel: real, ratio: real,
                       victim: seq<Voice> -> nat, loadedOnly: bool): (r: Synth)
    requires j <= |s.sounds|
    ensures r == s.(voices := r.voices, lastNoteOnCounter := r.lastNoteOnCounter)
    ensures |r.voices| == |s.voices|
    ensures (forall j' :: j <= j' < |s.sounds| ==> !Triggers(s.sounds[j'], ch, note, vel, loadedOnly)) ==> r == s
    ensures forall k :: 0 <= k < |r.voices| ==>
      r.voices[k] == s.voices[k] || !r.voices[k].IsActive()
      || (r.voices[k].Plays(note, ch) && r.voices[k].sound.Some? && r.voices[k].position == 0.0
          && j <= r.voices[k].sound.value < |s.sounds|
          && Triggers(s.sounds[r.voices[k].sound.value], ch, note, vel, loadedOnly))
    decreases |s.sounds| - j
  {
    if j == |s.sounds| then s
    else
      var s' := if Triggers(s.sounds[j], ch, note, vel, loadedOnly) then TriggerSound(s, j, ch, note, ratio, victim) else s;
      TriggerFrom(s', j + 1, ch, note, vel, ratio, victim, loadedOnly)
  }

  /**
   * `noteOn` with the loaded-sample guard: for each loaded sound that matches
   * the note, velocity and channel, stop the voices ringing on that note and
   * channel, then start a free (or stolen) voice on the sound.
   */
  function NoteOn(s: Synth, ch: int, note: int, vel: real, ratio: real, victim: seq<Voice> -> nat): (r: Synth)
    ensures r == s.(voices := r.voices, lastNoteOnCounter := r.lastNoteOnCounter)
    ensures |r.voices| == |s.voices|
    ensures (forall j :: 0 <= j < |s.sounds| ==> !Triggers(s.sounds[j], ch, note, vel, true)) ==> r == s
    ensures forall k :: 0 <= k < |r.voices| ==>
      r.voices[k] == s.voices[k] || !r.voices[k].IsActive()
      || (r.voices[k].Plays(note, ch) && r.voices[k].sound.Some? && r.voices[k].position == 0.0
          && r.voices[k].sound.value < |s.sounds| && Triggers(s.sounds[r.voices[k].sound.value], ch, note, vel, true))
  {
    TriggerFrom(s, 0, ch, note, vel, ratio, victim, true)
  }

  /** `noteOn` as written: any matching sound starts a voice, loaded or not. */
  function NoteOnAsWritten(s: Synth, ch: int, note: int, vel: real, ratio: real, victim: seq<Voice> -> nat): (r: Synth)
    ensures r == s.(voices := r.voices, lastNoteOnCounter := r.lastNoteOnCounter)
    ensures |r.voices| == |s.voices|
    ensures (forall j :: 0 <= j < |s.sounds| ==> !Matches(s.sounds[j], ch, note, vel)) ==> r == s
    ensures forall k :: 0 <= k < |r.voices| ==>
      r.voices[k] == s.voices[k] || !r.voices[k].IsActive()
      || (r.voices[k].Plays(note, ch) && r.voices[k].sound.Some? && r.voices[k].position == 0.0
          && r.voices[k].sound.value < |s.sounds| && Matches(s.sounds[r.voices[k].sound.value], ch, note, vel))
  {
    TriggerFrom(s, 0, ch, note, vel, ratio, victim, false)
  }

  lemma StopMatchingKeepsReady(s: Synth, note: int, ch: int)
    requires Valid(s)
    ensures Valid(s.(voices := StopMatching(s.voices, note, ch)))
  {
    var vs := StopMatching(s.voices, note, ch);
    forall k | 0 <= k < |vs|
      ensures VoiceReady(vs[k], s.sounds)
    {
      assert VoiceReady(s.voices[k], s.sounds);
    }
  }

  /** Starting a loaded sound on a voice keeps the instrument invariant. */
  lemma {:induction false} TriggerSoundKeepsValid(s: Synth, si: nat, ch: int, note: int, ratio: real, victim: seq<Voice> -> nat)
    requires Valid(s) && si < |s.sounds| && s.sounds[si].IsLoaded()
    requires note >= 0 && ratio > 0.0
    ensures Valid(TriggerSound(s, si, ch, note, ratio, victim))
  {
    var cleared := s.(voices := StopMatching(s.voices, note, ch));
    StopMatchingKeepsReady(s, note, ch);
    match FindFreeVoice(cleared.voices, cleared.shouldStealNotes, victim)
    case None =>
    case Some(vi) =>
      var r := StartVoice(cleared, vi, si, ch, note, ratio);
      assert r == TriggerSound(s, si, ch, note, ratio, victim);
      assert VoiceReady(r.voices[vi], r.sounds);
      forall k1, k2 | 0 <= k1 < |r.voices| && 0 <= k2 < |r.voices|
          && r.voices[k1].IsActive() && r.voices[k2].IsActive()
          && r.voices[k1].note == r.voices[k2].note && r.voices[k1].channel == r.voices[k2].channel
        ensures k1 == k2
      {
        if k1 != vi && k2 != vi {
          assert cleared.voices[k1] == r.voices[k1] && cleared.voices[k2] == r.voices[k2];
        }
      }
  }

  /** The corrected note-on keeps the instrument invariant. */
  lemma {:induction false} TriggerFromKeepsValid(s: Synth, j: nat, ch: int, note: int, vel: real, ratio: real,
                                                 victim: seq<Voice> -> nat)
    requires j <= |s.sounds| && Valid(s)
    requires 0 <= note && ratio > 0.0
    ensures Valid(TriggerFrom(s, j, ch, note, vel, ratio, victim, true))
    decreases |s.sounds| - j
  {
    if j < |s.sounds| {
      var s' := if Triggers(s.sounds[j], ch, note, vel, true) then TriggerSound(s, j, ch, note, ratio, victim) else s;
      if Triggers(s.sounds[j], ch, note, vel, true) {
        TriggerSoundKeepsValid(s, j, ch, note, ratio, victim);
      }
      TriggerFromKeepsValid(s', j + 1, ch, note, vel, ratio, victim);
    }
  }

  lemma NoteOnKeepsValid(s: Synth, ch: int, note: int, vel: real, ratio: real, victim: seq<Voice> -> nat)
    requires Valid(s) && 0 <= note && ratio > 0.0
    ensures Valid(NoteOn(s, ch, note, vel, ratio, victim))
  {
    TriggerFromKeepsValid(s, 0, ch, note, vel, ratio, victim);
  }

  /**
   * A just-started voice: exactly one voice sounds `note` on `ch`, and it was
   * rewound and stamped by the latest start.
   */
  predicate FreshlyStarted(s: Synth, note: int, ch: int)
  {
    && AtMostOnePlays(s.voices, note, ch)
    && exists k :: 0 <= k < |s.voices| && s.voices[k].Plays(note, ch)
         && s.voices[k].position == 0.0 && s.voices[k].noteOnTime == s.lastNoteOnCounter
  }

  lemma {:induction false} TriggerFromStarts(s: Synth, j: nat, ch: int, note: int, vel: real, ratio: real,
                                             victim: seq<Voice> -> nat, loadedOnly: bool)
    requires j <= |s.sounds| && 0 <= note && s.shouldStealNotes && |s.voices| > 0
    requires FreshlyStarted(s, note, ch) || exists j' :: j <= j' < |s.sounds| && Triggers(s.sounds[j'], ch, note, vel, loadedOnly)
    ensures FreshlyStarted(TriggerFrom(s, j, ch, note, vel, ratio, victim, loadedOnly), note, ch)
    decreases |s.sounds| - j
  {
    if j < |s.sounds| {
      if Triggers(s.sounds[j], ch, note, vel, loadedOnly) {
        var s' := TriggerSound(s, j, ch, note, ratio, victim);
        assert FreshlyStarted(s', note, ch);
        TriggerFromStarts(s', j + 1, ch, note, vel, ratio, victim, loadedOnly);
      } else {
        TriggerFromStarts(s, j + 1, ch, note, vel, ratio, victim, loadedOnly);
      }
    }
  }

  /**
   * A note-on that some loaded sound answers leaves exactly one voice on that
   * note and channel, freshly rewound: every voice that was ringing there has
   * been stopped or restarted.
   */
  lemma NoteOnStartsOneVoice(s: Synth, ch: int, note: int, vel: real, ratio: real, victim: seq<Voice> -> nat)
    requires 0 <= note && s.shouldStealNotes && |s.voices| > 0
    requires exists j :: 0 <= j < |s.sounds| && Triggers(s.sounds[j], ch, note, vel, true)
    ensures FreshlyStarted(NoteOn(s, ch, note, vel, ratio, victim), note, ch)
  {
    TriggerFromStarts(s, 0, ch, note, vel, ratio, victim, true);
  }

  /**
   * The note-on as written also leaves exactly one freshly started voice on
   * the note and channel when some sound, loaded or not, answers it.
   */
  lemma NoteOnAsWrittenStartsOneVoice(s: Synth, ch: int, note: int, vel: real, ratio: real, victim: seq<Voice> -> nat)
    requires 0 <= note && s.shouldStealNotes && |s.voices| > 0
    requires exists j :: 0 <= j < |s.sounds| && Matches(s.sounds[j], ch, note, vel)
    ensures FreshlyStarted(NoteOnAsWritten(s, ch, note, vel, ratio, victim), note, ch)
  {
    var j :| 0 <= j < |s.sounds| && Matches(s.sounds[j], ch, note, vel);
    assert Triggers(s.sounds[j], ch, note, vel, false);
    TriggerFromStarts(s, 0, ch, note, vel, ratio, victim, false);
  }

  /** Once every sample has loaded, the guard filters nothing: both loops do the same. */
  lemma {:induction false} TriggerFromLoadedAgree(s: Synth, j: nat, ch: int, note: int, vel: real, ratio: real,
                                                  victim: seq<Voice> -> nat)
    requires j <= |s.sounds|
    requires forall i :: 0 <= i < |s.sounds| ==> s.sounds[i].IsLoaded()
    ensures TriggerFrom(s, j, ch, note, vel, ratio, victim, false) == TriggerFrom(s, j, ch, note, vel, ratio, victim, true)
    decreases |s.sounds| - j
  {
    if j < |s.sounds| {
      assert Triggers(s.sounds[j], ch, note, vel, false) == Triggers(s.sounds[j], ch, note, vel, true);
      var s' := if Triggers(s.sounds[j], ch, note, vel, true) then TriggerSound(s, j, ch, note, ratio, victim) else s;
      TriggerFromLoadedAgree(s', j + 1, ch, note, vel, ratio, victim);
    }
  }

  /**
   * As written, a full-velocity hit on a fresh instrument, before any sample
   * has loaded, starts a voice on the unloaded top-layer sound: the start
   * then reads the sample rate of a reader that does not exist, and the
   * render reads a buffer that does not exist. The invariant is lost.
   */
  lemma {:induction false} AsWrittenStartsUnloadedSound(name: string, note: int, prevGain: real, ratio: real,
                                                        victim: seq<Voice> -> nat)
    requires 0 <= note
    ensures var r := NoteOnAsWritten(NewSynth(name, note, prevGain, false), 1, note, 1.0, ratio, victim);
      && r.voices[0].Plays(note, 1) && r.voices[0].sound == Some(1)
      && !r.sounds[1].IsLoaded()
      && !Valid(r)
  {
    var s := NewSynth(name, note, prevGain, false);
    AllLayersBuilt(NumVelocityRange);
    assert Layer(2, 0).end == VelocityBase + 0.5;
    assert !Triggers(s.sounds[0], 1, note, 1.0, false);
    assert Triggers(s.sounds[1], 1, note, 1.0, false);
    var s1 := TriggerSound(s, 1, 1, note, ratio, victim);
    assert StopMatching(s.voices, note, 1) == s.voices;
    assert FirstIdle(s.voices, 0) == Some(0);
    assert s1 == StartVoice(s, 0, 1, 1, note, ratio);
    assert TriggerFrom(s, 1, 1, note, 1.0, ratio, victim, false) == TriggerFrom(s1, 2, 1, note, 1.0, ratio, victim, false);
    var r := NoteOnAsWritten(s, 1, note, 1.0, ratio, victim);
    assert r == s1;
    assert !VoiceReady(r.voices[0], r.sounds);
  }

  /** With the guard, the same hit leaves the fresh instrument as it was. */
  lemma {:induction false} CorrectedIgnoresUnloadedSounds(name: string, note: int, prevGain: real, learn0: bool, ch: int,
                                                          n: int, vel: real, ratio: real, victim: seq<Voice> -> nat)
    ensures NoteOn(NewSynth(name, note, prevGain, learn0), ch, n, vel, ratio, victim) == NewSynth(name, note, prevGain, learn0)
  {
    var s := NewSynth(name, note, prevGain, learn0);
    assert forall j :: 0 <= j < |s.sounds| ==> !Triggers(s.sounds[j], ch, n, vel, true);
  }

  // ----- MIDI learn and all-notes-off -----

  /** `midiLearn`: the instrument and every sound are re-bound to `learned`. */
  function MidiLearn(s: Synth, learned: int): (r: Synth)
    ensures r == s.(note := learned, sounds := r.sounds)
    ensures |r.sounds| == |s.sounds|
    ensures forall j, n :: 0 <= j < |r.sounds| ==> (r.sounds[j].AppliesToNote(n) <==> n == learned)
    ensures forall j :: 0 <= j < |r.sounds| ==> r.sounds[j].(playingMidiNote := s.sounds[j].playingMidiNote) == s.sounds[j]
  {
    s.(note := learned, sounds := seq(|s.sounds|, j requires 0 <= j < |s.sounds| => SetMidiNote(s.sounds[j], learned)))
  }

  /** Learning a note on a fresh instrument is building it with that note. */
  lemma LearnRebuildsSounds(n: nat, m: nat, name: string, oldNote: int, learned: int, s: Synth)
    requires 1 <= n && 1 <= m && s.sounds == InitialSounds(n, m, name, oldNote)
    ensures MidiLearn(s, learned).sounds == InitialSounds(n, m, name, learned)
  {
  }

  /** Only the last learned note counts. */
  lemma LearnTwice(s: Synth, a: int, b: int)
    ensures MidiLearn(MidiLearn(s, a), b) == MidiLearn(s, b)
  {
    var r1 := MidiLearn(MidiLearn(s, a), b);
    var r2 := MidiLearn(s, b);
    assert r1.sounds == r2.sounds;
  }

  lemma LearnKeepsValid(s: Synth, learned: int)
    requires Valid(s)
    ensures Valid(MidiLearn(s, learned))
  {
    var r := MidiLearn(s, learned);
    forall k | 0 <= k < |r.voices|
      ensures VoiceReady(r.voices[k], r.sounds)
    {
      assert VoiceReady(s.voices[k], s.sounds);
    }
  }

  /**
   * `allNotesOff`: stops every voice when the channel is 0 or less, otherwise
   * the voices playing that channel; everything else stays.
   */
  function AllNotesOff(s: Synth, midiChannel: int): (r: Synth)
    ensures r == s.(voices := r.voices)
    ensures |r.voices| == |s.voices|
    ensures forall k, n :: 0 <= k < |r.voices| ==> !r.voices[k].Plays(n, midiChannel)
    ensures midiChannel <= 0 ==> forall k :: 0 <= k < |r.voices| ==> !r.voices[k].IsActive()
    ensures forall k :: 0 <= k < |r.voices| ==> midiChannel > 0 && !s.voices[k].IsPlayingChannel(midiChannel) ==>
      r.voices[k] == s.voices[k]
    ensures forall k :: 0 <= k < |r.voices| ==> r.voices[k] == s.voices[k] || r.voices[k] == StopNote(s.voices[k])
  {
    s.(voices := seq(|s.voices|, k requires 0 <= k < |s.voices| =>
      if midiChannel <= 0 || s.voices[k].IsPlayingChannel(midiChannel) then StopNote(s.voices[k]) else s.voices[k]))
  }

  /** Stopping twice is stopping once. */
  lemma AllNotesOffIdempotent(s: Synth, midiChannel: int)
    ensures AllNotesOff(AllNotesOff(s, midiChannel), midiChannel) == AllNotesOff(s, midiChannel)
  {
    var r1 := AllNotesOff(AllNotesOff(s, midiChannel), midiChannel);
    var r2 := AllNotesOff(s, midiChannel);
    assert r1.voices == r2.voices;
  }

  lemma AllNotesOffKeepsValid(s: Synth, midiChannel: int)
    requires Valid(s)
    ensures Valid(AllNotesOff(s, midiChannel))
  {
    var r := AllNotesOff(s, midiChannel);
    forall k | 0 <= k < |r.voices|
      ensures VoiceReady(r.voices[k], r.sounds)
    {
      assert VoiceReady(s.voices[k], s.sounds);
    }
  }

  /**
   * `setCurrentPlaybackSampleRate`: a new host rate first stops every voice;
   * setting the rate it already has changes nothing.
   */
  function SetPlaybackRate(s: Synth, newRate: real): (r: Synth)
    ensures r.sampleRate == newRate
    ensures s.sampleRate == newRate ==> r == s
    ensures s.sampleRate != newRate ==>
      && r == s.(voices := r.voices, sampleRate := newRate)
      && |r.voices| == |s.voices|
      && forall k :: 0 <= k < |r.voices| ==> !r.voices[k].IsActive()
  {
    if s.sampleRate != newRate then AllNotesOff(s, 0).(sampleRate := newRate) else s
  }

  lemma SetPlaybackRateKeepsValid(s: Synth, newRate: real)
    requires Valid(s)
    ensures Valid(SetPlaybackRate(s, newRate))
  {
    AllNotesOffKeepsValid(s, 0);
  }

  // ----- MIDI dispatch -----

  /** The channel messages the instrument distinguishes; `Other` is any non-channel message. */
  datatype MidiMessage =
    | NoteOnMessage(channel: int, noteNumber: int, velocity: int)
    | NoteOffMessage(channel: int, noteNumber: int, velocity: int)
    | AftertouchMessage(channel: int, noteNumber: int, value: int)
    | ControllerMessage(channel: int, controllerNumber: int, value: int)
    | ProgramChangeMessage(channel: int, program: int)
    | ChannelPressureMessage(channel: int, value: int)
    | PitchWheelMessage(channel: int, value: int)
    | Other
  {
    /** A note-on with velocity 0 does not count as a note-on. */
    predicate IsNoteOn()
    {
      NoteOnMessage? && velocity != 0
    }

    /** A note-off, or a note-on with velocity 0. */
    predicate IsNoteOff()
    {
      NoteOffMessage? || (NoteOnMessage? && velocity == 0)
    }

    /** Controller 123. */
    predicate IsAllNotesOff()
    {
      ControllerMessage? && controllerNumber == 123
    }

    /** Controller 120. */
    predicate IsAllSoundOff()
    {
      ControllerMessage? && controllerNumber == 120
    }

    /** The channel, 1..16; 0 for a message without one. */
    function GetChannel(): int
    {
      if Other? then 0 else channel
    }

    /** The note-on/off velocity scaled to [0, 1]; 0 for any other message. */
    function GetFloatVelocity(): real
    {
      if NoteOnMessage? || NoteOffMessage? then velocity as real / 127.0 else 0.0
    }
  }

  /**
   * The branches of `handleMidiEvent`. A note-on while learn is enabled
   * re-binds the instrument to the note and clears the learn flag; otherwise
   * it runs the note-on loop (with or without the loaded-sample guard).
   * All-notes-off and all-sound-off stop the voices of the message's
   * channel. Note-off, pitch wheel, aftertouch, channel pressure, other
   * controllers and program changes change nothing.
   */
  function Dispatch(s: Synth, m: MidiMessage, ratio: real, victim: seq<Voice> -> nat, loadedOnly: bool): Synth
  {
    var channel := m.GetChannel();
    if m.IsNoteOn() then
      if s.learnEnabled then MidiLearn(s, m.noteNumber).(learnEnabled := false)
      else TriggerFrom(s, 0, channel, m.noteNumber, m.GetFloatVelocity(), ratio, victim, loadedOnly)
    else if m.IsNoteOff() then s
    else if m.IsAllNotesOff() || m.IsAllSoundOff() then AllNotesOff(s, channel)
    else s
  }

  /**
   * `handleMidiEvent` with the loaded-sample guard on the note-on. `ratio`
   * is the pitch ratio `startNote` derives from the tuning and the sample
   * rates.
   */
  function HandleMidiEvent(s: Synth, m: MidiMessage, ratio: real, victim: seq<Voice> -> nat): (r: Synth)
    ensures m.IsNoteOn() && s.learnEnabled ==> r == MidiLearn(s, m.noteNumber).(learnEnabled := false)
    ensures m.IsNoteOn() && s.learnEnabled ==>
      && r.voices == s.voices && !r.learnEnabled && r.note == m.noteNumber
      && r.lastNoteOnCounter == s.lastNoteOnCounter && |r.sounds| == |s.sounds|
      && forall j, n :: 0 <= j < |r.sounds| ==> (r.sounds[j].AppliesToNote(n) <==> n == m.noteNumber)
    ensures m.IsNoteOn() && !s.learnEnabled ==>
      r == NoteOn(s, m.channel, m.noteNumber, m.GetFloatVelocity(), ratio, victim)
    ensures m.IsAllNotesOff() || m.IsAllSoundOff() ==> r == AllNotesOff(s, m.GetChannel())
    ensures !m.IsNoteOn() && !m.IsAllNotesOff() && !m.IsAllSoundOff() ==> r == s
  {
    Dispatch(s, m, ratio, victim, true)
  }

  /** `handleMidiEvent` as written: a note-on starts voices on matching sounds whether or not they loaded. */
  function HandleMidiEventAsWritten(s: Synth, m: MidiMessage, ratio: real, victim: seq<Voice> -> nat): (r: Synth)
    ensures m.IsNoteOn() && s.learnEnabled ==> r == MidiLearn(s, m.noteNumber).(learnEnabled := false)
    ensures m.IsNoteOn() && s.learnEnabled ==>
      && r.voices == s.voices && !r.learnEnabled && r.note == m.noteNumber
      && r.lastNoteOnCounter == s.lastNoteOnCounter && |r.sounds| == |s.sounds|
      && forall j, n :: 0 <= j < |r.sounds| ==> (r.sounds[j].AppliesToNote(n) <==> n == m.noteNumber)
    ensures m.IsNoteOn() && !s.learnEnabled ==>
      r == NoteOnAsWritten(s, m.channel, m.noteNumber, m.GetFloatVelocity(), ratio, victim)
    ensures m.IsAllNotesOff() || m.IsAllSoundOff() ==> r == AllNotesOff(s, m.GetChannel())
    ensures !m.IsNoteOn() && !m.IsAllNotesOff() && !m.IsAllSoundOff() ==> r == s
  {
    Dispatch(s, m, ratio, victim, false)
  }

  /** Every MIDI message keeps the instrument invariant. */
  lemma HandleMidiEventKeepsValid(s: Synth, m: MidiMessage, ratio: real, victim: seq<Voice> -> nat)
    requires Valid(s) && ratio > 0.0
    requires m.NoteOnMessage? ==> 0 <= m.noteNumber
    ensures Valid(HandleMidiEvent(s, m, ratio, victim))
  {
    if m.IsNoteOn() {
      if s.learnEnabled {
        LearnKeepsValid(s, m.noteNumber);
      } else {
        NoteOnKeepsValid(s, m.channel, m.noteNumber, m.GetFloatVelocity(), ratio, victim);
      }
    } else if m.IsAllNotesOff() || m.IsAllSoundOff() {
      AllNotesOffKeepsValid(s, m.GetChannel());
    }
  }

  /**
   * The two dispatches differ only before every sample has loaded: once all
   * are loaded, the dispatch as written is the guarded one.
   */
  lemma AsWrittenAgreesWhenLoaded(s: Synth, m: MidiMessage, ratio: real, victim: seq<Voice> -> nat)
    requires forall j :: 0 <= j < |s.sounds| ==> s.sounds[j].IsLoaded()
    ensures HandleMidiEventAsWritten(s, m, ratio, victim) == HandleMidiEvent(s, m, ratio, victim)
  {
    if m.IsNoteOn() && !s.learnEnabled {
      TriggerFromLoadedAgree(s, 0, m.channel, m.noteNumber, m.GetFloatVelocity(), ratio, victim);
    }
  }

  /** With every sample loaded, the dispatch as written keeps the instrument invariant. */
  lemma AsWrittenKeepsValidWhenLoaded(s: Synth, m: MidiMessage, ratio: real, victim: seq<Voice> -> nat)
    requires Valid(s) && ratio > 0.0
    requires m.NoteOnMessage? ==> 0 <= m.noteNumber
    requires forall j :: 0 <= j < |s.sounds| ==> s.sounds[j].IsLoaded()
    ensures Valid(HandleMidiEventAsWritten(s, m, ratio, victim))
  {
    AsWrittenAgreesWhenLoaded(s, m, ratio, victim);
    HandleMidiEventKeepsValid(s, m, ratio, victim);
  }

  /**
   * Before its samples have loaded, the dispatch as written breaks the
   * invariant: a velocity-127 note-on on the bound note of a fresh
   * instrument starts a voice on an unloaded sound.
   */
  lemma AsWrittenDispatchLosesValid(name: string, note: int, prevGain: real, ratio: real, victim: seq<Voice> -> nat)
    requires 0 <= note
    ensures Valid(NewSynth(name, note, prevGain, false))
    ensures !Valid(HandleMidiEventAsWritten(NewSynth(name, note, prevGain, false), NoteOnMessage(1, note, 127), ratio, victim))
  {
    var m := NoteOnMessage(1, note, 127);
    assert m.GetFloatVelocity() == 1.0;
    AsWrittenStartsUnloadedSound(name, note, prevGain, ratio, victim);
  }

  // ----- loading -----

  /** One pass of every sound's loader thread, each with the reader its file yields. */
  function LoadSounds(s: Synth, dir: string, sep: char, readers: seq<Option<AudioFile>>): (r: Synth)
    requires |readers| == |s.sounds|
    requires forall j :: 0 <= j < |readers| && readers[j].Some? ==> IsDecoded(readers[j].value)
    ensures r == s.(sounds := r.sounds)
    ensures |r.sounds| == |s.sounds|
    ensures forall j :: 0 <= j < |r.sounds| ==> r.sounds[j].isPathSet
    ensures forall j :: 0 <= j < |r.sounds| ==> s.sounds[j].isPathSet ==> r.sounds[j] == s.sounds[j]
    ensures forall j :: 0 <= j < |r.sounds| ==> s.sounds[j].IsLoaded() ==> r.sounds[j].IsLoaded()
  {
    s.(sounds := seq(|s.sounds|, j requires 0 <= j < |s.sounds| => RunStep(s.sounds[j], dir, sep, readers[j])))
  }

  /** Loading never disturbs a sound a voice is playing. */
  lemma LoadSoundsKeepsValid(s: Synth, dir: string, sep: char, readers: seq<Option<AudioFile>>)
    requires Valid(s)
    requires |readers| == |s.sounds|
    requires forall j :: 0 <= j < |readers| && readers[j].Some? ==> IsDecoded(readers[j].value)
    ensures Valid(LoadSounds(s, dir, sep, readers))
  {
    var r := LoadSounds(s, dir, sep, readers);
    forall k | 0 <= k < |r.voices|
      ensures VoiceReady(r.voices[k], r.sounds)
    {
      assert VoiceReady(s.voices[k], s.sounds);
    }
  }

  /** A second pass loads nothing, whatever the readers yield. */
  lemma LoadSoundsOnce(s: Synth, dir: string, sep: char, first: seq<Option<AudioFile>>, second: seq<Option<AudioFile>>)
    requires |first| == |s.sounds| && |second| == |s.sounds|
    requires forall j :: 0 <= j < |first| && first[j].Some? ==> IsDecoded(first[j].value)
    requires forall j :: 0 <= j < |second| && second[j].Some? ==> IsDecoded(second[j].value)
    ensures LoadSounds(LoadSounds(s, dir, sep, first), dir, sep, second) == LoadSounds(s, dir, sep, first)
  {
    var r1 := LoadSounds(LoadSounds(s, dir, sep, first), dir, sep, second);
    var r2 := LoadSounds(s, dir, sep, first);
    assert r1.sounds == r2.sounds;
  }

  // ----- rendering -----

  /** The sample a voice reads: its sound's buffer, or nothing for an idle voice. */
  function VoiceData(v: Voice, sounds: seq<DrumSound>): Buffer
    requires VoiceReady(v, sounds)
  {
    if v.sound.Some? then sounds[v.sound.value].data.value else []
  }

  function VoiceLength(v: Voice, sounds: seq<DrumSound>): int
    requires VoiceReady(v, sounds)
  {
    if v.sound.Some? then sounds[v.sound.value].lenght else 0
  }

  /**
   * `v'` is `v` after one rendered block of `n` samples: an idle voice is
   * untouched, a voice that is still active after the block plays the same
   * note, channel and sound as before, and an active voice has moved on.
   */
  predicate Advanced(v': Voice, v: Voice, n: nat)
  {
    && (!v.IsActive() ==> v' == v)
    && (v'.IsActive() ==>
          v.IsActive() && v'.note == v.note && v'.channel == v.channel && v'.sound == v.sound)
    && (v.IsActive() && n > 0 ==> v'.position > v.position)
  }

  /** Rendering only advances or clears voices, so it never doubles a note. */
  lemma AdvancedKeepsNotesDistinct(vs: seq<Voice>, vs': seq<Voice>, n: nat)
    requires |vs'| == |vs| && NotesDistinct(vs)
    requires forall k :: 0 <= k < |vs| ==> Advanced(vs'[k], vs[k], n)
    ensures NotesDistinct(vs')
  {
    forall k1, k2 | (0 <= k1 < |vs'| && 0 <= k2 < |vs'|
        && vs'[k1].IsActive() && vs'[k2].IsActive()
        && vs'[k1].note == vs'[k2].note && vs'[k1].channel == vs'[k2].channel)
      ensures k1 == k2
    {
      assert Advanced(vs'[k1], vs[k1], n) && Advanced(vs'[k2], vs[k2], n);
    }
  }

  /**
   * `renderVoices`: every voice renders into the block in turn, each reading
   * its own channel parameters. Idle voices add nothing; voices that reach
   * the end of their sample are cleared.
   */
  method RenderVoices(s: Synth, params: seq<VoiceParams>, out: Buffer, start: nat, n: nat)
    returns (r: Synth, out': Buffer)
    requires Valid(s) && |params| == |s.voices|
    requires |out| >= 1 && IsRect(out) && start + n <= NumSamples(out)
    ensures Valid(r)
    ensures r == s.(voices := r.voices)
    ensures |r.voices| == |s.voices|
    ensures SameShape(out', out)
    ensures forall k :: 0 <= k < |r.voices| ==> Advanced(r.voices[k], s.voices[k], n)
  {
    r := s;
    out' := out;
    var k := 0;
    while k < |s.voices|
      invariant 0 <= k <= |s.voices|
      invariant r == s.(voices := r.voices) && |r.voices| == |s.voices|
      invariant SameShape(out', out) && IsRect(out') && NumSamples(out') == NumSamples(out)
      invariant forall i :: 0 <= i < |s.voices| ==> VoiceReady(r.voices[i], s.sounds)
      invariant forall i :: k <= i < |s.voices| ==> r.voices[i] == s.voices[i]
      invariant forall i :: 0 <= i < k ==> Advanced(r.voices[i], s.voices[i], n)
    {
      var v := r.voices[k];
      var data := VoiceData(v, s.sounds);
      var len := VoiceLength(v, s.sounds);
      var v';
      v', out' := RenderNextBlock(v, data, len, params[k], out', start, n);
      assert VoiceReady(v', s.sounds) && Advanced(v', v, n);
      r := r.(voices := r.voices[k := v']);
      k := k + 1;
    }
    AdvancedKeepsNotesDistinct(s.voices, r.voices, n);
  }
}
