# DrumSampler playback core in Dafny

This project models the playback core of the DrumSampler plug-in (a JUCE
drum sampler) and proves properties of that model. The model covers four
parts:

- **DrumSound** (`Sound`). A sample slot bound to one MIDI note and a
  half-open velocity range. It decides which triggers apply to it and names
  its sample file `<dir><sep><name>_<index>_<round(start*127)>.aif`. Its
  loader thread reads that file once, provided the sound was configured
  before the thread's first pass (see Findings).
- **DrumVoice** (`Voice`). One polyphony slot. It reads the sample at a
  fractional position that advances by the pitch ratio, interpolates
  between two frames, and pans or folds the frame down into the output. It
  stops at the end of the sample. It then applies the channel level, flat
  or as a ramp from the previous block's level.
- **DrumSynth** (`Layers`, `Synth`). One instrument. It builds the
  contiguous velocity layers starting at 1/128 and one sound per layer and
  round-robin slot. It keeps ten voices and dispatches MIDI: note-on,
  MIDI learn, and all-notes-off/all-sound-off. It relies on the
  Synthesiser voice-pool steps: finding a free voice, starting, stopping
  and rendering voices, and setting the playback rate.
- **DrumProcessor** (`Processor`). The plug-in. It builds one instrument
  per leading output name before the first "Empty". It holds the mute and
  solo flags and their queries, and bounds the number of output buses. Its
  block processing clears the unused outputs and runs the master
  level/pan stage with its `previousMasterGain` memory.

`Audio` holds the buffers and the gain arithmetic shared by the voice
level stage and the master stage: a flat gain, JUCE's `applyGainRamp`, and
the linear pan law. `Options` holds the Option type used for values that
may be null.

Audio values, velocities, gains and read positions are `real`. A block is
a sequence of channels, each a sequence of samples.

Several inputs the plug-in takes from outside its own code become
parameters:

- the decoder's answer for a file;
- the pitch ratio;
- the host sample rate;
- the voice-stealing choice;
- the output names;
- the values of memory the source never initialises.

## Model

| member | source | states |
|---|---|---|
| Sound.SetVelocityRange | Source/core/DrumSound.h:28-35 | A well-formed range is copied as is. A reversed range collapses to its end point, because JUCE's setters drag the other end along. Nothing but the range changes. |
| Sound.SetMidiNote | Source/core/DrumSound.h:37-49 | Afterwards the sound applies to exactly the new note. Every other field is unchanged. |
| Sound.ConfiguredSoundApplies | Source/core/DrumSound.h:43-59 | A sound given a well-formed range and then a note applies to exactly that note. It answers a trigger exactly when the note matches and the velocity lies in the range, on any channel. |
| Sound.HalfOpenRange | Source/core/DrumSound.h:51-57 | The velocity range is half-open. A trigger at its start applies when the note matches and the range is not empty. A trigger at its end never applies. |
| Sound.AnyChannelApplies | Source/core/DrumSound.h:59 | Every MIDI channel is accepted. |
| Sound.RoundToInt | Source/core/DrumSound.h:98 | The rounded velocity floor lies within one half of the exact value, and strictly within one of it. A value exactly halfway rounds to the even neighbour. |
| Sound.SetPath | Source/core/DrumSound.h:83-105 | On an empty path the result is the sample file name built from directory, separator, name, index and rounded velocity floor. The path is marked as set. Nothing else changes. |
| Sound.ReadFromPath | Source/core/DrumSound.h:117-145 | Nothing is loaded when the path is empty, the reader is null, or the sample rate or length is not positive. Otherwise the sound holds min(2, channels) channels of length + 4 frames. Its first `length` frames are the file's. `lenght` is the file length. |
| Sound.RunStep | Source/core/DrumSound.h:67-78 | One pass of the loader loop. Afterwards the path is set. A sound whose path was already set is unchanged. A loaded sound stays loaded. The note, range, index and name stay the same. |
| Sound.LoadsAtMostOnce | Source/core/DrumSound.h:69-76 | A second loader pass changes nothing, whatever the decoder would answer. So each sound resolves and loads its file at most once. |
| Sound.FirstPassReadsSamplePath | Source/core/DrumSound.h:71-75 | On a fresh sound the first pass reads exactly the file named by the naming convention. It loads the file when the decoder accepts it. |
| Sound.ParseNatToString | Source/core/DrumSound.h:97-98 | The decimal text of the index and velocity floor parses back to the number. |
| Sound.SamplePathRoundTrip | Source/core/DrumSound.h:95-99 | The file name can be read back into directory-and-name prefix, index and rounded velocity floor. |
| Sound.SamplePathsDistinct | Source/core/DrumSound.h:95-99 | Sounds of one instrument whose index or rounded velocity floor differ load different files. |
| Voice.StopNote | Source/core/DrumSound.h:206-210 | The voice is cleared at once, with no tail-off. It plays no note on any channel. Position, ratio and gain memory are kept. |
| Voice.MuteFadesOut | Source/core/DrumSound.h:221-273 | A muted block fades out: sample `i` of `n` gets `prev * (1 - i/n)`, so the fade reaches 0 at the end of the block rather than cutting at its start. The gain memory is then 0, so a second muted block is silent. An unmuted block's ramp ends on the level. |
| Voice.InterpBetweenFrames | Source/core/DrumSound.h:235-241 | The interpolated frame lies between the two sample frames it reads. At a whole position it is that frame. |
| Voice.MixFrame | Source/core/DrumSound.h:243-251 | Adds one frame on top of the existing output, which is never overwritten. A stereo output gets `l*min(1-pan,1)` and `r*min(1+pan,1)` on its first two channels. A mono output gets `(l+r)/2`. |
| Voice.RenderFrames | Source/core/DrumSound.h:233-261 | Each frame is read at a position below `lenght`, so both indices it reads lie inside the `lenght + 4` buffer. The loop stops exactly when the position reaches `lenght`, and runs all `n` frames otherwise. Output sample `start + j` gains frame `j`'s contribution; every other sample is unchanged. |
| Voice.PositionsIncrease | Source/core/DrumSound.h:255 | With a positive ratio, a later frame is read at a strictly later position. |
| Voice.GainStage | Source/core/DrumSound.h:263-274 | Every output sample is scaled by the ramp from the previous gain to the current one; when the two are equal this is a flat gain. The gain memory becomes the current gain. |
| Voice.RenderNextBlock | Source/core/DrumSound.h:216-276 | An idle voice changes nothing. A playing voice's position strictly increases, stays within `n` ratios, and the voice is cleared exactly when the position reaches `lenght`. Each output sample is the old sample plus the frame read there (inside the sample only), times the level ramp over the whole buffer. The voice stays inside its sample. |
| Layers.LayerCount | Source/core/DrumSynth.h:133-149 | The construction loop builds between 1 and `numVelocityRange` layers. |
| Layers.AllLayersBuilt | Source/core/DrumSynth.h:146-148 | For up to 128 layers the early exit never fires, so every layer is built. |
| Layers.LayersPartition | Source/core/DrumSynth.h:128-149 | The first layer starts at 1/128. Each layer is non-empty and ends where the next starts. The last ends at 1/128 + 1, not at 1. |
| Layers.LayersDisjoint | Source/core/DrumSynth.h:133-137 | No velocity lies in two layers. |
| Layers.LayerOf | Source/core/DrumSynth.h:133-137 | Every velocity in [1/128, 1/128 + 1) lies in some layer. |
| Layers.OutsideAllLayers | Source/core/DrumSynth.h:130-136 | A velocity below 1/128 (such as 0), or at or above 1/128 + 1, lies in no layer. |
| Layers.MidiVelocityInSpan | Source/core/DrumSynth.h:130-131 | Every note-on velocity 1..127, read as v/127, falls inside the layers' span. |
| Layers.MakeSound | Source/core/DrumSynth.h:139-143 | A sound configured by `addSounds` carries the name, index, note and range. It has no path and nothing loaded. |
| Layers.ConfiguredFirstPass | Source/core/DrumSound.h:69-76 | When the setters run before the loader's first pass, that pass reads and loads the file named after the configured name, index and range start. |
| Layers.LoaderRaceReadsUnconfiguredPath | Source/core/DrumSynth.h:139-143 | When the loader's first pass comes before the setters, it resolves the path from the empty name, the left-over index and a range start of 0. The setters then change name, range, index and note but not the path, and every later pass changes nothing. |
| Layers.AddLayerSounds | Source/core/DrumSynth.h:138-145 | The inner loop appends the layer's `m` sounds with round-robin indices 1..m at list positions `k*m .. k*m + m - 1`. |
| Layers.AddSounds | Source/core/DrumSynth.h:126-150 | The sound list is the reference list `InitialSounds`: sound `j` has layer `j / m` and index `j % m + 1`. |
| Layers.InitialSoundsFields | Source/core/DrumSynth.h:138-143 | Every sound of the initial list has the instrument's name and note, its layer's range and round-robin index, and nothing loaded. |
| Layers.ExactlyOneSoundPerSlot | Source/core/DrumSynth.h:126-150 | On the bound note, every velocity in [1/128, 1/128 + 1) is answered by exactly one sound per round-robin index. |
| Layers.NoSoundOutsideSpan | Source/core/DrumSynth.h:126-150 | No sound of a fresh instrument answers another note, or a velocity outside [1/128, 1/128 + 1). |
| Layers.DefaultSampleFiles | Source/core/DrumSynth.h:12-14 | With the shipped constants an instrument has two sounds, which load `<name>_1_1.aif` and `<name>_1_64.aif`. |
| Synth.NewSynth | Source/core/DrumSynth.h:18-33 | A new instrument has `maxVoices` (10) idle voices and `numVelocityRange * maxSoundsPerRange` sounds, all bound to the default note and unloaded. Stealing is on. The learn flag is whatever the unattached flag reads. The instrument invariant holds. |
| Synth.FindFreeVoice | Source/core/DrumSynth.h:106 | The search returns an idle voice whenever one exists. When none does, it returns a stolen voice if stealing is on and nothing otherwise. |
| Synth.StopMatching | Source/core/DrumSynth.h:102-104 | Afterwards no voice plays the note on the channel. Every voice that played it is stopped, and every other active voice is untouched. |
| Synth.StartVoice | Source/core/DrumSynth.h:106-107 | The chosen voice takes the note, channel, sound, a fresh note-on stamp, position 0 and the pitch ratio; no other voice changes. |
| Synth.TriggerSound | Source/core/DrumSynth.h:98-108 | After the body of the note-on loop, at most one voice plays the note on the channel. With stealing on, one voice plays it from the start of the sound's sample. |
| Synth.NoteOn | Source/core/DrumSynth.h:88-110 | A trigger that no loaded sound answers leaves the instrument unchanged. Every voice that changed was stopped or started at position 0 on a loaded sound that answers the trigger. |
| Synth.NoteOnAsWritten | Source/core/DrumSynth.h:88-110 | As written: a trigger that no sound answers leaves the instrument unchanged. Every voice that changed was stopped or started at position 0 on a sound that answers the trigger, loaded or not. |
| Synth.NoteOnKeepsValid | Source/core/DrumSynth.h:88-110 | The note-on keeps the instrument invariant: voices read inside loaded samples and no note is doubled on a channel. |
| Synth.NoteOnStartsOneVoice | Source/core/DrumSynth.h:94-109 | A note-on that some loaded sound answers leaves exactly one voice on that note and channel, freshly started. |
| Synth.NoteOnAsWrittenStartsOneVoice | Source/core/DrumSynth.h:94-109 | As written, a note-on that some sound answers leaves exactly one voice on that note and channel, freshly started. |
| Synth.AsWrittenStartsUnloadedSound | Source/core/DrumSynth.h:94-107 | As written, a full-velocity hit on a fresh instrument starts a voice on an unloaded sound, and the invariant is lost. |
| Synth.CorrectedIgnoresUnloadedSounds | Source/core/DrumSynth.h:94-107 | With the loaded-sample guard, every hit on a fresh instrument leaves it unchanged. |
| Synth.MidiLearn | Source/core/DrumSynth.h:112-121 | The instrument's note becomes the learned note, and every sound applies to exactly that note. Nothing else in the sounds changes. |
| Synth.LearnRebuildsSounds | Source/core/DrumSynth.h:112-121 | Learning a note on a fresh instrument gives the sound list the constructor would build for that note. |
| Synth.LearnTwice | Source/core/DrumSynth.h:112-121 | Only the last learned note counts. |
| Synth.AllNotesOff | Source/core/DrumSynth.h:60-63 | Afterwards no voice plays on the channel, and on channel 0 no voice is active. Voices of other channels are untouched. |
| Synth.AllNotesOffIdempotent | Source/core/DrumSynth.h:60-63 | Stopping twice is stopping once. |
| Synth.SetPlaybackRate | Source/core/PluginProcessor.cpp:157-162 | A new host rate stops every voice and is stored. The same rate changes nothing. |
| Synth.HandleMidiEvent | Source/core/DrumSynth.h:38-86 | The corrected dispatch. A note-on while learn is on is a MIDI learn of its note followed by clearing the learn flag. Nothing else changes: no voice starts, and the sounds keep everything but their note. Otherwise a note-on runs the corrected note-on, which skips unloaded sounds. All-notes-off and all-sound-off stop the message channel's voices. Every other message changes nothing. |
| Synth.HandleMidiEventKeepsValid | Source/core/DrumSynth.h:38-86 | Every MIDI message keeps the instrument invariant under the corrected dispatch. |
| Synth.HandleMidiEventAsWritten | Source/core/DrumSynth.h:38-86 | The dispatch as written. It matches the corrected one, except that a note-on runs the note-on as written, which starts voices on unloaded sounds too. |
| Synth.AsWrittenDispatchLosesValid | Source/core/DrumSynth.h:42-55 | As written, a velocity-127 note-on on the bound note of a fresh instrument breaks the instrument invariant. |
| Synth.AsWrittenAgreesWhenLoaded | Source/core/DrumSynth.h:38-86 | Once every sample has loaded, the dispatch as written is the corrected one. |
| Synth.AsWrittenKeepsValidWhenLoaded | Source/core/DrumSynth.h:38-86 | Once every sample has loaded, every MIDI message keeps the invariant under the dispatch as written. |
| Synth.LoadSounds | Source/core/DrumSound.h:67-78 | After one loader pass of every sound, every path is set. Sounds already resolved are unchanged, and loaded sounds stay loaded. |
| Synth.LoadSoundsKeepsValid | Source/core/DrumSound.h:67-78 | Loading never disturbs a sound a voice is playing. |
| Synth.LoadSoundsOnce | Source/core/DrumSound.h:69-76 | A second loader pass over the instrument changes nothing. |
| Synth.RenderVoices | Source/core/DrumSound.h:216-276 | Rendering every voice keeps the instrument invariant. Idle voices stay as they were, and a voice still active plays the same note and sound. With a non-empty block every playing voice moves forward. |
| Processor.LeadingCount | Source/core/PluginProcessor.cpp:114-129 | The count covers exactly the names before the first "Empty", within the limit. |
| Processor.NewProcessor | Source/core/PluginProcessor.cpp:114-129 | One instrument per output before the first "Empty", named after it. Mute and solo are cleared for those channels only, and the loop stops at "Empty". |
| Processor.NewInstrumentsValid | Source/core/PluginProcessor.cpp:114-129 | Every instrument the constructor builds satisfies the instrument invariant. |
| Processor.PrepareToPlay | Source/core/PluginProcessor.cpp:139-163 | `previousMasterGain` becomes the current master level. Each instrument takes the host rate and keeps its invariant. Nothing else changes. |
| Processor.AddBus | Source/core/PluginProcessor.h:45-48 | A bus is added only for an output while fewer than 8 exist. Otherwise the request changes nothing. |
| Processor.RemoveBus | Source/core/PluginProcessor.h:49-52 | A bus is removed only for an output while more than one exists. Otherwise the request changes nothing. |
| Processor.BusRequestsKeepCount | Source/core/PluginProcessor.h:3-52 | Any sequence of guarded add and remove requests keeps the bus count in [1, 8]. |
| Processor.SetMuteEnabled | Source/core/PluginProcessor.h:60-66 | A channel index sets only that channel's flag. A negative index sets the master mute instead, and no channel flag changes. |
| Processor.SetSoloEnabled | Source/core/PluginProcessor.h:68-72 | A channel index sets only that channel's flag. A negative index changes nothing. |
| Processor.GetSoloChannel | Source/core/PluginProcessor.h:74-82 | The result is none exactly when no solo flag of the 8 is set. Otherwise it is the first soloed channel. |
| Processor.AllSoloDisabled | Source/core/PluginProcessor.h:84-97 | True exactly when no channel before the first "Empty" output is soloed. |
| Processor.SoloQueriesAgree | Source/core/PluginProcessor.h:74-97 | The two solo queries agree when every output is named. Otherwise they differ only on a solo past the first "Empty". |
| Processor.ClearUnusedOutputs | Source/core/PluginProcessor.cpp:201-202 | Channels from the input count up to the output count are zeroed. The others are unchanged. |
| Processor.MasterPan | Source/core/PluginProcessor.cpp:255-268 | The pan factors lie in [0, 1] for pan in [-1, 1] and are both 1 at centre pan. |
| Processor.MasterStage | Source/core/PluginProcessor.cpp:249-286 | As written: each sample of the first two channels is multiplied by level times pan (a mono buffer uses the left factor). When the level changed, the whole buffer is then ramped from the previous level. The memory becomes the level. |
| Processor.AsWrittenMasterGainJumps | Source/core/PluginProcessor.cpp:270-285 | As written, going from level 1 to 1/2 starts the block at 1/2 instead of 1 and ends it at 5/16, below both levels. |
| Processor.MasterStageCorrected | Source/core/PluginProcessor.cpp:249-286 | With the level change faded in once: the gain is level times pan when unchanged, and pan times the ramp from the previous level when changed. The memory becomes the level. |
| Processor.CorrectedMasterGainFades | Source/core/PluginProcessor.cpp:270-286 | Across a level change the corrected gain starts at the previous level and stays between the old and new levels, times the pan factor. |
| Processor.CorrectedMasterGainSteps | Source/core/PluginProcessor.cpp:270-286 | The corrected gain moves by the same step each sample: the pan factor times the level change over the block length. |
| Processor.ProcessBlock | Source/core/PluginProcessor.cpp:194-287 | As written: unused outputs are cleared, then the master stage as written runs with the current level and pan, applying a changed level twice. The output does not depend on the master mute. `previousMasterGain` becomes the level. |
| Processor.ProcessBlockCorrected | Source/core/PluginProcessor.cpp:194-287 | The same block with the corrected master stage: unused outputs are cleared and a level change is faded in once. `previousMasterGain` becomes the level. |
| Audio.RampWithinBounds | Source/core/PluginProcessor.cpp:284 | A gain ramp stays between its two end gains, and would reach the target one sample after the block. |
| Audio.RampIsMonotone | Source/core/DrumSound.h:272 | Consecutive ramp gains differ by the gain change over the block length, so the ramp moves monotonically towards the target. |
| Audio.ApplyGainRamp | Source/core/DrumSound.h:272 | Every sample `i` of every channel is scaled by `g0 + i*(g1-g0)/n`. |
| Audio.PanLeft | Source/core/DrumSound.h:245 | The left pan factor is 1 for pans at or left of centre and 1 - pan otherwise. It lies in [0, 1] for pan in [-1, 1]. |
| Audio.PanRight | Source/core/DrumSound.h:246 | The right pan factor is 1 for pans at or right of centre and 1 + pan otherwise. It lies in [0, 1] for pan in [-1, 1]. |

## Left out

- The loader thread itself (`startThread`, the `threadShouldExit` loop, `wait(500)`, `stopThread`) is concurrency. Only one pass of the loop body is modelled, as `RunStep`.
- Layers.AddSounds and Synth.LoadSounds assume that the four setters of `addSounds` finish before a sound's loader thread makes its first pass. The source does not guarantee this: the constructor starts the thread and `run` tests `isPathSet` at once. The other interleaving is stated by `Layers.LoaderRaceReadsUnconfiguredPath`.
- Audio file decoding (`AudioFormatManager`, `createReaderFor`, `reader->read`). `ReadFromPath` takes the decoder's answer (rate, length, channels, frames) as a parameter.
- Sound.ReadFromPath: the decoder's 64-bit length is narrowed to `int` for `lenght` and for the `lenght + 4` frame allocation. The model keeps unbounded integers, so it assumes the length plus the four guard frames fits in a 32-bit `int`; a longer file would wrap in the source.
- The working directory and separator that `setPath` reads from the file system are parameters. The debug message is left out.
- The four guard frames the sample buffer allocates past the end are uninitialised memory. They are modelled as zeros.
- The `isSoloEnabled` flag that `renderNextBlock` reads is never used, so it is not modelled.
- `startNote` computes the pitch ratio with `std::pow` from the coarse and fine tuning and the sample rates. This is floating point; the ratio is a parameter, positive where the proofs need it.
- Floating point in general: samples, gains, velocities and positions are exact reals, so float rounding is not modelled.
- `roundFloatToInt` is modelled as round-half-to-even, the rounding its magic-number trick performs.
- Values the source leaves uninitialised are parameters. These are a voice's `prevGain` (one value stands for every voice of every instrument, since no proof depends on them differing), a sound's `index` before `setIndex` (`NewSound` fixes it to 0), an instrument's MIDI learn flag (`attachMidiLearn` is never called, so the flag it reads is never attached), the mute and solo arrays, `previousMasterGain` before `prepareToPlay`, and `maxMidiChannel`, which no shown file declares (bounded by `MAX_INSTRUMENTS`).
- A voice's `level`, `pan`, `muteEnabled`, `soloEnabled`, `coarse` and `fine` parameter handles are never attached. Their only setter, `attachChannelParams`, has its body commented out, and so does its call in the processor constructor. `startNote` and `renderNextBlock` still read through them. The model takes the values they would read as inputs: `Voice.VoiceParams` for level, pan and mute, and the pitch ratio for the tuning.
- The processor's `outputs` list is never filled by the shown code; it is an input. `DrumsetXmlHandler` (its XML source) is not part of this model.
- The processor constructor calls a one-argument `DrumSynth` constructor that does not exist. The model builds instruments with the declared four-argument constructor. Its `index` argument is unused and not modelled.
- The Synthesiser voice pool is not shown. `findFreeVoice`'s stealing policy is a function parameter, a `victim` choice. `stopVoice`, `startVoice`, `allNotesOff` and `setCurrentPlaybackSampleRate` are modelled by their documented effect.
- Sustain and sostenuto pedals, tail-off, pitch wheel and controllers are ignored. The source ignores them too, so nothing is lost.
- Synth.RenderVoices: the block splitting of `Synthesiser::renderNextBlock` around MIDI event timestamps is left out. A block renders all voices over one span, and the contract states the voice-state effects, not the mixed samples (those are stated per voice by `Voice.RenderNextBlock`).
- `voicesToLog`, `Logger` and `DBG` output are logging.
- The `maxSampleLengthSeconds = 30` field is declared but never read.
- `setMuteEnabled`/`setSoloEnabled` with an index of 8 or more write out of bounds in the source. The model requires the index to be below 8.
- `getSoloChannel` returns the address of its loop variable, which dangles once it returns. The model returns the channel index as an Option.
- The processor's `isLearnEnabled` and `previousChannelGain` arrays, the per-instrument level/pan parameter handles and the commented-out per-instrument loop of `processBlock` are never used.
- `processBlock` does not render the instruments (the call is commented out). The model keeps instrument rendering (`Synth.RenderVoices`) and the master stage separate, as the code does.
- The master mute parameter is never applied in `processBlock`, so it plays no part in `ProcessBlock`.
- The parameter layout, `attachMasterParams`, `get/setStateInformation`, `isBusesLayoutSupported`, `releaseResources`, the editor and `ReferenceCountedBuffer` are host and GUI plumbing.
- After a learned note-on, the source clears a `p<name>Learn` parameter that the parameter layout never declares, so the lookup returns null and the call dereferences it. The model clears the instrument's learn flag instead.
- Synth.HandleMidiEventKeepsValid: holds for the corrected dispatch only. The dispatch as written (`Synth.HandleMidiEventAsWritten`) breaks the invariant before the samples have loaded (`Synth.AsWrittenDispatchLosesValid`) and keeps it once all have loaded (`Synth.AsWrittenKeepsValidWhenLoaded`).

## Findings

| source | as written | input that shows it | evidently intended | confidence | as-written member | corrected member |
|---|---|---|---|---|---|---|
| Source/core/DrumSynth.h:94-107 | `noteOn` starts a voice for every matching sound, whether or not its sample has loaded. `startNote` then reads the sample rate through a null reader, and the render reads a null buffer. | A note-on on the bound note at velocity 127 (1.0) before the loader threads have run, on a fresh instrument. | Only sounds whose sample is loaded start a voice. | not executed | Synth.NoteOnAsWritten, Synth.AsWrittenStartsUnloadedSound, Synth.HandleMidiEventAsWritten, Synth.AsWrittenDispatchLosesValid | Synth.NoteOn, Synth.NoteOnKeepsValid, Synth.CorrectedIgnoresUnloadedSounds, Synth.HandleMidiEvent, Synth.HandleMidiEventKeepsValid |
| Source/core/PluginProcessor.cpp:270-285 | When the master level changes, the first two channels are multiplied by the new level, and then the whole buffer is ramped from the previous level to the new one. The level is applied twice. | Previous level 1, new level 1/2, centre pan, 4-sample block: the gain starts at 1/2 (a jump from 1) and ends at 5/16, below both levels. | A fade from the previous level to the new one, times the pan factor. | not executed | Processor.MasterStage, Processor.ProcessBlock, Processor.AsWrittenMasterGainJumps | Processor.MasterStageCorrected, Processor.ProcessBlockCorrected, Processor.CorrectedMasterGainFades, Processor.CorrectedMasterGainSteps |
| Source/core/DrumSound.h:13-17 | The constructor starts the loader thread before `addSounds` (DrumSynth.h:139-143) names and configures the sound, and `run` resolves the path on its first pass without waiting. | A loader thread scheduled right after `startThread`, before `setName`: the path is `<dir><sep>_<index>_0.aif` for whatever `index` holds, and it is never resolved again. | The loader reads the configured sample file, that is, the thread starts once the sound is configured. | not executed | Layers.LoaderRaceReadsUnconfiguredPath | Layers.ConfiguredFirstPass, Layers.MakeSound, Synth.LoadSounds |
