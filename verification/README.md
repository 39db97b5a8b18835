# Melody mixing and channel editing, modelled in Dafny

This project models the two discrete parts of a small procedural-music
repository.

- **`HumanMusic`** (`human_music.dfy`) models `generate_music` in
  `human_music.py`. The melody is a 4-step motif of scale-degree offsets
  `[0, 1, 0, -1]` flattened ten times into 40 steps, where `-1` is a rest.
  The master buffer holds `(steps + 2) * sample_rate` zeros. Every sounding
  step `i` gets a note buffer of `int(sample_rate * 1.5)` samples, which is
  added into the master buffer from index `int(i * sample_rate * 0.5)` on.
  Sample values are abstracted to integers given by a `Voice` function of
  scale degree and sample index. The model therefore covers index arithmetic,
  buffer lengths, the in-bounds guarantee of the numpy slice-add, rest
  skipping and additive accumulation. It does not cover the trigonometry.
  The sample rate is a parameter, and its default is the module constant
  44100.
- **`ChannelsSlice`** (`channels_slice.dfy`) models the `channels` slice of
  the front end. Its state is a list of channels, each with a list of notes,
  plus a nullable selected-note id. It models the initial state and the
  `addNote` and `selectNote` reducers as pure functions from state to state.
- **`Options`** (`options.dfy`) holds `Option` for nullable values and
  `Result` for operations that may raise.

Three facts about the code shape the model:

- The code does not check whether a note runs past the end of the master
  buffer. numpy would raise on the shape mismatch, and `AddAt` models that
  as `Failure`. `PlacementInBounds` shows it never happens, for any step
  sequence and any sample rate.
- Every note is exactly 1.5 s long and is added into the master buffer
  unscaled.
- The final normalisation divides by `samples.max()`, not by the largest
  absolute value. That step is not modelled (see below).

## Model

| member | source | states |
|---|---|---|
| `HumanMusic.Repeat` | human_music.py:32 | flattening `n` copies of a cell gives `len(cell) * n` entries, entry `i` being `cell[i % len(cell)]` |
| `HumanMusic.Steps` | human_music.py:32 | the melody has exactly 40 steps and step `i` is `[0, 1, 0, -1][i % 4]` |
| `HumanMusic.NoteLength` | human_music.py:18-21 | the note buffer length is the largest whole number of samples within 1.5 seconds (`2r <= 3·sr < 2r + 2`) |
| `HumanMusic.GenerateSine` | human_music.py:17-28 | a note buffer has `int(sample_rate * 1.5)` samples for every frequency, one per point of the time axis |
| `HumanMusic.NoteLengthIndependentOfDegree` | human_music.py:17-21 | at 44100 samples per second every note buffer has 66150 samples, whatever its scale degree |
| `HumanMusic.StartIndex` | human_music.py:43 | step `i` starts at the largest index not after `i` half-seconds (`2r <= i·sr < 2r + 2`) |
| `HumanMusic.DefaultStepRange` | human_music.py:43-44 | at 44100 samples per second step `i` covers `[22050·i, 22050·i + 66150)` |
| `HumanMusic.MasterLength` | human_music.py:33-34 | the master buffer is `(steps + 2) * sample_rate` samples, at least two seconds, and every step's note buffer ends within it |
| `HumanMusic.Zeros` | human_music.py:34 | the master buffer starts with the requested number of samples, all zero |
| `HumanMusic.AddAt` | human_music.py:45 | the slice-add succeeds exactly when the note fits in the buffer or has at most one sample. On success the length is kept, index `k` in `[start, start + len)` gains `note[k - start]`, and every other index is unchanged |
| `HumanMusic.AddPointwise` | human_music.py:45 | adding two equal-length buffers adds them index by index |
| `HumanMusic.OverrunRaises` | human_music.py:45 | a note of two or more samples that runs past the buffer end raises instead of being truncated |
| `HumanMusic.PlacementInBounds` | human_music.py:33-45 | for any number of steps and any sample rate, every step's note ends within `(steps + 2) * sample_rate` |
| `HumanMusic.PlaceStep` | human_music.py:38-45 | a rest step leaves the buffer unchanged. On a master-sized buffer the step never raises, and it adds exactly its contribution at each index |
| `HumanMusic.Render` | human_music.py:33-45 | after the first `n` loop iterations the master buffer keeps its length and never raises. Each index holds the sum of the contributions of steps `0 .. n - 1` |
| `HumanMusic.Compose` | human_music.py:31-46 | the mixing loop computes the fold `Render` over all steps: a buffer of `(len(notes) + 2) * sr` samples, each index holding the sum of the contributions of the sounding steps whose ranges cover it |
| `HumanMusic.GenerateMusic` | human_music.py:31-46 | the default melody mixes into 1852200 samples (42 seconds), each holding the sum of the covering steps' samples |
| `HumanMusic.NoStepsIsSilence` | human_music.py:33-34 | with no steps mixed, the loop yields the all-zero buffer of `(len(notes) + 2) * sr` samples |
| `HumanMusic.RestsOnlyIsSilence` | human_music.py:38-40 | a step sequence of nothing but rests mixes to silence at every index |
| `HumanMusic.MixedZeroPastLastNote` | human_music.py:38-45 | after `n > 0` steps, nothing lies at a negative index or at or beyond the end of step `n - 1`'s range |
| `HumanMusic.LastSoundingStep` | human_music.py:32-45 | the rests are exactly the steps `i % 4 == 3`. The last sounding step is 38, and it ends at 904050, within the 1852200-sample buffer |
| `HumanMusic.PlacementsCommute` | human_music.py:45 | two slice-adds that fit can be done in either order with the same result, so the mix does not depend on placement order |
| `HumanMusic.MixedSplit` | human_music.py:38-45 | summing the step contributions from the first step up and from the last step down gives the same total |
| `HumanMusic.RenderBackward` | human_music.py:38-45 | placing steps from the last down to `j` keeps the master length and never raises. Each index holds the sum of those steps' contributions |
| `HumanMusic.ReverseOrderSameMix` | human_music.py:38-45 | placing the steps last-to-first gives the same master buffer as the loop's first-to-last order |
| `HumanMusic.SingleNoteIntoSilence` | human_music.py:34-45 | a single note placed at index 0 of silence reproduces its own samples, followed by silence |
| `ChannelsSlice.FindChannel` | frontend/src/app/channelsSlice.ts:62 | `find` yields the first channel with the id, or nothing exactly when no channel has it |
| `ChannelsSlice.AddNote` | frontend/src/app/channelsSlice.ts:57-66 | appends the note to the first channel with the id. All other channels stay unchanged, later duplicates included. The channel count, order, ids, names, volumes and the selected note are kept. With no matching id the state is unchanged |
| `ChannelsSlice.AddNoteCount` | frontend/src/app/channelsSlice.ts:61-65 | `addNote` grows the total note count by one when the channel exists and by zero otherwise |
| `ChannelsSlice.AddNoteDistinct` | frontend/src/app/channelsSlice.ts:62-64 | with distinct ids, the note lands in the one channel carrying the id |
| `ChannelsSlice.SelectNote` | frontend/src/app/channelsSlice.ts:67-72 | `selectNote(x)` makes `x` the selected note and leaves the channels unchanged |
| `ChannelsSlice.SelectNoteIdempotent` | frontend/src/app/channelsSlice.ts:71 | selecting the same note twice equals selecting it once |
| `ChannelsSlice.AddNoteSelectNoteCommute` | frontend/src/app/channelsSlice.ts:57-72 | adding a note and selecting a note commute |
| `ChannelsSlice.Reduce` | frontend/src/app/channelsSlice.ts:53-77 | the reducer never changes the channel layout. `selectNote` sets the selection and keeps the channels. `addNote` keeps the selection, and with no matching id it keeps the whole state |
| `ChannelsSlice.InitialStateShape` | frontend/src/app/channelsSlice.ts:20-51 | the initial state selects nothing and holds two channels with distinct ids and three notes |
| `ChannelsSlice.ReduceAllKeepsLayout` | frontend/src/app/channelsSlice.ts:53-75 | no sequence of actions changes the number, order, ids, names or volumes of the channels |
| `ChannelsSlice.ReachableIdsDistinct` | frontend/src/app/channelsSlice.ts:20-75 | every state reachable from the initial state has distinct channel ids |

## Left out

- Waveform numerics (`sigmoid`, `get_envelope`, the four-harmonic sine sum, the `2 ** (note / 12)` frequency mapping, the amplitude 32767/2; human_music.py:9-28, 41). They are floating-point transcendental arithmetic. Sample values come from the `Voice` parameter, whose argument is the scale degree rather than the frequency.
- Final normalisation `samples / samples.max() * (2**15 - 1)` cast to `int16` (human_music.py:47). It is float division followed by a truncating cast, and it is not modelled as exact arithmetic. `GenerateMusic` returns the mix before this step.
- The unused time axis `t` of `generate_music` (human_music.py:35-37). Nothing reads it.
- Float exactness: `int(i * sample_rate * 0.5)` and `int(sample_rate * 1.5)` are modelled as exact floor division by 2 of non-negative integers. That is exact for double-precision values below 2^53, which covers every index here.
- `AddAt`: negative start indices are not modelled, because start indices are never negative here.
- `save`, WAV encoding and the command-line entry point (human_music.py:51-66). These are file I/O and CLI glue.
- `frontend/src/main.rs` is not part of this model. It is a UI component tree with a static fixture and no logic beyond rendering.
- `frontend/src/app/ChannelEditor.tsx` is not part of this model. It is UI, and its new-note id comes from the clock.
- The slice library's draft/immutability machinery and its action-type strings. The reducers are pure functions over an `Action` datatype. Unknown actions are not modelled.
- `FindChannel` returns the index of the match rather than the channel object, so that the update can be written as a sequence update.
