# Wavetable waveshaper — a Dafny model

This project models the signal path of a wavetable waveshaping audio
plug-in. The plug-in has three parameters: input gain, output gain and a
wavetable index.

When playback is prepared, the processor builds its state:
- two gain stages;
- a square test wave of 2048 samples;
- a wavetable of 256 waves of 2048 samples, stored flat in one channel, with every wave set to a ramp;
- a wave cursor fixed at 0.

For every audio block the processor then:
1. divides the two gain parameters by 100;
2. applies the input gain;
3. replaces every sample of every channel by a bilinear read of the table;
4. applies the output gain.

The read maps the amplitude `x` to the position `(x + 1) / 2 * 2047` inside a wave. It takes `floor` and `ceil` of that position and of the cursor. It weights the two sides with the `fmod` fraction and blends the two samples in each of the two waves. Finally it blends the two waves.

Samples are exact `real`s. On these, `floor` is `.Floor`, `ceil` is the floor or the floor plus one, and `fmod(p, 1)` for `p >= 0` is `p - floor(p)`.

The model has six modules:
- `Parameters` (`parameters.dfy`): the parameter enum and its constant tables.
- `Interpolation` (`interpolation.dfy`): one axis of the read. It covers floor/ceil, the weights and the blend.
- `Wavetable` (`wavetable.dfy`): the flat table, the bilinear `Lookup` (which requires in-range coordinates), the ramp and the two table fills.
- `Waveshaper` (`waveshaper.dfy`): the per-sample `Transform`. It clamps the amplitude to [-1, 1] and the cursor to [0, 255] before the lookup.
- `Processor` (`processor.dfy`): the processor state, preparation, and the block pass.
- `AsWritten` (`defects.dfy`): the code fragments listed under Findings, modelled as written.

The model keeps two choices of the code that a reader might not expect:
- The wave cursor is never read from the INDEX parameter. It stays at 0 after preparation.
- The input gain stage is initialised from the GAIN default rather than the INGAIN default. Both defaults are 50, so the result is the same.

The model departs from the code in these places:
- The read clamps the amplitude to [-1, 1] and the cursor to [0, 255] before `floor`/`ceil`. The code does not clamp (see Findings).
- The ramp fill (`Wavetable.FillRamps`) differs from lines 40-45 in three ways. Its inner loop advances the sample counter rather than the wave counter. It stores `2j/2047 - 1` rather than the integer-division expression. It stores to the table's only channel, the one the read uses, rather than channel 1 (see Findings).
- A gain stage is a plain multiply by its level (`Processor.ApplyGain`), in place of the smoothing gain class (see Left out).
- The wave cursor is a plain `real` field of the state (`Processor.State.wavetableIndex`), set to 0 by `Processor.PrepareToPlay`. The code holds it behind a pointer: line 46 assigns `std::make_unique<double>` without calling it, to a member whose declaration is commented out (src/plugin/PluginProcessor.h:38), so the preparation as written does not compile.

`AsWritten` models only fragments of the code as written. It covers the ramp sample expression, the inner loop's counter step, the fill's store call and the read's index arithmetic. It does not model the fill loop's stores or the values the unclamped read returns.

## Model

| member | source | states |
|---|---|---|
| `Parameters.Ordinal` | src/parameters/ParameterDefines.h:3-8 | INGAIN is 0, GAIN is 1, INDEX is 2; every value is below TOTAL_NUMBER_PARAMETERS = 3 |
| `Parameters.FromOrdinal` | src/parameters/ParameterDefines.h:3-8 | every enumerator value below 3 names a parameter with that value |
| `Parameters.OrdinalRoundTrip` | src/parameters/ParameterDefines.h:3-8 | the parameter-to-value and value-to-parameter maps are inverse |
| `Parameters.TablesHaveOneEntryPerParameter` | src/parameters/ParameterDefines.h:9-48 | each of the eight tables has exactly one entry per parameter |
| `Parameters.Id` | src/parameters/ParameterDefines.h:9-13 | a parameter's identifier is the name-table entry at its enumerator, one of "INGAIN", "GAIN", "INDEX" |
| `Parameters.IdsAreDistinct` | src/parameters/ParameterDefines.h:9-13 | two parameters have the same identifier exactly when they are the same parameter |
| `Parameters.IdsMatchNames` | src/parameters/ParameterDefines.h:9-18 | the identifier table and the name table agree entry by entry |
| `Parameters.RangeOf` | src/parameters/ParameterDefines.h:19-23 | every range starts at 0; INDEX ends at 255, the gains at 100 |
| `Parameters.Range.Clamp` | src/parameters/ParameterDefines.h:19-23 | the value a range admits lies in the range, is the request when it is in range, and is the nearest end otherwise |
| `Parameters.DefaultOf` | src/parameters/ParameterDefines.h:24-28 | every default lies in its range: 50, half the range, for the gains and 0, the start, for INDEX |
| `Parameters.NormaliseGain` | src/plugin/PluginProcessor.cpp:61-62 | the multiplier times 100 is the parameter value, and it lies in [0, 1] exactly when the value lies in the gain range |
| `Parameters.DefaultGainsAreHalf` | src/plugin/PluginProcessor.cpp:30-31 | the default gain value 50 becomes the multiplier 0.5 |
| `Interpolation.Ceil` | src/plugin/PluginProcessor.cpp:81 | `ceil` is the least integer not below its argument: the floor when the argument is whole, otherwise the floor plus one |
| `Interpolation.Frac` | src/plugin/PluginProcessor.cpp:85 | `fmod(x, 1)` of a non-negative `x` lies in [0, 1), adds to the floor to give `x`, and is 0 exactly at whole numbers |
| `Interpolation.Split` | src/plugin/PluginProcessor.cpp:81-88 | lower = floor and higher = ceil bracket the coordinate, differ by 0 or 1 (0 exactly at whole numbers), and the weights lie in [0, 1] and sum to 1 |
| `Interpolation.SplitReconstructs` | src/plugin/PluginProcessor.cpp:81-88 | the two grid lines weighted by `lower_scale` and `higher_scale` give back the coordinate |
| `Interpolation.SplitAtGridLine` | src/plugin/PluginProcessor.cpp:81-88 | at a whole number both grid lines are that number, and all the weight sits on the lower one |
| `Interpolation.SplitAtMidpoint` | src/plugin/PluginProcessor.cpp:81-88 | at `k + 0.5` the grid lines are `k` and `k + 1`, with weight one half each |
| `Interpolation.Blend` | src/plugin/PluginProcessor.cpp:89-93 | a weighted mix of two values lies between them, and it equals them when they are equal |
| `Interpolation.BlendBetween` | src/plugin/PluginProcessor.cpp:89-93 | the convex mix lies between the minimum and the maximum of its two values |
| `Interpolation.BlendOfLine` | src/plugin/PluginProcessor.cpp:89-93 | mixing two samples of a straight line gives the line at the point the weights select |
| `Wavetable.FlatIndex` | src/plugin/PluginProcessor.cpp:89-92 | `wave * 2048 + sample` lies inside the 2048 * 256 table, and dividing it by 2048 gives back the wave and the sample |
| `Wavetable.FlatIndexCovers` | src/plugin/PluginProcessor.cpp:39 | every slot of the allocated table is the flat index of some wave and sample |
| `Wavetable.CornerIndices` | src/plugin/PluginProcessor.cpp:89-92 | for a position in [0, 2047] and a cursor in [0, 255], all four flat indices read lie in [0, 2048 * 256) |
| `Wavetable.Lookup` | src/plugin/PluginProcessor.cpp:81-93 | the bilinear read of a table that holds one value everywhere is that value, at every in-range position and cursor; the bound by its four corner cells is `LookupConvex` |
| `Wavetable.LookupConvex` | src/plugin/PluginProcessor.cpp:89-93 | the lookup lies between the smallest and the largest of the four cells it reads |
| `Wavetable.LookupBounded` | src/plugin/PluginProcessor.cpp:89-93 | a table bounded by [lo, hi] gives lookups bounded by [lo, hi] |
| `Wavetable.LookupAtGridPoint` | src/plugin/PluginProcessor.cpp:81-93 | at a whole-number position and cursor the lookup is the stored cell |
| `Wavetable.LookupAtMidpoint` | src/plugin/PluginProcessor.cpp:81-93 | at position `k + 0.5` and a whole-number cursor the lookup is the mean of cells `k` and `k + 1` |
| `Wavetable.RampShape` | src/plugin/PluginProcessor.cpp:40-43 | the intended ramp `2j/2047 - 1` runs from -1 at the first sample to 1 at the last and rises strictly |
| `Wavetable.BlendOfRamp` | src/plugin/PluginProcessor.cpp:89-92 | mixing the ramp values at two neighbouring samples with convex weights gives the ramp line at the point the weights select |
| `Wavetable.RampRowIsLine` | src/plugin/PluginProcessor.cpp:89-92 | blending two neighbouring samples of a ramp wave gives the ramp line at the position |
| `Wavetable.RampLookupIsLine` | src/plugin/PluginProcessor.cpp:81-93 | in a table of ramps the lookup is the ramp line at the position, whatever the cursor |
| `Wavetable.FillRamps` | src/plugin/PluginProcessor.cpp:39-45 | after the ramp fill, sample `j` of every wave holds the ramp value `2j/2047 - 1` |
| `Wavetable.FillSquare` | src/plugin/PluginProcessor.cpp:32-38 | the square fill leaves samples 0..1023 at 0.9 and 1024..2047 at -0.9; its 2048 stores, pass by pass `i` then `M - 1 - i`, replayed on the cleared wave give the result and hit every index exactly once |
| `Wavetable.Replay` | src/plugin/PluginProcessor.cpp:36-37 | applying a list of in-range stores to a wave keeps its length |
| `Wavetable.ReplayAppend` | src/plugin/PluginProcessor.cpp:36-37 | replaying one more store is one more update of the replayed wave |
| `Wavetable.IndexRangeIsCursorDomain` | src/parameters/ParameterDefines.h:22 | INDEX's declared range [0, 255], step 1, is exactly the lookup's cursor domain |
| `Waveshaper.Position` | src/plugin/PluginProcessor.cpp:77-80 | the ramp line maps the position of `x` back to `x`, so the map is the ramp's inverse |
| `Waveshaper.PositionMapsOntoWave` | src/plugin/PluginProcessor.cpp:77-80 | `(x + 1) / 2 * 2047` sends [-1, 1] exactly onto [0, 2047], -1 to 0 and 1 to 2047, and nothing outside [-1, 1] lands in the wave |
| `Waveshaper.PositionIncreasing` | src/plugin/PluginProcessor.cpp:77-80 | the position map preserves and reflects strict order |
| `Waveshaper.PositionInvertsRampLine` | src/plugin/PluginProcessor.cpp:77-80 | the position map undoes the ramp line at every position |
| `Waveshaper.ClampAmplitude` | src/plugin/PluginProcessor.cpp:77-80 | the amplitude the read needs to stay in the table: in [-1, 1], unchanged when already there, otherwise the nearest end |
| `Waveshaper.ClampCursor` | src/plugin/PluginProcessor.cpp:83-84 | the cursor the read uses lies in [0, 255], is unchanged when already there, and is otherwise the nearest end |
| `Waveshaper.ClampCursorIsIndexRangeClamp` | src/parameters/ParameterDefines.h:22 | clamping the cursor is clamping to the INDEX parameter's declared range |
| `Waveshaper.Transform` | src/plugin/PluginProcessor.cpp:77-93 | for an amplitude in [-1, 1] and a cursor in [0, 255], the coordinates are in the read's domain and the transform is the read at `(x + 1) / 2 * 2047`, as the block pass computes it |
| `Waveshaper.TransformSaturates` | src/plugin/PluginProcessor.cpp:77-93 | with the clamp the model adds before the read, the transform depends only on the clamped inputs: an amplitude above 1 shapes like 1, one below -1 like -1, and a cursor outside [0, 255] reads the nearest end wave |
| `Waveshaper.TransformReadsInBounds` | src/plugin/PluginProcessor.cpp:81-92 | for every amplitude and every cursor, the clamped coordinates lie in the read's domain, and the four slots the transform reads lie inside the table |
| `Waveshaper.TransformBounded` | src/plugin/PluginProcessor.cpp:77-93 | a table bounded by [lo, hi] gives transformed samples bounded by [lo, hi] |
| `Waveshaper.RampTransformIsClamp` | src/plugin/PluginProcessor.cpp:77-93 | with the ramp in every wave the transform returns `x` for every `x` in [-1, 1], whatever the cursor, and saturates outside |
| `Processor.ShapeBlock` | src/plugin/PluginProcessor.cpp:75-97 | the in-place pass keeps the channel and sample counts; each output cell is the transform of the input sample at the same place, under the same table and cursor |
| `Processor.ApplyGain` | src/plugin/PluginProcessor.cpp:71-72 | a settled gain stage keeps the buffer's shape and multiplies every sample by its level |
| `Processor.UnityGainIsIdentity` | src/plugin/PluginProcessor.cpp:99-100 | a gain stage at level 1 leaves the buffer unchanged |
| `Processor.GainsCompose` | src/plugin/PluginProcessor.cpp:71-100 | an algebraic fact about the gain stage, not a property of the block pass (whose two stages have the shaping pass between them): two gain stages applied directly one after the other act as one stage at the product of their levels |
| `Processor.GainInverse` | src/plugin/PluginProcessor.cpp:71-72 | a stage at a non-zero level is undone by a stage at the reciprocal level |
| `Processor.PrepareToPlay` | src/plugin/PluginProcessor.cpp:24-49 | preparation leaves both gains at 0.5, the square test wave, the ramp in every wave and the cursor at 0 |
| `Processor.SetGains` | src/plugin/PluginProcessor.cpp:61-71 | the gain levels are the GAIN and INGAIN values over 100; the tables and the cursor are unchanged |
| `Processor.ProcessBlock` | src/plugin/PluginProcessor.cpp:51-100 | the block pass is: input gain, then every sample transformed at the stored cursor, then output gain; through the ramp table every gained sample is saturated to [-1, 1] |
| `Processor.RampShapingSaturates` | src/plugin/PluginProcessor.cpp:75-97 | through a ramp table the shaping pass sends every sample to its clamp in [-1, 1] |
| `AsWritten.RampSample` | src/plugin/PluginProcessor.cpp:42 | the as-written ramp expression divides by zero exactly at `j = 0` and is otherwise at least 1 |
| `AsWritten.RampSampleMissesRamp` | src/plugin/PluginProcessor.cpp:42 | at every sample but the last the as-written expression differs from the intended ramp |
| `AsWritten.RampSampleCounterexamples` | src/plugin/PluginProcessor.cpp:42 | sample 0 divides by zero, sample 1 gives 4093 and sample 1024 gives 1 |
| `AsWritten.InnerLoopNeverExits` | src/plugin/PluginProcessor.cpp:41 | the inner loop as written advances the wave counter and never the sample counter, so its condition never fails |
| `AsWritten.InnerLoopWritesPastTable` | src/plugin/PluginProcessor.cpp:41-43 | after 256 passes of that loop the write index is past the end of the table |
| `AsWritten.SetSample` | src/plugin/PluginProcessor.cpp:43 | a buffer's `setSample` on an existing channel and sample stores the value there and leaves every other sample as it was |
| `AsWritten.FillChannelCounterexample` | src/plugin/PluginProcessor.cpp:39-43 | on a one-channel buffer, the store to channel 1 that the fill makes is not defined for any sample index, while every store to channel 0, the one the read uses, is defined and leaves the value in place |
| `AsWritten.UnclampedCorners` | src/plugin/PluginProcessor.cpp:81-92 | without a clamp: an amplitude above 1 reads past its wave, one below -1 reads before its wave, a cursor above 255 reads past the table, and a negative cursor reads before it |
| `AsWritten.UnclampedCornersAgreeInRange` | src/plugin/PluginProcessor.cpp:81-92 | on in-range samples and cursors the unclamped indices are the ones the model reads |
| `AsWritten.UnclampedCornersCounterexamples` | src/plugin/PluginProcessor.cpp:81-92 | the sample -1.5 reads before the table, and 1.5 reads the wrong wave at cursor 0 and past the table at cursor 255; the clamped read stays in bounds |

## Left out

- Gain smoothing: the gain stage's class (`Gain.h`) is not part of this model. A gain stage is modelled in its settled state, as a multiply by its level.
- Processor.ApplyGain: states the settled gain only, which is weaker than a smoothed ramp toward the level. The ramp is defined in `Gain.h`, which is not part of this model.
- The sample rate, the block size and the output channel count passed to the gain stages at preparation are used only by `Gain.h`, so they are not parameters of the model.
- State persistence (`getStateInformation`, `setStateInformation`), editor creation and the plug-in factory are host and UI plumbing.
- Clearing the MIDI buffer and `ScopedNoDenormals` concern the host and the floating-point unit.
- Floating point is not modelled: `float`/`double` rounding, conversion and `fmod` on negative arguments. Samples are exact reals, and only non-negative coordinates are split.
- Real-time deadlines, allocation rules and the cross-thread parameter reads are not modelled.
- The square test wave is built, but the read does not use it; the read of it in the block pass is commented out.
- Parameters.Range.Clamp: does not snap to the range's `interval` or apply its `skew`. These belong to the framework's range type, and the block pass never relies on them.
- The empty per-parameter string tables (`PARAMETER_TO_STRING_ARRS`) are display data that nothing in the signal path reads.
- Audio buffers are sequences of channels with the same number of samples each; the framework's buffer type is otherwise not modelled.

## Findings

| source | as written | input that shows it | evidently intended | confidence | as-written member | corrected member |
|---|---|---|---|---|---|---|
| src/plugin/PluginProcessor.cpp:42 | `((M - 1) / j) * 2.0 - 1.0`, with integer division by the sample counter | `j = 0` divides by zero; `j = 1` gives 4093; `j = 1024` gives 1 where the ramp is about 0.0005 | `2j / (M - 1) - 1` | not executed | `AsWritten.RampSampleCounterexamples` | `Wavetable.FillRamps` |
| src/plugin/PluginProcessor.cpp:41 | the inner loop over `j` increments `i` | any start: `j` stays 0, so the loop never exits. As the code stands, the first pass already divides by zero at line 42 (previous row). With that expression corrected, `i * M + j` would pass the end of the table after 256 passes | increment `j` | not executed | `AsWritten.InnerLoopNeverExits` | `Wavetable.FillRamps` |
| src/plugin/PluginProcessor.cpp:43 | the ramp is written to channel 1 of the table buffer, which has one channel (line 39) | any store of the fill: channel 1 does not exist, and the lookup reads channel 0 | write channel 0 | not executed | `AsWritten.FillChannelCounterexample` | `Wavetable.FillRamps` |
| src/plugin/PluginProcessor.cpp:81-92 | position and cursor go to `floor`/`ceil` and into the flat index with no clamp | the sample -1.5 reads index -512; 1.5 at cursor 255 reads past the table | clamp the amplitude to [-1, 1] and the cursor to [0, 255] first | not executed | `AsWritten.UnclampedCornersCounterexamples` | `Waveshaper.TransformReadsInBounds` |
