# FastVox in Dafny

FastVox is a JUCE audio plug-in for vocals. The processor runs each stereo
block through two filter chains, one per channel. Each chain holds a low-cut
cascade of four biquad sections, a peak filter and a high-shelf filter.
After the chains, a compressor processes the block. Both channels are also
fed to two single-channel analyzer fifos. The source also holds an editor
component, `ResponseCurveComponent`. It keeps a chain of its own, brought up
to the same parameters, and draws that chain's response curve. It drains the
analyzer fifos into sliding windows that feed a spectrum display. It also
labels the grid and the rotary sliders. As written, `createEditor` returns
JUCE's generic editor, so the plug-in does not show this component; the
model describes the component as the code defines it.

This project models that core and proves what it promises:

- `Queues`: a bounded first-in-first-out queue on values.
- `Fifos`: the array-backed `Fifo<T>` class with its read and write cursors.
- `Accumulation`: how `pushNextSampleIntoFifo` cuts a sample stream into blocks.
- `SampleFifos`: the `SingleChannelSampleFifo` class.
- `Parameters`: `Slope`, `ChainSettings`, `getChainSettings` and the choice
  tables of `createParameterLayout`.
- `FilterChains`: `update<i>`, `updateCutFilter`, the low-cut order
  `2 * (slope + 1)`, and a chain's magnitude response.
- `Processor`: `isBusesLayoutSupported`, the three filter updates,
  `updateFilters`, `prepareToPlay` and the steps of `processBlock`.
- `Decimal`: whole-number and one-decimal rendering and reading.
- `PathProducers`: `PathProducer::process`, with its window shifted in place
  in an array.
- `Geometry`: the render and analysis areas, the grid and the gain scale.
- `Labels`: the grid labels and `getDisplayString`.
- `Editor`: the `ResponseCurveComponent` class, covering `updateChain`,
  `updateResponseCurve`, `parameterValueChanged` and `timerCallback`.

Objects that the source updates in place are Dafny classes whose methods
name what they modify:

- the fifos and analyzer fifos;
- the cut cascade and the mono chain;
- the processor, the path producer and the component.

Each such method is proved against a function on values. Those functions
carry the lemmas. The DSP the code calls into is passed in as function
parameters:

- the coefficient designers;
- `getMagnitudeForFrequency`;
- `mapToLog10` and `mapFromLog10`;
- `gainToDecibels`;
- the FFT data generator and the path generator;
- the compressor.

Samples and magnitudes are `real`.

Some behaviours of the code are easy to misread. The model follows the code
in each of these cases:

- The analyzer fifo pushes a full block lazily, when the next sample
  arrives. So 3000 samples in blocks of 512 leave 5 blocks pushed and 440
  samples waiting (`Accumulation.ThreeThousandSamples`), not 408.
- The compressor ratio is read with `getFloatValue` from the choice name,
  with no fallback value, and the low-cut frequency is not clamped.
  Coefficient design is a parameter, so neither can change anything here.
- `leftChannelFifo` is built with `Channel::Left`, which is channel 1. That
  is the channel `rightChain` filters. The model keeps this mapping.
- The processor's constructor and `processBlock`
  (Source/PluginProcessor.cpp:25-34, 207-210) assign and read members named
  `attack`, `release`, `threshold`, `ratio` and `compressorBypassed`. The
  header (Source/PluginProcessor.h:369-373) declares them as `compAttack`,
  `compRelease`, `compThreshold`, `compRatio` and `compBypassed`, so the
  files as they stand do not compile together. The model follows the
  parameter IDs the .cpp looks up ("Attack", "Release", "Threshold",
  "Ratio", "Compressor Bypassed") in `Processor.CompressorSettingsOf`.
- `createEditor` (Source/PluginProcessor.cpp:225-229) returns a
  `juce::GenericAudioProcessorEditor`; the custom editor is commented out.
  The `Editor` module models `ResponseCurveComponent` as the editor source
  defines it, not as something the built plug-in shows.

## Model

| member | source | states |
|---|---|---|
| Queues.PushThenPull | Source/PluginProcessor.h:122-144 | an item pushed onto an empty fifo is the item the next pull returns, and the fifo is empty again |
| Queues.PushWhenFull | Source/PluginProcessor.h:122-132 | a push on a full fifo reports failure and leaves the queue unchanged |
| Queues.PullWhenEmpty | Source/PluginProcessor.h:134-144 | a pull on an empty fifo reports failure and leaves the caller's buffer untouched |
| Queues.CountsMoveByOne | Source/PluginProcessor.h:122-149 | a push succeeds exactly when there is room and adds one item; a pull succeeds exactly when an item is queued and removes one |
| Queues.PushEachAdmitsPrefix | Source/PluginProcessor.h:122-132 | pushing a run of items keeps the old queue in front and admits as many new items as there is room for, in order |
| Queues.DrainInOrder | Source/PluginProcessor.h:134-144 | pulling until a pull fails yields the queued items oldest first |
| Queues.FirstInFirstOut | Source/PluginProcessor.h:122-149 | what is pulled after a run of pushes onto an empty fifo is the prefix of the run that fitted, in push order |
| Fifos.Fifo.constructor | Source/PluginProcessor.h:151-153 | a new fifo of the given capacity is valid and empty |
| Fifos.Fifo.NumAvailableForReading | Source/PluginProcessor.h:146-149 | the count returned is the number of queued items |
| Fifos.Fifo.Prepare | Source/PluginProcessor.h:96-109 | every slot is cleared, the cursors and the item count stay, and every queued item becomes the blank block |
| Fifos.Fifo.Push | Source/PluginProcessor.h:122-132 | the outcome and the new contents are those of `Queues.Push` with room for capacity - 1 items; a failed push changes no slot |
| Fifos.Fifo.Pull | Source/PluginProcessor.h:134-144 | the outcome, the item and the new contents are those of `Queues.Pull` |
| Accumulation.Feed | Source/PluginProcessor.h:210-223 | after any samples the block keeps its size, the index stays within it, and after at least one sample the index is at least 1 |
| Accumulation.FeedShape | Source/PluginProcessor.h:210-223 | after the samples `w`, the offered blocks are consecutive slices of `n` samples of `w`, and the block being filled holds the samples after them |
| Accumulation.WriteStepShape | Source/PluginProcessor.h:221-222 | a sample written into a block that is not full keeps that shape |
| Accumulation.PushStepShape | Source/PluginProcessor.h:212-222 | pushing a full block and restarting at index 0 keeps that shape |
| Accumulation.FeedCounts | Source/PluginProcessor.h:210-223 | after m >= 1 samples, (m - 1) / n blocks were offered and the index is m - ((m - 1) / n) * n, between 1 and n |
| Accumulation.ThreeThousandSamples | Source/PluginProcessor.h:210-223 | 3000 samples in blocks of 512 give 5 pushes and leave 440 samples in the block |
| Accumulation.PushedBlockIsRecent | Source/PluginProcessor.h:212-219 | a sample causes a push exactly when the block is full, and the block pushed is the n most recent samples in order |
| SampleFifos.SingleChannelSampleFifo.constructor | Source/PluginProcessor.h:165-168 | a new analyzer fifo reads the given channel, is not prepared, and holds an empty fifo of 30 slots |
| SampleFifos.SingleChannelSampleFifo.Prepare | Source/PluginProcessor.h:182-195 | the fifo is prepared with a block of the requested size, index 0 and no history; the queued count stays and every queued block is cleared |
| SampleFifos.SingleChannelSampleFifo.NumCompleteBuffersAvailable | Source/PluginProcessor.h:197 | the number of complete blocks queued |
| SampleFifos.SingleChannelSampleFifo.GetAudioBuffer | Source/PluginProcessor.h:201 | one pull from the block fifo, with `Queues.Pull`'s outcome |
| SampleFifos.SingleChannelSampleFifo.PushNextSampleIntoFifo | Source/PluginProcessor.h:210-223 | the sample is appended to the history; the blocks offered in this call are pushed onto the fifo as `Queues.PushEach` pushes them; the state stays in the shape `Accumulation.Feed` gives |
| SampleFifos.SingleChannelSampleFifo.Update | Source/PluginProcessor.h:170-180 | every sample of the chosen channel is taken in, in order, and the fifo holds what pushing every newly offered block gives |
| SampleFifos.PushEachSplit | Source/PluginProcessor.h:176-179 | pushing `xs` then one more block equals pushing `xs` followed by that block |
| Parameters.SlopeOf | Source/PluginProcessor.cpp:261 | the slope cast from choice index i has ordinal i |
| Parameters.GetChainSettings | Source/PluginProcessor.cpp:254-274 | each bypass flag is set exactly when its raw value exceeds 0.5, and the slope's ordinal is the raw slope value |
| Parameters.StoredValuesReadBack | Source/PluginProcessor.cpp:254-274 | the bools and slope index a host stores read back as the same flags and slope |
| Parameters.SettingsIgnoreOtherParameters | Source/PluginProcessor.cpp:254-274 | changing a parameter that `getChainSettings` does not read leaves the snapshot unchanged |
| Parameters.RatioChoiceNames | Source/PluginProcessor.cpp:399-404 | the loop yields 14 names, and name i reads back as ratio i of the table |
| Parameters.SlopeLabelReadsBack | Source/PluginProcessor.cpp:407-414 | slope name i states 12 + 12 * i dB per octave |
| Parameters.SlopeChoiceNames | Source/PluginProcessor.cpp:407-414 | the loop yields 4 names, and name i states 12 + 12 * i dB per octave |
| Parameters.CreateParameterLayout | Source/PluginProcessor.cpp:343-426 | the layout has 17 parameters: "Ratio" is choice 10 with default index 3 and the 14 ratio names; "LowCut Slope" is choice 11 with default 0 and the 4 slope names |
| Decimal.NatRoundTrip | Source/PluginProcessor.cpp:411 | a whole number written in decimal reads back as itself |
| Decimal.OneDecimalRoundTrip | Source/PluginProcessor.cpp:403 | a value written with one decimal place reads back as the same number of tenths |
| Decimal.IntRoundTrip | Source/PluginEditor.cpp:488 | a signed whole number written with a leading minus when negative reads back as itself |
| FilterChains.BypassAll | Source/PluginProcessor.h:278-281 | every cut stage ends up bypassed, with its coefficients kept |
| FilterChains.FallThrough | Source/PluginProcessor.h:283-301 | entering the switch at case s activates stages 0..s with coefficients 0..s and leaves the others as they were |
| FilterChains.CutUpdatedStages | Source/PluginProcessor.h:273-302 | after `updateCutFilter` with slope s, stages 0..s are active with coefficients 0..s; later stages are bypassed and keep their coefficients |
| FilterChains.ActiveStagesMatchOrder | Source/PluginProcessor.h:304-309 | slope s activates s + 1 second-order stages, twice which is the order `makeLowCutFilter` asks for |
| FilterChains.CutUpdatedIdempotent | Source/PluginProcessor.h:273-302 | running `updateCutFilter` twice with the same input leaves what running it once leaves |
| FilterChains.ApplySettingsAligns | Source/PluginProcessor.cpp:319-341 | whatever two chains held before, one settings snapshot leaves them filtering alike |
| FilterChains.ApplySettingsIdempotent | Source/PluginProcessor.cpp:334-341 | applying the same snapshot a second time changes nothing |
| FilterChains.ProductOfAppend | Source/PluginEditor.cpp:273-292 | the magnitude product over two runs of sections is the product of the two products |
| FilterChains.GateAllIsProduct | Source/PluginEditor.cpp:273-292 | multiplying stage by stage, skipping bypassed stages, is the product over the active sections |
| FilterChains.GateAllAppend | Source/PluginEditor.cpp:273-292 | gating a concatenation is gating the first part, then the second |
| FilterChains.ResponseVisitsPositions | Source/PluginEditor.cpp:273-292 | the curve's magnitude gates peak, shelf, then the four cut stages when the cascade is active |
| FilterChains.ResponseIsProductOfActiveSections | Source/PluginEditor.cpp:273-292 | the magnitude at a frequency is the product of the magnitudes of exactly the sections a signal passes through |
| FilterChains.AlikeChainsRespondAlike | Source/PluginEditor.cpp:273-292 | chains that filter alike have the same magnitude at every frequency |
| FilterChains.CutFilter.constructor | Source/PluginProcessor.h:249 | a new cascade holds four active stages with the initial coefficients |
| FilterChains.Update | Source/PluginProcessor.h:266-271 | `update<i>` copies coefficients i into stage i and un-bypasses it; nothing else changes |
| FilterChains.UpdateCutFilter | Source/PluginProcessor.h:273-302 | the cascade becomes `CutUpdated` of the old stages: all bypassed, then the switch falls through from the slope down to 0 |
| FilterChains.MonoChain.constructor | Source/PluginProcessor.h:251 | a new chain holds default filters, none bypassed |
| Processor.IsBusesLayoutSupported | Source/PluginProcessor.cpp:141-163 | a MIDI effect accepts any layout; a synth needs a stereo output; otherwise the input and the output must both be stereo |
| Processor.DeclaredLayoutSupported | Source/PluginProcessor.cpp:13-22 | the buses the constructor declares are supported, and for an effect they are the only supported layout |
| Processor.FloatValue | Source/PluginProcessor.cpp:210 | `getFloatValue` of a one-decimal name gives the number the name states |
| Processor.CompressorSettingsOf | Source/PluginProcessor.cpp:207-210 | attack, release and threshold are the raw parameter values, and the ratio is the table entry the choice index selects |
| Processor.RatioWithinTable | Source/PluginProcessor.cpp:399-405 | every ratio the compressor can be given lies between 1 and 50 |
| Processor.CompressorBypassIgnored | Source/PluginProcessor.cpp:207-214 | the compressor bypass parameter changes neither the compressor's settings nor the chain settings |
| Processor.Cleared | Source/PluginProcessor.cpp:178-179 | the clearing loop keeps the number of channels |
| Processor.ClearExtraOutputChannels | Source/PluginProcessor.cpp:178-179 | the buffer's channels become `Cleared`, in place |
| Processor.ClearingKeepsInputs | Source/PluginProcessor.cpp:178-179 | every channel keeps its length; input channels and channels at or past the output count keep their samples; every sample of the others is 0 |
| Processor.Filtered | Source/PluginProcessor.cpp:195-202 | filtering keeps the number of channels |
| Processor.UpdateLowCutFilters | Source/PluginProcessor.cpp:319-330 | both chains get the LowCut flag and `CutUpdated` cascades; nothing else in them changes |
| Processor.UpdatePeakFilter | Source/PluginProcessor.cpp:292-301 | both chains' peak becomes the flag and the coefficients of the snapshot; nothing else changes |
| Processor.UpdateHighShelfFilters | Source/PluginProcessor.cpp:303-312 | both chains' shelf becomes the flag and the coefficients of the snapshot; nothing else changes |
| Processor.UpdateChains | Source/PluginProcessor.cpp:338-340 | the three updates in order leave each chain at `ApplySettings` of its old state |
| Processor.NewChains | Source/PluginProcessor.h:388 | two newly allocated chains that share no object, each holding the default chain: every position active with the initial coefficients |
| Processor.NewAnalyzerFifos | Source/PluginProcessor.h:359-360 | the left analyzer fifo reads channel 1 and the right one channel 0; they share no object, neither is prepared, and each starts at index 0 with an empty block queue |
| Processor.UpdateAnalyzers | Source/PluginProcessor.cpp:204-205 | the left fifo takes in channel 1 and the right fifo channel 0, and each fifo's queue is the old queue with the newly offered blocks pushed in order |
| Processor.AudioProcessor.constructor | Source/PluginProcessor.cpp:13-35 | the processor holds the given parameters and compressor settings, two separate valid chains, each the default chain, and two separate analyzer fifos, neither prepared, each at index 0 with an empty block queue, all of them newly allocated |
| Processor.AudioProcessor.UpdateFilters | Source/PluginProcessor.cpp:334-341 | each chain is at `ApplySettings` of its old state and the current snapshot, and the two chains filter alike |
| Processor.AudioProcessor.PrepareToPlay | Source/PluginProcessor.cpp:104-132 | the chains are brought up to the parameters, then both analyzer fifos are prepared for the block size with no history, each keeping its queued count with every queued block cleared |
| Processor.AudioProcessor.PrepareAnalyzers | Source/PluginProcessor.cpp:121-122 | both analyzer fifos are prepared for the block size with no history, each keeping its queued count with every queued block cleared, and the chains are unchanged |
| Processor.AudioProcessor.FeedAnalyzers | Source/PluginProcessor.cpp:204-205 | the left fifo's history grows by channel 1 and the right's by channel 0, each fifo's queue gets the newly offered blocks pushed in order, and the chains are unchanged |
| Processor.AudioProcessor.ProcessBlock | Source/PluginProcessor.cpp:166-217 | outputs without an input are cleared; the chains are brought up to the parameters; channel 0 runs through the left chain and channel 1 through the right; the analyzers see the filtered channels, and each analyzer queue gets the newly offered blocks pushed in order; the compressor, set from the parameters, yields the final buffer |
| Processor.AudioProcessor.FilterBlock | Source/PluginProcessor.cpp:178-202 | the first half of `processBlock`: clear, update both chains, filter; the analyzer fifos are untouched |
| Processor.AudioProcessor.AnalyzeAndCompress | Source/PluginProcessor.cpp:204-214 | the second half: the analyzers take in the filtered channels and queue the newly offered blocks in order, then the compressor is set and run |
| Processor.AudioProcessor.FilterChannels | Source/PluginProcessor.cpp:195-202 | channel 0 is processed by the left chain and channel 1 by the right chain |
| Processor.AudioProcessor.Compress | Source/PluginProcessor.cpp:207-214 | the compressor's settings come from the parameters, and it processes the whole buffer |
| PathProducers.Slide | Source/PluginEditor.cpp:532-540 | after a block arrives the window keeps its length; its front holds the old samples shifted by the block's size and its tail holds the block |
| PathProducers.SlideAll | Source/PluginEditor.cpp:528-544 | sliding every block in keeps the window's length |
| PathProducers.WindowIsMostRecent | Source/PluginEditor.cpp:528-544 | after any number of blocks the window holds the most recent samples of the old window followed by the blocks |
| PathProducers.Renderings | Source/PluginEditor.cpp:542 | one FFT block is handed on per block taken in |
| PathProducers.RenderingsAreWindows | Source/PluginEditor.cpp:528-544 | the k-th FFT block handed on is the FFT of the window after the first k + 1 blocks |
| PathProducers.ShiftIn | Source/PluginEditor.cpp:532-540 | the in-place shift, done as a forward copy lowest index first, then the tail copy, leave the array holding `Slide` of its old contents |
| PathProducers.ProcessedShowsLatest | Source/PluginEditor.cpp:525-562 | after `process` the window holds the latest samples; if any block arrived, the drawn path comes from the FFT of that window; with nothing pending or ready, nothing changes |
| PathProducers.PathProducer.constructor | Source/PluginEditor.cpp:229-232 | a producer reads the given analyzer fifo through a window that starts as the given samples, with nothing ready and an empty path |
| PathProducers.PathProducer.TakeBlock | Source/PluginEditor.cpp:530-543 | the oldest block is pulled, slid into the window, and the new window's FFT is queued |
| PathProducers.PathProducer.DrainFifo | Source/PluginEditor.cpp:528-544 | the fifo ends empty, the window is `SlideAll` of every queued block, and one FFT block per block was queued |
| PathProducers.PathProducer.GeneratePaths | Source/PluginEditor.cpp:549-556 | every ready FFT block becomes a path, in order |
| PathProducers.PathProducer.TakeNewestPath | Source/PluginEditor.cpp:558-561 | all paths are pulled and the drawn path is the newest, or stays as it was if none was ready |
| PathProducers.PathProducer.Process | Source/PluginEditor.cpp:525-562 | the producer's state becomes `Processed` of the old state |
| PathProducers.Generated | Source/PluginEditor.cpp:549-556 | one path per FFT block, in order |
| PathProducers.NewestPathIsLatestWindow | Source/PluginEditor.cpp:542-561 | when a block arrived, the drawn path is the one made from the FFT of the last window |
| Labels.FrequencyLabelReadsBack | Source/PluginEditor.cpp:452-466 | a label ends in "Hz" and has a "k" exactly from 1000 Hz up; its digits times the unit give the frequency |
| Labels.FrequencyLabelInjective | Source/PluginEditor.cpp:455-466 | two frequencies never share a label |
| Labels.GridFrequencyLabelsDistinct | Source/PluginEditor.cpp:447-477 | every grid frequency can be labelled and no two grid lines get the same label |
| Labels.GainLabelsReadBack | Source/PluginEditor.cpp:485-502 | the right label starts with "+" exactly for positive gains and reads back as the gain; the left label reads back as the gain less 24 |
| Labels.DisplayStringShape | Source/PluginEditor.cpp:192-227 | a choice shows its name; otherwise a non-empty suffix ends the text after a space, with a "k" before it exactly when the value is over 999, and the value is written by the formatter with the decimals argument 2 in thousands and 0 otherwise |
| Geometry.Rect.RemoveFromTop | Source/PluginEditor.cpp:614 | the remainder lies within the rectangle and loses at most its whole height at the top |
| Geometry.Rect.RemoveFromBottom | Source/PluginEditor.cpp:615 | the remainder lies within the rectangle and loses at most its whole height at the bottom |
| Geometry.Rect.RemoveFromLeft | Source/PluginEditor.cpp:616 | the remainder lies within the rectangle and loses at most its whole width at the left |
| Geometry.Rect.RemoveFromRight | Source/PluginEditor.cpp:617 | the remainder lies within the rectangle and loses at most its whole width at the right |
| Geometry.AreasNest | Source/PluginEditor.cpp:610-629 | the analysis area lies within the render area, and both within the component, at any size |
| Geometry.AreaInsets | Source/PluginEditor.cpp:610-629 | on a component at least 40 by 22 pixels the insets are exact: 20 at the sides, 12 and 2 (render) or 16 and 6 (analysis) at top and bottom |
| Geometry.AnalysisWidthVanishes | Source/PluginEditor.cpp:610-629 | the analysis area has no columns exactly when the component is at most 40 pixels wide |
| Geometry.GetFrequencies | Source/PluginEditor.cpp:371-380 | ten grid frequencies, strictly ascending from 20 Hz to 20 kHz, each below 1000 or a whole number of kilohertz |
| Geometry.GetGains | Source/PluginEditor.cpp:382-388 | five grid gains, strictly ascending from -24 to +24 dB and symmetric about 0 |
| Geometry.DbToYScale | Source/PluginEditor.cpp:426 | -24 dB maps to the bottom, +24 dB to the top and 0 dB halfway; a larger gain is drawn higher |
| Geometry.DbToYWithin | Source/PluginEditor.cpp:483 | a gain within ±24 dB is drawn between the top and the bottom |
| Geometry.GetXs | Source/PluginEditor.cpp:390-400 | one x per frequency, `left + width * norm(f)`, in order |
| Geometry.GridLinesAscend | Source/PluginEditor.cpp:402-420 | on a log scale the grid lines run left to right in frequency order, from the left edge to the right edge |
| Editor.ResponseCurve | Source/PluginEditor.cpp:309-323 | one point per column of the area, column i at x = left + i |
| Editor.CurveIsProductOfActiveSections | Source/PluginEditor.cpp:271-318 | each point's height is the dB scale applied to the product of the magnitudes of the active sections |
| Editor.BypassedChainDrawsMidline | Source/PluginEditor.cpp:273-316 | with every position bypassed the curve is the 0 dB line, halfway up the area |
| Editor.CurveStaysInArea | Source/PluginEditor.cpp:311-322 | a point whose gain is within ±24 dB is drawn inside the area |
| Editor.EditorCurveMatchesProcessor | Source/PluginEditor.cpp:584-608 | the editor's chain and a processor chain, brought up to the same snapshot, draw the same curve whatever they held before |
| Editor.MultiplyIn | Source/PluginEditor.cpp:276-277 | the magnitude is multiplied in only when the position is not bypassed |
| Editor.CurveThrough | Source/PluginEditor.cpp:309-323 | the path built from the gains is `ResponseCurve` of the chain |
| Editor.NewProducers | Source/PluginEditor.cpp:229-232 | two new path producers over the left and right analyzer fifos, sharing no object, each window starting as the given samples |
| Editor.ProcessBoth | Source/PluginEditor.cpp:571-572 | each producer's state becomes `Processed` of its own old state, and the two stay apart |
| Editor.AnalyzersProcessed | Source/PluginEditor.cpp:566-573 | only the two producers change |
| Editor.TickOutcome | Source/PluginEditor.cpp:564-582 | after a tick the flag is clear. After a change, the chain is at the current snapshot and the curve is redrawn from it; otherwise both are kept. With the analysis shown, each window holds the latest samples and a new path comes from it; otherwise the producers are kept. The parameters, bounds and switch are untouched |
| Editor.ResponseCurveComponent.constructor | Source/PluginEditor.cpp:229-243 | the component's chain starts from default filters and is brought up to the processor's parameters; the producers read the processor's left and right analyzer fifos through windows that start as the given samples; the chain, its cascade and the two producers are newly allocated, so they are never the processor's objects |
| Editor.ResponseCurveComponent.ParameterValueChanged | Source/PluginEditor.cpp:520-523 | the changed flag is set |
| Editor.ResponseCurveComponent.CompareAndSetChanged | Source/PluginEditor.cpp:575 | reports whether the flag was set and leaves it clear, changing nothing else |
| Editor.UpdateMonoChain | Source/PluginEditor.cpp:588-602 | setting the flags, the peak and shelf coefficients, then the cut cascade leaves the chain at `ApplySettings` of its old state and the given snapshot |
| Editor.ResponseCurveComponent.UpdateChain | Source/PluginEditor.cpp:584-608 | the chain becomes `ApplySettings` of its old state and the current snapshot |
| Editor.ResponseCurveComponent.ColumnMagnitude | Source/PluginEditor.cpp:273-292 | the magnitude computed for one column is the chain's response at that frequency |
| Editor.ResponseCurveComponent.Magnitudes | Source/PluginEditor.cpp:267-307 | entry i is the chain's gain in dB at column i's frequency |
| Editor.ResponseCurveComponent.UpdateResponseCurve | Source/PluginEditor.cpp:254-324 | the curve becomes `ResponseCurve` of the chain over the analysis area |
| Editor.ResponseCurveComponent.Resized | Source/PluginEditor.cpp:512-518 | after a resize the curve is redrawn for the new bounds |
| Editor.ResponseCurveComponent.Refresh | Source/PluginEditor.cpp:577-578 | the chain and the curve become `ChainRefreshed` of the old view; nothing else changes |
| Editor.ResponseCurveComponent.ProcessAnalyzers | Source/PluginEditor.cpp:566-573 | the view becomes `AnalyzersProcessed` of the old view |
| Editor.ResponseCurveComponent.RefreshIfChanged | Source/PluginEditor.cpp:575-579 | the view becomes `ChangesRefreshed` of the old view |
| Editor.ResponseCurveComponent.TimerCallback | Source/PluginEditor.cpp:564-582 | the view becomes `Tick` of the old view, whose meaning `Editor.TickOutcome` states |

## Left out

- The DSP itself is not modelled: IIR filtering, coefficient design, the
  compressor, the oscillator, the FFT and path generation. These are
  function parameters; only the order of the low-cut design is pinned down
  (`Processor.Butterworth`).
- `mapToLog10`, `mapFromLog10`, `gainToDecibels` and
  `getMagnitudeForFrequency` are function parameters. `LogScale` states the
  only property of `mapFromLog10` the grid lemmas use.
- Floating point is modelled as `real`. Float rounding, and the int/float
  conversions of pixel coordinates, are not modelled.
- The FFT data generator and the path generator are modelled as unbounded
  queues. Their own capacity limits are in a header that is not part of
  this model.
- PluginEditor.h is not part of this model. So the window's size and
  starting samples, the default of `shouldShowFFTAnalysis` and the editor's
  size are parameters.
- Labels.FrequencyLabel: defined only for frequencies below 1000 Hz or whole
  kilohertz, since only such frequencies are on the grid.
- Labels.DisplayString: number formatting (`juce::String(value, decimals)`)
  is a parameter, so the digits of a slider's value are not modelled. A
  decimals argument of 0 is JUCE's default float format, not "no decimals",
  so a gain of 1.5 shows as "1.5".
- Labels.FrequencyLabel and Labels.GainLabel: the grid values are floats streamed into a `juce::String`; the model writes them as whole numbers, and JUCE's float formatting is not modelled.
- Processor.FloatValue: `getFloatValue` is modelled only on the one-decimal
  strings the ratio choices produce.
- Painting is not modelled: `paint`, the grid, the border, text widths and
  fonts, `repaint`, `startTimerHz`, and the slider look-and-feel.
- Listener registration and removal are not modelled.
- Threading and atomics are not modelled: the audio and message threads are
  not interleaved, and `Atomic` values are plain fields.
- `getStateInformation` and `setStateInformation` are not modelled.
- Processor.AudioProcessor.constructor: takes the parameter values as
  given. They stand for the layout's defaults (`Parameters.CreateParameterLayout`)
  or whatever the host has restored; the model does not tie them to the
  defaults.
- `updateCoefficients` copies into the object a coefficient pointer
  refers to, and never re-points it. The model holds coefficients by value,
  which is equivalent here; pointer sharing is not modelled.
- Editor.ResponseCurveComponent.UpdateResponseCurve,
  Editor.ResponseCurveComponent.Resized, Editor.ResponseCurveComponent.Refresh,
  Editor.ResponseCurveComponent.RefreshIfChanged and
  Editor.ResponseCurveComponent.TimerCallback: require an analysis area at
  least one pixel wide. The code reads `mags.front()` of an empty
  vector on a component 40 pixels wide or less (`Geometry.AnalysisWidthVanishes`).
- SampleFifos.SingleChannelSampleFifo.Update: the block counts are not in
  its contract; they are stated on values by `Accumulation.FeedCounts`.
- The `jassert`s are preconditions: the fifo must be prepared, and the
  buffer must have the channel being read.
- PathProducers.PathProducer.TakeBlock, PathProducers.PathProducer.DrainFifo,
  PathProducers.PathProducer.Process, Editor.ProcessBoth,
  Editor.ResponseCurveComponent.ProcessAnalyzers and
  Editor.ResponseCurveComponent.TimerCallback require `Fits`: no queued block
  is longer than the window. The code does not check this; a longer block
  would make the shift length `getNumSamples() - size` negative, which the
  model does not describe.
- SampleFifos.SingleChannelSampleFifo.PushNextSampleIntoFifo,
  SampleFifos.SingleChannelSampleFifo.Update, Processor.UpdateAnalyzers,
  Processor.AudioProcessor.FeedAnalyzers, Processor.AudioProcessor.AnalyzeAndCompress
  and Processor.AudioProcessor.ProcessBlock require a block size of at least
  one sample (for `Update`, when its channel is not empty). After
  `prepare(0)` the code writes sample 0 into an empty block, which the model
  does not describe.
- PathProducers.ShiftIn: the first copy moves `monoBuffer[size..N)` onto
  `monoBuffer[0..N-size)` with `FloatVectorOperations::copy`, and the two
  ranges overlap when the block is shorter than half the window. The model
  copies lowest index first, as `memmove` does. If JUCE's copy does not
  promise that for overlapping ranges (it is not part of this model), the
  window the code leaves can differ from `Slide`.
- SampleFifos.SingleChannelSampleFifo.Prepare: allocates a zeroed block on
  every call. `setSize` with an unchanged size keeps the old samples in the
  code. No sample of the block is read before it has been overwritten, so
  no output differs.
- Filter and compressor state between blocks is not modelled: `process` and
  `compress` are functions of one block, so the state the chains and the
  compressor carry from block to block, and its reset by
  `leftChain.prepare`, `rightChain.prepare` and `compressor.prepare`
  (Source/PluginProcessor.cpp:117-131), are not in `PrepareToPlay` or
  `ProcessBlock`.
