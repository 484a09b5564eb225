# Asynchronous sweeps in QCoDeS: a Dafny model

This project models the part of a QCoDeS fork that handles "asynchronous" (buffered)
instrument control. In this mode the computer hands the timing of a sweep to the
instruments. It also models the drivers that take part in it.

- **Sync points** (`qcodes/instrument/sync.py`, module `SyncPoints`, file `sync.dfy`):
  - An `ExplicitSync` holds begin times and lengths. A `RepeatedSync` repeats an inner
    sync a number of times.
  - Both describe their points periodically (`as_periodic`) or explicitly
    (`as_explicit`).
  - Instruments register commands on a sync (`add_command`). A repetition compiles its
    own commands together with the repeated commands of the inner sync
    (`_compile_commands`). `execute` hands one command to each instrument.
  - Sync nodes form a class tree whose registries grow in place.
- **Fixed sweep values** (`qcodes/instrument/sweep_values.py`, module `SweepValues`):
  - `SweepFixedValues` keeps a list of values and a list of snapshot entries that
    summarise runs of them (linear, sequence or single item).
  - It is a class whose `append`, `extend`, `reverse` and `repeat` change both lists in
    place.
  - The invariant kept throughout is that the entries, in order, truly describe
    consecutive runs of the values.
- **qupulse instruments** (`qcodes/instrument_drivers/qupulse/qupulse_instrument.py`):
  - The AWG wrapper (module `QuPulseAwg`):
    - a loop registry per layer;
    - the "send when every layer asked" and "run when every layer asked" protocols;
    - the channel map;
    - the grouping of measurement windows by name (`_calc_measurement_windows`).
  - The DAC wrapper (module `QuPulseDac`):
    - the measurement masks and the configuration of channel parameters;
    - arming once every configured parameter is ready;
    - the buffered read, which refills the data on the first read and hands out values
      one at a time.
- **Decadac** (`FZJ_Decadac.py`, module `Decadac`):
  - voltage to 16-bit code conversion and back;
  - switch positions and their ranges;
  - the buffered ramp (slope, limits, measurement windows);
  - slot and channel selection before a write;
  - the check of each reply.
- **Smaller drivers**:
  - ANC350 (`Anc350`): the direction argument and the target-position mode.
  - AMC100 library (`Amc100`): `checkError`, the error codes and their messages.
  - Rigol DP8xx (`RigolDP8xx`): installed options, the choice of OVP/OCP ranges, channel
    construction, validator bounds.
  - PI E-871 (`PiE871`): device listing, the closed-loop guard, `ref`.

Modelling conventions:

- Time values of the sync are integers. Other Python floats are Dafny `real`s.
- A raised exception is a `Failure` of a `Result` (or `None` of an `Option`) that names
  the exception.
- Calls into instruments and libraries that are not part of this model are parameters:
  - device replies are a function from command to answer;
  - the DAC measurement results are a function of the parameter names;
  - `permissive_range` is a function of start, stop and step;
  - the measurement windows of each built program are an input.
- Calls made to instruments are recorded as counters or call lists.
- A Python dict is a Dafny `map`. Where the order of its keys matters, a sequence of keys
  is kept beside it.

The sync code is read as follows where it does not run as written:

- sync.py:107-116: the commands of a node are compiled as `first.parallel(*rest)` per
  instrument. The abstract `_compile_commands` of a leaf and the list values of
  `_commands` do not support `.parallel` or `.items()` directly.
- sync.py:119: `RepeatedSync.duration` is the inner duration times the count. This is
  listed under Findings.

In `set_channel` and `_set_measurement` of the qupulse wrappers, adding a single channel
or mask to an identifier that already holds one always raises ValueError. The merged
candidate overlaps the identifier's own old set at line 224 or line 673. The model
states this outcome, which is the code's behaviour, rather than the merge the
deprecation message suggests.

## Model

| member | source | states |
|---|---|---|
| Util.RepeatSeq | qcodes/instrument/sweep_values.py:256-257 | `list * n` for n ≥ 0 has n times the elements |
| Util.RepeatSeqAt | qcodes/instrument/sweep_values.py:256-257 | copy k of `list * n` holds the list unchanged, element by element |
| Util.Reversed | qcodes/instrument/sweep_values.py:247-248 | `list.reverse()` puts element i at position len-1-i |
| Util.ReversedTwice | qcodes/instrument/sweep_values.py:245-252 | reversing twice restores the list |
| Util.Without | qcodes/instrument_drivers/rigol/private/DP8xx.py:183 | the comprehension keeps exactly the elements different from the excluded one, in order |
| Util.WithoutCounts | qcodes/instrument_drivers/rigol/private/DP8xx.py:183 | the comprehension keeps every other element exactly as often as it occurs and no occurrence of the excluded one |
| Util.WithoutConcat | qcodes/instrument_drivers/rigol/private/DP8xx.py:183 | filtering a concatenation is the concatenation of the filtered parts, so the kept elements stay in order |
| Util.NatToString | qcodes/instrument_drivers/Harvard/FZJ_Decadac.py:75-76 | `str(n)` is a non-empty digit string without a leading zero |
| Util.NatToStringRoundTrip | qcodes/instrument_drivers/Harvard/FZJ_Decadac.py:75-76 | reading back the digits `format` writes gives the number |
| Util.NatToStringInjective | qcodes/instrument_drivers/rigol/private/DP8xx.py:166 | different numbers give different names |
| Util.IndexOf | qcodes/instrument_drivers/attocube/ANC350.py:86 | `str.index` finds the first occurrence, and finds none exactly when the character is absent |
| Util.IndexOfFirst | qcodes/instrument_drivers/attocube/ANC350.py:86 | the first position holding the character is what `index` returns |
| SyncPoints.StepsGiveOrder | qcodes/instrument/sync.py:77 | non-negative differences of neighbours make the begins ordered |
| SyncPoints.Shift | qcodes/instrument/sync.py:132 | adding an offset shifts every begin by it |
| SyncPoints.TileAt | qcodes/instrument/sync.py:130-132 | in the tiling, point j of copy k is begin j plus k offsets |
| SyncPoints.Timing.Duration | qcodes/instrument/sync.py:118-119 | defines `duration()`: the stored duration of an explicit sync (lines 88-89), and for a repetition the inner duration times the count, the corrected reading of line 119 |
| SyncPoints.Timing.AsExplicit | qcodes/instrument/sync.py:127-134 | defines `as_explicit()`: the stored arrays of an explicit sync (lines 97-98), and for a repetition the inner points tiled count times, tile k shifted by k inner durations, with the inner lengths repeated tile by tile (the corrected reading of lines 130-133) |
| SyncPoints.Timing.NumSyncPoints | qcodes/instrument/sync.py:136-137 | `num_sync_points()` equals the number of points of `as_explicit()`; a leaf counts its own points (the corrected form, see Findings) |
| SyncPoints.NumSyncPointsAlwaysRaises | qcodes/instrument/sync.py:67-68 | as written, `num_sync_points()` raises for a leaf and therefore for every repetition |
| SyncPoints.NumSyncPointsAsWritten | qcodes/instrument/sync.py:136-137 | defines `num_sync_points()` as written, `None` standing for the raise: an explicit sync inherits the raising base method of lines 67-68, and a repetition multiplies the count by the inner answer |
| SyncPoints.Timing.AsPeriodic | qcodes/instrument/sync.py:91-95 | a periodic description counts as many points as the sync has |
| SyncPoints.ExplicitShape | qcodes/instrument/sync.py:127-134 | the explicit form of a valid sync pairs every begin with a non-negative length |
| SyncPoints.Expand | qcodes/instrument/sync.py:30-33 | a periodic description stands for `count` points, point k at begin + k·period, all of the same length |
| SyncPoints.NewExplicit | qcodes/instrument/sync.py:76-86 | the constructor succeeds exactly when the begins are ordered, the lengths non-negative, the sizes equal and a duration exists; it defaults to the end of the last point |
| SyncPoints.CreateExplicitSync | qcodes/instrument/sync.py:76-86 | an object is made exactly when the constructor's checks pass, a leaf holding the given points |
| SyncPoints.ExplicitPeriodic | qcodes/instrument/sync.py:91-95 | one point is periodic with period = duration and count 1; any other number of points is not periodic |
| SyncPoints.RepetitionScales | qcodes/instrument/sync.py:136-137 | repetition multiplies the number of points and the duration by the count, and nested repetitions multiply the counts |
| SyncPoints.RepeatedPeriodic | qcodes/instrument/sync.py:121-125 | a repetition is periodic exactly when its inner sync is, with the same period, begin and length and count times as many points |
| SyncPoints.RepeatedExplicitAt | qcodes/instrument/sync.py:127-134 | point j of tile k of a repetition begins at inner begin j plus k inner durations and has inner length j |
| SyncPoints.PeriodicAgreesWithExplicit | qcodes/instrument/sync.py:56-62 | whenever `as_periodic` answers, its expansion is `as_explicit` and the duration is count × period |
| SyncPoints.RepeatedAgrees | qcodes/instrument/sync.py:121-134 | the periodic and explicit descriptions of a repetition agree when those of the inner sync do |
| SyncPoints.TileOrdered | qcodes/instrument/sync.py:130-132 | tiling an ordered block by an offset at least its span keeps the begins ordered |
| SyncPoints.RepetitionKeepsOrder | qcodes/instrument/sync.py:127-134 | a repetition of a sync whose points fit in its duration again has ordered points that fit in its duration |
| SyncPoints.BeginsAsWritten | qcodes/instrument/sync.py:130-132 | the begins as written: tile k offset by k times the whole repetition's duration |
| SyncPoints.RepeatEach | qcodes/instrument/sync.py:133 | `numpy.repeat` has n times the elements |
| SyncPoints.LengthsAsWritten | qcodes/instrument/sync.py:133 | the lengths as written have one entry per repeated point |
| SyncPoints.OffsetAsWrittenOverruns | qcodes/instrument/sync.py:130 | one point at 0 with duration 2, repeated 3 times: as written it begins at 0, 6 and 12, beyond the duration 6; tiled by the inner duration it begins at 0, 2 and 4 |
| SyncPoints.LengthsAsWrittenMisplaced | qcodes/instrument/sync.py:132-133 | points (0,1) of lengths (1,2) repeated twice: as written the lengths are 1,1,2,2, so point 1 gets the wrong length; tiled they are 1,2,1,2 |
| SyncPoints.DurationAsWritten | qcodes/instrument/sync.py:118-119 | as written, the duration of a repetition raises; that of an explicit sync is its stored duration |
| SyncPoints.RepeatedDurationRaises | qcodes/instrument/sync.py:118-119 | every repetition raises as written; the corrected duration is inner duration × count |
| SyncPoints.Command.Parallel | qcodes/instrument/sync.py:154-159 | `parallel()` with no others is the command itself, else the merge of it followed by the others |
| SyncPoints.MergeAll | qcodes/instrument/sync.py:154-159 | one command stays itself; several are merged, in registration order |
| SyncPoints.BaseCompile | qcodes/instrument/sync.py:41-43 | a node compiles to one merged command per registered instrument |
| SyncPoints.NewKeys | qcodes/instrument/sync.py:112-115 | the instruments added by the inner sync are exactly those the outer registry lacks |
| SyncPoints.NewKeysDistinct | qcodes/instrument/sync.py:112-115 | they are listed once each |
| SyncPoints.CombinedCommand | qcodes/instrument/sync.py:110-115 | defines the command one instrument ends with: the outer command in parallel with the repeated inner one when both exist, the outer one alone, or the repeated inner one (the corrected line 115) |
| SyncPoints.Combine | qcodes/instrument/sync.py:107-116 | a repetition's compilation covers the outer and inner instruments; an instrument in both gets its outer command in parallel with the repeated inner one; an inner-only one gets the repeated inner command |
| SyncPoints.CombineWellFormed | qcodes/instrument/sync.py:107-116 | the compilation keeps one entry per instrument, each listed once |
| SyncPoints.FoldInner | qcodes/instrument/sync.py:107-116 | defines the loop of `_compile_commands` over a prefix of the inner keys: starting from the outer registry, each inner command is repeated and put in parallel with the existing entry or added after the others |
| SyncPoints.FoldInnerCombines | qcodes/instrument/sync.py:110-116 | the loop over the inner commands, one at a time, builds the combination for the instruments seen so far |
| SyncPoints.FoldIsCombine | qcodes/instrument/sync.py:110-116 | the whole loop gives the combination |
| SyncPoints.TwoCommandsMerge | qcodes/instrument/sync.py:70-71 | two commands registered for one instrument compile to the first in parallel with the second |
| SyncPoints.CombinedCommandAsWritten | qcodes/instrument/sync.py:112-115 | as written, an instrument in the outer registry is combined as corrected, while an inner-only one gets the inner command that the corrected reading repeats |
| SyncPoints.InnerOnlyCommandNotRepeated | qcodes/instrument/sync.py:115 | an inner-only command is left unrepeated as written, and differs from the corrected result |
| SyncPoints.Sync.Leaf | qcodes/instrument/sync.py:74-86 | an explicit sync node with an empty registry |
| SyncPoints.Sync.Wrap | qcodes/instrument/sync.py:101-105 | a repetition node around a sync with an empty registry of its own |
| SyncPoints.Sync.AddCommand | qcodes/instrument/sync.py:70-71 | the command is appended to the instrument's list, which is created if absent; a new instrument goes last in key order |
| SyncPoints.Sync.Repeated | qcodes/instrument/sync.py:53-54 | `repeated(count)` makes a new node around this one and leaves this one unchanged |
| SyncPoints.Sync.Compiled | qcodes/instrument/sync.py:107-116 | defines what `_compile_commands()` yields for a node: its own registry merged per instrument, combined with the inner node's compilation for a repetition |
| SyncPoints.Sync.CompiledCovers | qcodes/instrument/sync.py:107-116 | compiling a tree gives one command for each instrument registered anywhere in it |
| SyncPoints.Sync.CompileCommands | qcodes/instrument/sync.py:107-116 | the method walks the tree and returns the compilation |
| SyncPoints.MergeInner | qcodes/instrument/sync.py:109-114 | the loop over the inner compilation yields exactly the combination: inner commands repeated `count` times, put in parallel with an own command of the same instrument or added after the own entries |
| SyncPoints.Sync.Execute | qcodes/instrument/sync.py:45-47 | `execute` prepares every registered instrument exactly once, with its compiled command |
| SyncPoints.PrepareAll | qcodes/instrument/sync.py:45-47 | one `prepare` call per compiled instrument, in the compiled dictionary's order, with its merged command; every instrument of the compilation appears, and each only once |
| SweepValues.Extremes | qcodes/instrument/sweep_values.py:179-180 | `min` and `max` are elements that bound all the others |
| SweepValues.LinearSnapshot | qcodes/instrument/sweep_values.py:172-176 | the linear entry (first, last, num) fits the values; no values raise |
| SweepValues.SequenceSnapshot | qcodes/instrument/sweep_values.py:178-184 | the sequence entry (min, max, first, last, num) fits the values; no values raise |
| SweepValues.DescribesOne | qcodes/instrument/sweep_values.py:172-184 | a fitting entry describes its values |
| SweepValues.DescribesConcat | qcodes/instrument/sweep_values.py:220-221 | descriptions of two lists together describe the joined list |
| SweepValues.DescribesRepeat | qcodes/instrument/sweep_values.py:256-257 | n copies of a description describe n copies of the values |
| SweepValues.Swapped | qcodes/instrument/sweep_values.py:249-251 | exchanging first and last keeps the count of an entry |
| SweepValues.SwapAll | qcodes/instrument/sweep_values.py:249-251 | the loop exchanges first and last in every entry |
| SweepValues.InReversed | qcodes/instrument/sweep_values.py:247 | reversing keeps the same elements |
| SweepValues.ExtremesOfReversed | qcodes/instrument/sweep_values.py:247-251 | min and max of a run do not change when it is reversed |
| SweepValues.SwappedFits | qcodes/instrument/sweep_values.py:249-251 | an entry with first and last exchanged fits the run read backwards |
| SweepValues.ReverseKeepsDescription | qcodes/instrument/sweep_values.py:245-252 | after `reverse` the entries still describe the values |
| SweepValues.ReverseTwice | qcodes/instrument/sweep_values.py:245-252 | reversing twice restores both the values and the entries |
| SweepValues.SliceValues | qcodes/instrument/sweep_values.py:186-191 | a slice missing start, stop or step raises TypeError; otherwise it contributes the permissive range |
| SweepValues.ItemValues | qcodes/instrument/sweep_values.py:150-160 | a slice is expanded, a nested sequence is spliced in, a single value is appended |
| SweepValues.FlattenFails | qcodes/instrument/sweep_values.py:150-160 | the key list fails exactly when one of its slices is incomplete |
| SweepValues.FlattenConcat | qcodes/instrument/sweep_values.py:150-160 | flattening two parts and joining is flattening the joined keys |
| SweepValues.FlattenScalars | qcodes/instrument/sweep_values.py:158-160 | a list of single values gives those values in order |
| SweepValues.FlattenKeys | qcodes/instrument/sweep_values.py:150-160 | the loop over the keys computes the flattened values, or the first error |
| SweepValues.FailureStays | qcodes/instrument/sweep_values.py:150-160 | once a prefix fails, the whole key list fails with that error |
| SweepValues.InitialContents | qcodes/instrument/sweep_values.py:139-168 | the values each kind of key gives (generated, slice, list, single value) and the error raised otherwise, with one linear entry for generated values and a slice, one sequence entry for a non-empty list, none for an empty one, and an item entry for a single value; the entries describe the values |
| SweepValues.Times | qcodes/instrument/sweep_values.py:256-257 | `list * n` is empty for n ≤ 0, else n copies |
| SweepValues.SweepFixedValues.Init | qcodes/instrument/sweep_values.py:238-242 | a sweep holding the given values and entries without validation |
| SweepValues.SweepFixedValues.Create | qcodes/instrument/sweep_values.py:133-169 | the constructor: TypeError for a parameter that cannot be set (line 60), otherwise the error of the keys, otherwise success exactly when every value is accepted; a created sweep is valid, belongs to the parameter, and holds the values the keys give with the entry their kind adds |
| SweepValues.SweepFixedValues.Length | qcodes/instrument/sweep_values.py:280-281 | `len` is the number of values |
| SweepValues.SweepFixedValues.Contains | qcodes/instrument/sweep_values.py:292-293 | `in` holds exactly when some value equals the argument |
| SweepValues.SweepFixedValues.Append | qcodes/instrument/sweep_values.py:193-203 | an invalid value raises and changes nothing; a valid one is appended with an item entry |
| SweepValues.SweepFixedValues.Extend | qcodes/instrument/sweep_values.py:205-229 | a sweep of another parameter or a non-sequence raises; a sweep of the same parameter adds its values and entries; a sequence is validated and added with one sequence entry; a failure changes nothing |
| SweepValues.SweepFixedValues.Copy | qcodes/instrument/sweep_values.py:231-243 | a new sweep of the same parameter with the same values and entries |
| SweepValues.SweepFixedValues.Reverse | qcodes/instrument/sweep_values.py:245-252 | the values reversed, the entries reversed with first and last exchanged, and the sweep still valid |
| SweepValues.SweepFixedValues.Repeat | qcodes/instrument/sweep_values.py:254-258 | values and entries n times over (none for n ≤ 0), still valid |
| SweepValues.SweepFixedValues.Plus | qcodes/instrument/sweep_values.py:283-286 | `+` gives a fresh copy of the same parameter extended as `extend` would: TypeError for another parameter's sweep or a non-sequence, the validation and empty-sequence errors for a sequence, otherwise both values and entries appended; this sweep is unchanged |
| SweepValues.SweepFixedValues.ReversedCopy | qcodes/instrument/sweep_values.py:295-298 | `reversed()` gives a fresh reversed copy |
| SweepValues.InReversedAccepted | qcodes/instrument/sweep_values.py:247 | reversed values are still all valid |
| SweepValues.RepeatAccepted | qcodes/instrument/sweep_values.py:256 | repeated values are still all valid |
| SweepValues.SharedSnapshots.View | qcodes/instrument/sweep_values.py:257 | the entries the shared references stand for, one per reference |
| SweepValues.SwapEachShared | qcodes/instrument/sweep_values.py:249-251 | the loop as written on shared dictionaries touches only stored entries |
| SweepValues.RepeatThenReverseShared | qcodes/instrument/sweep_values.py:245-258 | `repeat` then `reverse` as written keeps the references valid |
| SweepValues.SharedEntriesMisdescribe | qcodes/instrument/sweep_values.py:249-257 | a linear sweep 1→2 repeated twice, then reversed as written, has entries that no longer describe its values; the corrected entries do |
| QuPulseAwg.MarkSent | qcodes/instrument_drivers/qupulse/qupulse_instrument.py:315-317 | the loops of the layer are marked sent and nothing else changes |
| QuPulseAwg.MarkRun | qcodes/instrument_drivers/qupulse/qupulse_instrument.py:443-445 | the loops of the layer are marked run and nothing else changes |
| QuPulseAwg.EveryLayerSent | qcodes/instrument_drivers/qupulse/qupulse_instrument.py:300-324 | once `_send_buffer` was called for every loop's layer, all loops are sent |
| QuPulseAwg.UnsentLayerWaits | qcodes/instrument_drivers/qupulse/qupulse_instrument.py:312-324 | a loop whose layer was never named stays unsent |
| QuPulseAwg.MeasurementWindows | qcodes/instrument_drivers/qupulse/qupulse_instrument.py:867-883 | the result has an entry for exactly the names some program measures |
| QuPulseAwg.CollectedExactly | qcodes/instrument_drivers/qupulse/qupulse_instrument.py:868-871 | a name collects windows exactly when some program has it |
| QuPulseAwg.CollectedConcat | qcodes/instrument_drivers/qupulse/qupulse_instrument.py:869-871 | the windows of two groups of programs are those of the first then the second |
| QuPulseAwg.ConcatBeginsConcat | qcodes/instrument_drivers/qupulse/qupulse_instrument.py:880 | `np.concatenate` of begins distributes over joined lists |
| QuPulseAwg.ConcatLengthsConcat | qcodes/instrument_drivers/qupulse/qupulse_instrument.py:881 | `np.concatenate` of lengths distributes over joined lists |
| QuPulseAwg.WindowsOfJoinedPrograms | qcodes/instrument_drivers/qupulse/qupulse_instrument.py:867-883 | the windows of joined programs are the windows of each part, begins and lengths joined |
| QuPulseAwg.BalancedConcat | qcodes/instrument_drivers/qupulse/qupulse_instrument.py:878-881 | when each window pairs begins with lengths, so does the joined pair |
| QuPulseAwg.AddProgram | qcodes/instrument_drivers/qupulse/qupulse_instrument.py:870-871 | each window of one more program is appended to its name's list |
| QuPulseAwg.GroupStep | qcodes/instrument_drivers/qupulse/qupulse_instrument.py:869-871 | one more program keeps the grouping of all programs so far |
| QuPulseAwg.GroupProgram | qcodes/instrument_drivers/qupulse/qupulse_instrument.py:870-871 | the inner loop computes that step |
| QuPulseAwg.JoinGroups | qcodes/instrument_drivers/qupulse/qupulse_instrument.py:874-882 | the second loop joins every group into concatenated begins and lengths |
| QuPulseAwg.CalcMeasurementWindows | qcodes/instrument_drivers/qupulse/qupulse_instrument.py:867-883 | the function computes the grouped windows of all programs |
| QuPulseAwg.AwgInstrument.constructor | qcodes/instrument_drivers/qupulse/qupulse_instrument.py:165-167 | no loops, no channels |
| QuPulseAwg.AwgInstrument.SweepParameter | qcodes/instrument_drivers/qupulse/qupulse_instrument.py:253-276 | AttributeError exactly when a loop holds the layer or sweeps the parameter; otherwise one unsent, unrun sweep loop is appended |
| QuPulseAwg.AwgInstrument.RepeatParameter | qcodes/instrument_drivers/qupulse/qupulse_instrument.py:279-297 | AttributeError exactly when a loop holds the layer; otherwise one repetition loop is appended |
| QuPulseAwg.AwgInstrument.SendBuffer | qcodes/instrument_drivers/qupulse/qupulse_instrument.py:300-340 | the layer's loops are marked sent; when there are loops and all are sent, the program is uploaded once and the measurement windows returned; otherwise nothing is returned |
| QuPulseAwg.AwgInstrument.RunProgram | qcodes/instrument_drivers/qupulse/qupulse_instrument.py:435-463 | the layer's loops are marked run; when all are, the run command (if any) is called once and the loops cleared |
| QuPulseAwg.AwgInstrument.ResetPrograms | qcodes/instrument_drivers/qupulse/qupulse_instrument.py:466-471 | all loops are dropped |
| QuPulseAwg.AwgInstrument.RemovePrograms | qcodes/instrument_drivers/qupulse/qupulse_instrument.py:474-479 | all loops and channels are dropped |
| QuPulseAwg.AwgInstrument.SetChannel | qcodes/instrument_drivers/qupulse/qupulse_instrument.py:200-232 | in the order the checks run: TypeError for a non-iterable; then ValueError when the candidate shares a channel with any registered set, its own identifier's included (so a single channel added to a non-empty set); then TypeError for a member that is not a channel; otherwise the identifier maps to the candidate; a failure changes nothing |
| QuPulseAwg.AwgInstrument.RemoveChannel | qcodes/instrument_drivers/qupulse/qupulse_instrument.py:235-242 | KeyError for an unknown identifier, otherwise exactly that entry is removed |
| QuPulseDac.OwnerFrom | qcodes/instrument_drivers/qupulse/qupulse_instrument.py:716-729 | the search over window names stops at the first one with a mask of that name, or finds none |
| QuPulseDac.OwnerIsFirst | qcodes/instrument_drivers/qupulse/qupulse_instrument.py:718-729 | the owner is the first name in registration order whose masks include the mask name |
| QuPulseDac.Popped | qcodes/instrument_drivers/qupulse/qupulse_instrument.py:796-809 | KeyError for a missing name, ValueError for an empty array; otherwise the front value, with the rest kept, the name removed when empty, and an emptied buffer becoming None |
| QuPulseDac.Drain | qcodes/instrument_drivers/qupulse/qupulse_instrument.py:795-809 | defines k successive reads of one parameter without a refill: the values popped one after another, or the first error |
| QuPulseDac.DrainInOrder | qcodes/instrument_drivers/qupulse/qupulse_instrument.py:795-802 | successive reads hand out a parameter's values in order |
| QuPulseDac.PopLeavesOthers | qcodes/instrument_drivers/qupulse/qupulse_instrument.py:796-802 | a read leaves every other parameter's values alone |
| QuPulseDac.DacChannel.constructor | qcodes/instrument_drivers/qupulse/qupulse_instrument.py:526-561 | a new channel parameter has no window and is neither configured nor ready |
| QuPulseDac.DacChannel.Reset | qcodes/instrument_drivers/qupulse/qupulse_instrument.py:564-571 | `reset` clears window, configured and ready |
| QuPulseDac.ReadyFlags | qcodes/instrument_drivers/qupulse/qupulse_instrument.py:785 | the ready flag of each channel parameter |
| QuPulseDac.DacInstrument.constructor | qcodes/instrument_drivers/qupulse/qupulse_instrument.py:636-638 | no masks, no affected DACs, no data |
| QuPulseDac.DacInstrument.SetMeasurement | qcodes/instrument_drivers/qupulse/qupulse_instrument.py:649-676 | TypeError for a non-iterable; ValueError when the candidate shares a mask with any registered set, its own name's included; otherwise the name maps to the candidate; a failure changes nothing |
| QuPulseDac.RegisterKeepsDisjoint | qcodes/instrument_drivers/qupulse/qupulse_instrument.py:671-675 | registering a set that shares no mask with any registered set keeps all registered sets pairwise disjoint |
| QuPulseDac.DacInstrument.ConfigureMeasurement | qcodes/instrument_drivers/qupulse/qupulse_instrument.py:704-731 | a configured parameter raises; the owner window of the parameter's mask must be given, or it raises; otherwise the owner's window is recorded (the old one is kept when no window owns the mask) and the parameter becomes configured |
| QuPulseDac.DacInstrument.ArmMeasurement | qcodes/instrument_drivers/qupulse/qupulse_instrument.py:734-767 | the parameter becomes ready; nothing more happens until every configured parameter is ready; then each ready parameter's window is recorded under its mask's DAC, or KeyError when one has no registered window |
| QuPulseDac.DacInstrument.CheckAllReady | qcodes/instrument_drivers/qupulse/qupulse_instrument.py:741-748 | the first loop finds whether every configured parameter is ready |
| QuPulseDac.DacInstrument.CollectAffected | qcodes/instrument_drivers/qupulse/qupulse_instrument.py:751-761 | the second loop records every ready parameter's window and nothing else, or fails exactly when a ready parameter has no registered window |
| QuPulseDac.DacInstrument.AddEntryValue | qcodes/instrument_drivers/qupulse/qupulse_instrument.py:760 | one entry set; every other entry kept |
| QuPulseDac.DacInstrument.SoundAfterAdd | qcodes/instrument_drivers/qupulse/qupulse_instrument.py:753-761 | each step records only entries of ready parameters |
| QuPulseDac.DacInstrument.CompleteAfterAdd | qcodes/instrument_drivers/qupulse/qupulse_instrument.py:753-761 | each step keeps an entry for every ready parameter seen so far |
| QuPulseDac.DacInstrument.ResetReady | qcodes/instrument_drivers/qupulse/qupulse_instrument.py:783-787 | the ready parameters are reset and their names returned in order; the others are untouched |
| QuPulseDac.DacInstrument.GetBuffered | qcodes/instrument_drivers/qupulse/qupulse_instrument.py:770-809 | with data left, the next value of the parameter is taken; otherwise the ready parameters are reset, the armed DACs are asked (AttributeError when none was armed), and the value is taken from the new data; parameters that were not ready keep their window and configuration, and a read from data left changes no parameter |
| QuPulseDac.DacInstrument.ResetMeasurements | qcodes/instrument_drivers/qupulse/qupulse_instrument.py:812-819 | every channel parameter is reset |
| Decadac.Round | qcodes/instrument_drivers/Harvard/FZJ_Decadac.py:109 | `round` gives the nearest integer, ties to even |
| Decadac.RoundOfInt | qcodes/instrument_drivers/Harvard/FZJ_Decadac.py:109 | an integer rounds to itself |
| Decadac.RoundInCodeRange | qcodes/instrument_drivers/Harvard/FZJ_Decadac.py:109-114 | a value in [0, 65535] rounds into [0, 65535], so the extra range check never fires |
| Decadac.FractionInUnit | qcodes/instrument_drivers/Harvard/FZJ_Decadac.py:108 | a voltage in range has a fraction in [0, 1] |
| Decadac.VToCode | qcodes/instrument_drivers/Harvard/FZJ_Decadac.py:91-116 | ValueError exactly outside the range; division by zero for an empty range; otherwise the nearest code in [0, 65535], an exact tie going to the even code as `round` does |
| Decadac.CodeToV | qcodes/instrument_drivers/Harvard/FZJ_Decadac.py:120-135 | code 0 is the minimum voltage, code 65535 the maximum |
| Decadac.CodeToVLinear | qcodes/instrument_drivers/Harvard/FZJ_Decadac.py:133-135 | equal code steps are equal voltage steps |
| Decadac.CodeRoundTrip | qcodes/instrument_drivers/Harvard/FZJ_Decadac.py:91-135 | a code converted to a voltage and back is the same code |
| Decadac.QuantisationError | qcodes/instrument_drivers/Harvard/FZJ_Decadac.py:105-135 | a converted voltage is within half a code step of the voltage its code stands for |
| Decadac.EvaluateSwitchPos | qcodes/instrument_drivers/Harvard/FZJ_Decadac.py:139-163 | only -1, 0 and 1 are switch positions, each with a range around 0 |
| Decadac.SwitchPosAgreesWithTable | qcodes/instrument_drivers/Harvard/FZJ_Decadac.py:28-34 | `_evaluate_switchpos` and `_SWITCH_POS_TO_RANGE` agree on every position |
| Decadac.VoltageRange | qcodes/instrument_drivers/Harvard/FZJ_Decadac.py:254-262 | an unset switch raises ValueError; a set one gives the range of its position |
| Decadac.ChannelVToCode | qcodes/instrument_drivers/Harvard/FZJ_Decadac.py:437-449 | the channel converts in its switch's range and passes on the range's error |
| Decadac.Linspace | qcodes/instrument_drivers/Harvard/FZJ_Decadac.py:764 | `linspace` has num values from start to stop |
| Decadac.Trunc | qcodes/instrument_drivers/Harvard/FZJ_Decadac.py:760 | `int` truncates toward zero |
| Decadac.RampCodes | qcodes/instrument_drivers/Harvard/FZJ_Decadac.py:741-757 | a volt ramp is converted to codes, a raw ramp is already codes, any other parameter raises NotImplementedError |
| Decadac.RampSlope | qcodes/instrument_drivers/Harvard/FZJ_Decadac.py:760 | the slope is the code step per update times 65536, truncated |
| Decadac.RampSettings | qcodes/instrument_drivers/Harvard/FZJ_Decadac.py:770-779 | the lower and upper limits are set to the smaller and larger code, the lower first when the ramp rises; then the start code and the slope |
| Decadac.RampWindows | qcodes/instrument_drivers/Harvard/FZJ_Decadac.py:762-767 | num windows of one update period in nanoseconds each, the first at 0, each starting where the previous one ends |
| Decadac.Decadac.constructor | qcodes/instrument_drivers/Harvard/FZJ_Decadac.py:641-658 | nothing selected, nothing written, no ramp stored |
| Decadac.Decadac.Ask | qcodes/instrument_drivers/Harvard/FZJ_Decadac.py:844-857 | the command is written and the reply checked |
| Decadac.Decadac.SetSlot | qcodes/instrument_drivers/Harvard/FZJ_Decadac.py:795-808 | the slot command is written only when another slot (or none) is current; the slot becomes current once its reply is acknowledged, and a failing reply raises and keeps the old slot |
| Decadac.Decadac.SetChannel | qcodes/instrument_drivers/Harvard/FZJ_Decadac.py:811-826 | the slot is selected first; the channel command is written when the slot changed or another channel is current; the line receives exactly these selections up to the first failing reply, whose error is raised; the slot is stored as soon as its selection is acknowledged, even when the channel command then fails, and the channel only when its own command is acknowledged; the answer says whether anything was written |
| Decadac.Decadac.Write | qcodes/instrument_drivers/Harvard/FZJ_Decadac.py:829-857 | the line receives the writer's slot or channel selections and then the command, up to the first failing reply, whose error is raised; on success the command's checked reply is returned and the writer's slot and channel are current; on any failure the slot and channel stay as the acknowledged selections left them, and a slot writer never changes the current channel |
| Decadac.Decadac.Select | qcodes/instrument_drivers/Harvard/FZJ_Decadac.py:837-842 | a slot writer's slot or a channel writer's slot and channel are selected, writing exactly those selection commands up to the first failing reply, whose error is raised; the slot and channel become current as their selections are acknowledged, a slot writer leaves the channel alone; the instrument itself selects nothing |
| Decadac.WriteAll | qcodes/instrument_drivers/Harvard/FZJ_Decadac.py:844-852 | defines a series of `_write` calls: each command is sent and its reply checked, and the series stops after the first reply that fails, with that error |
| Decadac.WriteAllComplete | qcodes/instrument_drivers/Harvard/FZJ_Decadac.py:844-852 | a series of writes ends without error exactly when every reply is acknowledged, and then every command reached the line |
| Decadac.WriteAllStopsAtFailure | qcodes/instrument_drivers/Harvard/FZJ_Decadac.py:844-852 | a series of writes that raises stops after a prefix of the commands, every reply but the last acknowledged and the last raising that error |
| Decadac.WriteAllAppend | qcodes/instrument_drivers/Harvard/FZJ_Decadac.py:837-852 | writing selections and then a command writes the command only when every selection was acknowledged |
| Decadac.WriteOne | qcodes/instrument_drivers/Harvard/FZJ_Decadac.py:844-852 | a single write sends the command and raises what its reply check raises |
| Decadac.SelectedOnSuccess | qcodes/instrument_drivers/Harvard/FZJ_Decadac.py:795-826 | a selection acknowledged in full leaves the writer's slot, and a channel writer's channel, current |
| Decadac.SlotAfter | qcodes/instrument_drivers/Harvard/FZJ_Decadac.py:800-804 | defines the current slot after a writer's selection: the writer's slot once its selection is acknowledged or was already current, the old one otherwise; the instrument itself changes nothing |
| Decadac.ChannelAfter | qcodes/instrument_drivers/Harvard/FZJ_Decadac.py:818-822 | defines the current channel after a selection: a channel writer's channel once its whole selection is acknowledged, the old one otherwise and for every other writer |
| Decadac.LinspaceFromZero | qcodes/instrument_drivers/Harvard/FZJ_Decadac.py:762-767 | the window begins from 0 to (num - 1) update periods are k update periods each |
| Decadac.Decadac.ResetPrograms | qcodes/instrument_drivers/Harvard/FZJ_Decadac.py:696-700 | the stored ramp is forgotten |
| Decadac.Decadac.SweepParameter | qcodes/instrument_drivers/Harvard/FZJ_Decadac.py:702-726 | a second ramp raises NotImplementedError, no values raise IndexError; values that are not the even sweep from first to last, or start where they stop, raise NotImplementedError; otherwise the ramp is stored |
| Decadac.Decadac.SendBuffer | qcodes/instrument_drivers/Harvard/FZJ_Decadac.py:728-783 | no ramp, no result; otherwise the ramp's codes give the settings and the windows under "M", or the conversion's error |
| Decadac.Decadac.RunProgram | qcodes/instrument_drivers/Harvard/FZJ_Decadac.py:785-793 | the run command is called when present, then the ramp is forgotten |
| Decadac.NumberedCommand | qcodes/instrument_drivers/Harvard/FZJ_Decadac.py:75-76 | `B{n};` (slot) and `C{n};` (channel) hold exactly the digits of n between their letter and ; |
| Decadac.SlotCommand | qcodes/instrument_drivers/Harvard/FZJ_Decadac.py:75 | defines the slot selection `B{n};` |
| Decadac.ChannelCommand | qcodes/instrument_drivers/Harvard/FZJ_Decadac.py:76 | defines the channel selection `C{n};` |
| Decadac.CheckReply | qcodes/instrument_drivers/Harvard/FZJ_Decadac.py:849-852 | a reply is accepted exactly when it starts with the command's letter and ends with "!"; an empty reply raises IndexError |
| Decadac.ChannelReplyDoesNotAckSlot | qcodes/instrument_drivers/Harvard/FZJ_Decadac.py:849-852 | a reply to a channel command is never taken as the reply to a slot command |
| Anc350.Lowercase | qcodes/instrument_drivers/attocube/ANC350.py:78 | `ascii_lowercase` is the 26 letters in order |
| Anc350.LowercaseIndex | qcodes/instrument_drivers/attocube/ANC350.py:86 | `index` of a lowercase letter is its alphabet position, and any other character is absent |
| Anc350.ParseDirection | qcodes/instrument_drivers/attocube/ANC350.py:68-92 | an int is its own axis; one character is its alphabet position minus 23, or ValueError if it is not a lowercase letter; None raises ValueError; anything else TypeError |
| Anc350.XyzAreFirstAxes | qcodes/instrument_drivers/attocube/ANC350.py:74-76 | "x", "y" and "z" are axes 0, 1 and 2 |
| Anc350.LetterAndNumberAgree | qcodes/instrument_drivers/attocube/ANC350.py:80-89 | a letter and its axis number select the same axis |
| Anc350.NewAxisParameter | qcodes/instrument_drivers/attocube/ANC350.py:322-346 | the direction is checked before the positioner; a parameter is made exactly when both are given and valid |
| Anc350.NormaliseMode | qcodes/instrument_drivers/attocube/ANC350.py:381-397 | 0, 1, "absolute" and "relative" are the accepted modes, mapped to 0 or 1; other ints and strings raise ValueError, other types TypeError |
| Anc350.SetRaw | qcodes/instrument_drivers/attocube/ANC350.py:366-400 | an accepted mode sets the target, then starts the automatic move in that mode; a rejected one makes no call |
| Anc350.RelativeMoves | qcodes/instrument_drivers/attocube/ANC350.py:375-400 | the move is relative exactly for 1 or "relative" |
| Amc100.CheckError | qcodes/instrument_drivers/attocube/AMC100lib.py:20-43 | code 0 returns; -1 raises the unspecific message with function and arguments; each named code raises its own message; any other code, -8 included, raises the unknown message; every message starts with "Error: ", and a named code never raises the unknown message |
| Amc100.FixedMessagesDistinct | qcodes/instrument_drivers/attocube/AMC100lib.py:25-40 | different named codes raise different messages |
| RigolDP8xx.LeadingSpace | qcodes/instrument_drivers/rigol/private/DP8xx.py:182 | the count of leading white space: every character before it is white space and the one at it is not |
| RigolDP8xx.TrailingSpace | qcodes/instrument_drivers/rigol/private/DP8xx.py:182 | the count of trailing white space: every character after the rest is white space and the last one of the rest is not |
| RigolDP8xx.Strip | qcodes/instrument_drivers/rigol/private/DP8xx.py:182 | `strip` keeps the slice between the leading and the trailing white space, which neither starts nor ends with white space |
| RigolDP8xx.SpaceAround | qcodes/instrument_drivers/rigol/private/DP8xx.py:182 | white space at the end of a suffix is white space at the end of the string, and the middle part is bordered by non-space characters |
| RigolDP8xx.Split | qcodes/instrument_drivers/rigol/private/DP8xx.py:182 | `split(',')` gives at least one piece and no piece holds a comma |
| RigolDP8xx.JoinSplit | qcodes/instrument_drivers/rigol/private/DP8xx.py:182 | joining the pieces with commas gives the string back |
| RigolDP8xx.SplitJoin | qcodes/instrument_drivers/rigol/private/DP8xx.py:182 | splitting joined comma-free pieces gives the pieces back |
| RigolDP8xx.InstalledOptions | qcodes/instrument_drivers/rigol/private/DP8xx.py:178-184 | the options are exactly the pieces of the stripped reply other than "0", each as often as it occurs there, and none contains a comma |
| RigolDP8xx.SelectRanges | qcodes/instrument_drivers/rigol/private/DP8xx.py:154-160 | the second range set exactly when DP8-ACCURACY is installed |
| RigolDP8xx.AccuracyReplySelected | qcodes/instrument_drivers/rigol/private/DP8xx.py:154-156 | a reply listing DP8-ACCURACY selects the accurate ranges |
| RigolDP8xx.BuildChannels | qcodes/instrument_drivers/rigol/private/DP8xx.py:164-169 | channel k is "ch{k+1}" with its own ranges; short protection range lists raise IndexError |
| RigolDP8xx.ChannelNamesDistinct | qcodes/instrument_drivers/rigol/private/DP8xx.py:165-169 | the channels have different names |
| RigolDP8xx.Setup | qcodes/instrument_drivers/rigol/private/DP8xx.py:150-171 | the constructor builds one channel per range, channel k named "ch{k+1}" with number k+1, its maximum voltage and current and the OVP and OCP ranges of the selected set; IndexError when a selected set is shorter than the channel list |
| RigolDP8xx.VoltageBounds | qcodes/instrument_drivers/rigol/private/DP8xx.py:26 | the voltage validator spans 0 and the maximum voltage, whatever its sign, so both are always accepted |
| RigolDP8xx.CurrentBounds | qcodes/instrument_drivers/rigol/private/DP8xx.py:36 | the current validator spans 0 to the maximum current |
| PiE871.WordLength | qcodes/instrument_drivers/PI/PIE871.py:23 | the first word runs up to the first white space |
| PiE871.Tokens | qcodes/instrument_drivers/PI/PIE871.py:23-24 | defines `line.split()`: the maximal runs of non-white-space bytes, in order |
| PiE871.TokensShape | qcodes/instrument_drivers/PI/PIE871.py:23-24 | `split()` gives non-empty words without white space, and none exactly for a blank line |
| PiE871.PiDevices | qcodes/instrument_drivers/PI/PIE871.py:18-25 | defines what `list_devices` returns: the last word of each line whose first word is `PI`, in line order |
| PiE871.PiDevicesShorter | qcodes/instrument_drivers/PI/PIE871.py:18-25 | at most one device per line |
| PiE871.PiDevicesExactly | qcodes/instrument_drivers/PI/PIE871.py:18-25 | a serial is listed exactly when some line starting with PI ends with it |
| PiE871.ListDevices | qcodes/instrument_drivers/PI/PIE871.py:18-25 | the loop lists the PI serials in line order, or raises IndexError for a blank line |
| PiE871.GetClTarPos | qcodes/instrument_drivers/PI/PIE871.py:110-114 | the servo mode is queried first; only a truthy mode reads the target, otherwise it raises |
| PiE871.SetClTarPos | qcodes/instrument_drivers/PI/PIE871.py:116-120 | the servo mode is queried first; only a truthy mode moves, to the given value |
| PiE871.FailedQueryPassesGuard | qcodes/instrument_drivers/PI/PIE871.py:117 | an error text from a failed query is truthy and lets the move through |
| PiE871.Ref | qcodes/instrument_drivers/PI/PIE871.py:76-86 | a referenced axis is left alone; otherwise reference mode is switched off first when on, then the position is set; the exact calls and the message of each of the three branches, the second with its "posotion" spelling |
| PiE871.PositionSetOnlyWhenUnreferenced | qcodes/instrument_drivers/PI/PIE871.py:76-86 | the position is set exactly when the axis is not referenced |

## Left out

- Numbers:
  - Sync times and lengths are integers, not floats.
  - Other floats are exact reals; no float rounding is modelled.
- Instruments, libraries and builders are not part of this model: the qupulse program
  builder and uploader, DAC `measure_program`, `register_measurement_windows` and
  `arm_program`, the PI, AMC100 and ANC350 libraries, VISA I/O. Their answers are
  parameters. Uploads, runs and arming are counted or omitted.
- `make_sweep` and `permissive_range` are not part of this model. Their results are
  inputs.
- Not modelled:
  - `snapshot_base` and the JSON form of snapshots;
  - the loop `iterator` field;
  - `_set_template`, `_build_program`, `_upload_program` internals, `_register_operations`,
    `remove_measurements`;
  - the qupulse template parameters.
- QuPulseDac.DacInstrument.GetBuffered:
  - The answers of all affected DACs come from one function of the requested names; the
    merge `{**data, **d}` over several DACs is not modelled.
  - An unknown operation type (`NotImplementedError` in the channel constructor) is not
    modelled.
- QuPulseDac.DacInstrument.ConfigureMeasurement: which window owns a mask follows
  registration order. Python's set iteration order inside one window name is not
  modelled; the mask is only matched by name.
- QuPulseAwg.AwgInstrument.SetChannel and QuPulseDac.DacInstrument.SetMeasurement: the
  deprecation warning is not modelled.
- `__iadd__` is `Extend`; `__iter__` and `__getitem__` are plain sequence access.
- SweepValues.SweepFixedValues.Extend: extending by another sweep (line 221) puts references
  to that sweep's snapshot dictionaries into this one. A later `reverse` of either sweep then
  also exchanges first and last in the other's entries. The model copies the entries as
  values, so this sharing is not captured by Extend or by SweepValues.SweepFixedValues.Plus.
  The effect of such sharing is shown for `repeat` under Findings. Extending a sweep with
  itself doubles both its values and its entries, as `list.extend` does; only the sharing
  of the snapshot dictionaries is again not captured.
- SweepValues.SweepFixedValues.Create: validation is a predicate `accepts` on each value.
  The parameter's own validator and `has_set` attributes are folded into `settable`.
- Sync stubs that only raise `NotImplementedError` are not modelled: `delayed`, the base
  `as_periodic`/`as_explicit`/`duration`, `AsyncCommand.repeated`/`concatenate`,
  `AsyncInstrument.prepare`, `AsyncParameter`. `_parallel` and `repeated` of a command
  are left uninterpreted constructors.
- SyncPoints.Timing.AsExplicit: line 132 builds the begins of a repetition as a 2-D
  array of count rows of n points each. The model flattens it row by row into one
  sequence, so tile k holds positions k·n to k·n + n - 1.
- SyncPoints.Timing: the count of a repetition is a natural number. `numpy.arange` and
  `numpy.repeat` with a negative count (an empty result or an error) are not modelled.
- SyncPoints.Sync.Execute: `prepare(self, commands)` also receives the sync itself. The
  model records only the instrument and its command.
- SyncPoints.BaseCompile: the compilation of a leaf, abstract in the source, is read as
  merging each instrument's list with `parallel`.
- SyncPoints.Timing.NumSyncPoints: counts the points of a leaf, where the source raises
  `NotImplementedError`; the as-written form is a Findings row.
- SyncPoints.Timing.Duration and SyncPoints.Timing.AsExplicit: use the corrected
  duration (count, not the sync object) and the tiling by inner duration. The as-written
  forms are the Findings rows.
- Decadac:
  - Ramping helpers (`_ramp`, `_ramp_wait`), limit, trigger and slot-mode setters, and
    the `volt_raw` validator are not modelled.
  - Decadac.Decadac.SendBuffer: the settings are returned as a list rather than written
    through `_write`.
- Anc350.NormaliseMode: a mode of another type that compares equal to 0 (such as
  `0.0` or `False`) is one `ModeOther` flag.
- RigolDP8xx.Setup: the range sets are a pair `(standard, accurate)`, and a shorter tuple
  is not modelled.
- PiE871: a query reply is either the flag or the error text the library returns on
  failure; `Truthy` is Python truth for both.

## Findings

| source | as written | input that shows it | evidently intended | confidence | as-written member | corrected member |
|---|---|---|---|---|---|---|
| qcodes/instrument/sync.py:115 | an instrument with a command only in the inner sync gets `command`, not `repeated_command` | outer registry empty, inner `{i: c}`, count 3: compiled `c` | `repeated_command`, so the command runs once per repetition | high, not executed | SyncPoints.InnerOnlyCommandNotRepeated | SyncPoints.Combine |
| qcodes/instrument/sync.py:119 | `self.sync.duration() * self.sync` multiplies a number by a `Sync`, which raises TypeError | any `RepeatedSync(s, n)`; `as_explicit` (line 130) calls it too | `self.sync.duration() * self.count` | high, not executed | SyncPoints.RepeatedDurationRaises | SyncPoints.RepetitionScales |
| qcodes/instrument/sync.py:130 | the offset of tile k is k × `self.duration()`, the duration of the whole repetition | one point at 0, duration 2, count 3: begins 0, 6, 12, past the duration 6 | k × the inner duration: 0, 2, 4 | high, not executed | SyncPoints.OffsetAsWrittenOverruns | SyncPoints.RepetitionKeepsOrder |
| qcodes/instrument/sync.py:132-133 | the lengths are `numpy.repeat`ed element by element, while the begins are laid out tile by tile | points (0, 1) of lengths (1, 2), count 2: lengths 1, 1, 2, 2 for begins 0, 1, 3, 4 | the inner lengths tile by tile: 1, 2, 1, 2 | high, not executed | SyncPoints.LengthsAsWrittenMisplaced | SyncPoints.RepeatedExplicitAt |
| qcodes/instrument/sync.py:67-68 | `ExplicitSync` does not override `num_sync_points`, so a leaf raises `NotImplementedError`; a `RepeatedSync` asks its inner sync (line 137) and raises with it | `ExplicitSync([0], [1]).num_sync_points()`, or any repetition of it | the number of points of `as_explicit()`: 1 for the example, count × inner for a repetition | high, not executed | SyncPoints.NumSyncPointsAlwaysRaises | SyncPoints.Timing.NumSyncPoints |
| qcodes/instrument/sweep_values.py:249-257 | `repeat` copies references to the same snapshot dictionaries, so a later `reverse` swaps first and last of a shared dictionary once per copy | linear 1→2 (num 2), `repeat(2)`, `reverse()`: both entries say first 1, last 2 for runs 2→1 | every entry describes its own run, first and last exchanged once | medium, not executed | SweepValues.SharedEntriesMisdescribe | SweepValues.ReverseKeepsDescription |
