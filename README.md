# nsds_lab_to_nwb: stimulus tokenization and metadata helpers, in Dafny

This project models the decision-making core of the `nsds_lab_to_nwb` converter. The converter turns a recorded block of electrophysiology data into an NWB file.

- **Event detection.** `detect_events` finds stimulus onsets in the recorded mark track. An onset is a rising edge over a threshold. An optional minimum-separation filter follows.
- **The four tokenizers.** They turn the onsets into labelled trial intervals:
  - tone pips (`ToneTokenizer`);
  - white noise (`WNTokenizer`);
  - TIMIT sentences (`TIMITTokenizer`);
  - a single continuous stimulus or a baseline block (`SingleTokenizer`).
- **Tokenizer choice and the trials table.** `TrialsManager` picks the tokenizer from the stimulus name and fills the trials table.
- **Stimulus timing.** `StimulusOriginator` computes the stimulus starting time and conditionally adds the waveform.
- **Block folder names.** `split_block_folder` parses them and `str2bool` reads the boolean switches.
- **Metadata clean-up.** This covers:
  - the bad-channel parser;
  - the subject-weight unit and default subject fields;
  - stimulus-name normalisation;
  - the device drop;
  - legacy-block detection;
  - the electrode numbering of `__load_probes`.
- **Neural data.** `NeuralDataOriginator` decides the resampling rate and the rate label, and writes the bad-channel comment.

Times and rates are `real`. Strings are `seq<char>`. The Python exceptions a step can raise are an `Error` value inside a `Result` or `Outcome`.

A loop in the source that builds a list becomes a `method` with a `while` loop. Its result is tied to a specification function, such as `ToneTokenizer.Tokenize` and `ToneTrials`. The promised properties are lemmas about that function.

Objects the source updates in place become classes:
- the NWB file container (`NwbContainer.NwbContent`);
- the metadata entries (`MetadataManager.MetadataInput`);
- the rate fields (`NeuralDataOriginator.Originator`).

Each is specified by a function of its previous state.

`PyStrings` gives the Python `str` operations the source uses: `in`, `count`, slicing, `split`, `join`, `strip`, `lower`, `isalpha`, `isnumeric`, `str(int)` and `int(str)`. `PyValues` gives the Python values found in metadata files.

Modules (one per file):
`Wrappers`, `PyStrings`, `PyValues`, `StimUtils`, `Trials`, `ToneTokenizer`, `WNTokenizer`, `TimitTokenizer`, `SingleTokenizer`, `NwbContainer`, `TrialsManager`, `StimulusOriginator`, `NsdsUtils`, `MetadataManager` and `NeuralDataOriginator`.

Notes on the code:
- **Minimum-separation filter.** It compares each onset with its unfiltered predecessor, not with the last onset kept (nsds_lab_to_nwb/components/stimulus/utils.py:21-23).
- **TIMIT closing baseline.** It is always appended, with no width check (nsds_lab_to_nwb/components/stimulus/tokenizers/timit_tokenizer.py:43-47).
- **Single tokenizer.** `TrialsManager` never selects it (nsds_lab_to_nwb/components/stimulus/trials_manager.py:20-28).

## Model

| member | source | states |
|---|---|---|
| StimUtils.DetectEvents | nsds_lab_to_nwb/components/stimulus/utils.py:12-25 | definition; its properties are in RisingEdgeDiff, OnsetIndicesCharacterized, EventTimes, NoCrossingNoEvents, FilteredEvents, DetectExample |
| StimUtils.RisingEdgeDiff | nsds_lab_to_nwb/components/stimulus/utils.py:13-15 | the first difference of the zero-padded 0/1 indicator has one entry per sample, and it is positive exactly at a sample above the threshold whose predecessor is not (the pad counting as 0.0 for the first sample) |
| StimUtils.WhereAboveCharacterized | nsds_lab_to_nwb/components/stimulus/utils.py:16 | `np.where(d > 0.5)` reports exactly the positions above the bound, each in range, strictly increasing |
| StimUtils.OnsetIndicesCharacterized | nsds_lab_to_nwb/components/stimulus/utils.py:13-16 | index `i` is reported iff it is a rising edge (`data[i] > threshold` and `i == 0` with `0 <= threshold`, or `data[i-1] <= threshold`); the indices strictly increase |
| StimUtils.DropBetweenOnsets | nsds_lab_to_nwb/components/stimulus/utils.py:13-16 | between two consecutive reported indices there is a sample at or below the threshold (the one just before the later index) |
| StimUtils.EventTimes | nsds_lab_to_nwb/components/stimulus/utils.py:16-17 | without a minimum separation, event `j` is reported index `j` divided by the rate, and the times strictly increase |
| StimUtils.NoCrossingNoEvents | nsds_lab_to_nwb/components/stimulus/utils.py:12-25 | a signal never above the threshold (the empty signal included) yields no events, with or without a minimum separation |
| StimUtils.DeleteKeeps | nsds_lab_to_nwb/components/stimulus/utils.py:23 | `np.delete` keeps, in order, exactly the elements at the indices not deleted |
| StimUtils.FilterIsSubsequence | nsds_lab_to_nwb/components/stimulus/utils.py:19-23 | the filtered events are an order-preserving subsequence of the unfiltered ones, and the first event is always kept |
| StimUtils.FilterKeepsIff | nsds_lab_to_nwb/components/stimulus/utils.py:21-23 | for increasing events, a non-first event survives iff its gap to its immediate unfiltered predecessor is at least the minimum separation |
| StimUtils.FilterSeparates | nsds_lab_to_nwb/components/stimulus/utils.py:21-23 | consecutive surviving events are at least the minimum separation apart |
| StimUtils.FilteredEvents | nsds_lab_to_nwb/components/stimulus/utils.py:12-25 | the whole detector with a minimum separation: a subsequence of the unfiltered detections that keeps the first, keeps a later one iff its gap to its predecessor is at least the separation, and is spaced at least that far apart |
| StimUtils.DetectExample | nsds_lab_to_nwb/components/stimulus/utils.py:12-17 | `[0, 0, 0.3, 0.3, 0.1, 0.4]` at 2 Hz with threshold 0.2 gives onsets at 1.0 s and 2.5 s |
| Trials.RecEndTime | nsds_lab_to_nwb/components/stimulus/tokenizers/base_tokenizer.py:12 | the recording end time is non-negative and multiplied by the rate gives the sample count |
| ToneTokenizer.ToneTrials | nsds_lab_to_nwb/components/stimulus/tokenizers/tone_tokenizer.py:23-80 | definition; its properties are in Tokenize, ToneTrialsErr, ToneEnds, ToneAt, ToneTrialsShape, ToneTrialAt, ToneLabels, ToneContiguous |
| ToneTokenizer.Tokenize | nsds_lab_to_nwb/components/stimulus/tokenizers/tone_tokenizer.py:23-80 | the loop builds exactly the specified interval list or raises the specified error |
| ToneTokenizer.ToneTrialsErr | nsds_lab_to_nwb/components/stimulus/tokenizers/tone_tokenizer.py:34-42 | tokenizing fails, with `IndexError`, exactly when there is no onset or fewer parameter rows than onsets |
| ToneTokenizer.ToneEnds | nsds_lab_to_nwb/components/stimulus/tokenizers/tone_tokenizer.py:33-80 | the length is `1 + 3n`, plus 1 exactly when the last post-stimulus baseline stops before the recording end; the first interval is `[0, onsets[0])` baseline; the trailing baseline runs from that stop to the recording end |
| ToneTokenizer.ToneAt | nsds_lab_to_nwb/components/stimulus/tokenizers/tone_tokenizer.py:40-69 | onset `m` yields its pre-stimulus baseline, tone and post-stimulus baseline at positions `3m+1..3m+3` |
| ToneTokenizer.ToneTrialsShape | nsds_lab_to_nwb/components/stimulus/tokenizers/tone_tokenizer.py:33-80 | the error cases and the complete shape of a successful result: lead baseline, three intervals per onset in order, conditional trailing baseline, length `1 + 3n (+1)` |
| ToneTokenizer.ToneTrialAt | nsds_lab_to_nwb/components/stimulus/tokenizers/tone_tokenizer.py:33-78 | every interval carries the `frq`, `amp` columns; it is a stimulus iff its position is `2 mod 3` and below `3n`; every baseline carries `'nan'` in both |
| ToneTokenizer.ToneLabels | nsds_lab_to_nwb/components/stimulus/tokenizers/tone_tokenizer.py:41-69 | exactly the tone intervals are stimuli; the texts on the tone of trial `m` read back through `int()` as `stim_vals[m, 1]` (frequency) and `stim_vals[m, 0]` (amplitude) |
| ToneTokenizer.ToneContiguous | nsds_lab_to_nwb/components/stimulus/tokenizers/tone_tokenizer.py:44-78 | the three intervals of each onset abut, and so do the lead baseline with the first and the trailing baseline with the last; the tone of onset `o` starts at `o + baseline_start` and lasts `duration`; the post baseline stops at `o + bl_start + dur + bl_end` |
| ToneTokenizer.ShapeGuardAsWritten | nsds_lab_to_nwb/components/stimulus/tokenizers/tone_tokenizer.py:103-105 | definition; its properties are in ShapeGuardFinding |
| ToneTokenizer.ShapeRejected | nsds_lab_to_nwb/components/stimulus/tokenizers/tone_tokenizer.py:101-105 | definition; its properties are in ShapeGuardFinding, StimulusValues |
| ToneTokenizer.ShapeGuardFinding | nsds_lab_to_nwb/components/stimulus/tokenizers/tone_tokenizer.py:101-105 | as written the dimension check never rejects a two-dimensional table (a 5 x 3 table passes); the intended check rejects a 2-D table iff neither dimension is 2 |
| ToneTokenizer.AddAmplitudeOffset | nsds_lab_to_nwb/components/stimulus/tokenizers/tone_tokenizer.py:112-113 | in place, every amplitude (column 0) grows by 8 and every frequency (column 1) is unchanged |
| ToneTokenizer.StimulusValues | nsds_lab_to_nwb/components/stimulus/tokenizers/tone_tokenizer.py:101-115 | with the corrected dimension check: `ValueError` exactly for a rejected shape; otherwise a fresh `n x 2` table, the transpose of a two-row table, with 8 added to column 0 |
| ToneTokenizer.ParamRows | nsds_lab_to_nwb/components/stimulus/tokenizers/tone_tokenizer.py:41-42 | parameter row `i` takes its amplitude from column 0 and its frequency from column 1 |
| WNTokenizer.WNTrials | nsds_lab_to_nwb/components/stimulus/tokenizers/wn_tokenizer.py:20-59 | definition; its properties are in Tokenize, WNTrialsErr, WNEnds, WNAt, WNTrialsShape, WNWithinTrial, WNTrialAt, WNLabels |
| WNTokenizer.Tokenize | nsds_lab_to_nwb/components/stimulus/tokenizers/wn_tokenizer.py:20-59 | the loop builds exactly the specified interval list or raises the specified error |
| WNTokenizer.WNTrialsErr | nsds_lab_to_nwb/components/stimulus/tokenizers/wn_tokenizer.py:25-35 | `ValueError` exactly unless `duration < baseline_start < baseline_end`, checked first; then `IndexError` exactly when there is no onset |
| WNTokenizer.WNEnds | nsds_lab_to_nwb/components/stimulus/tokenizers/wn_tokenizer.py:33-57 | length `1 + 2n`, plus 1 exactly when `o_last + baseline_end < rec_end_time`; lead baseline `[0, onsets[0])`; the trailing baseline runs from `o_last + baseline_end` to the recording end and abuts the last in-trial baseline |
| WNTokenizer.WNAt | nsds_lab_to_nwb/components/stimulus/tokenizers/wn_tokenizer.py:37-50 | onset `m` yields its burst `[o, o+dur)` then its in-trial baseline `[o+bl_start, o+bl_end)` at positions `2m+1`, `2m+2` |
| WNTokenizer.WNTrialsShape | nsds_lab_to_nwb/components/stimulus/tokenizers/wn_tokenizer.py:33-57 | the complete shape of a successful result: lead baseline, burst and in-trial baseline per onset in order, conditional trailing baseline |
| WNTokenizer.WNWithinTrial | nsds_lab_to_nwb/components/stimulus/tokenizers/wn_tokenizer.py:25-50 | each burst starts at its onset and lasts `duration`, stops strictly before the in-trial baseline starts, and the in-trial baseline has positive width |
| WNTokenizer.WNTrialAt | nsds_lab_to_nwb/components/stimulus/tokenizers/wn_tokenizer.py:33-57 | no interval has extra columns; position `j` is a stimulus iff `j` is odd and below `2n` |
| WNTokenizer.WNLabels | nsds_lab_to_nwb/components/stimulus/tokenizers/wn_tokenizer.py:33-57 | no interval carries an extra column; position `j` is a stimulus iff `j` is odd and below `2n`, so after the lead baseline the labels alternate stimulus, baseline |
| TimitTokenizer.TimitTrials | nsds_lab_to_nwb/components/stimulus/tokenizers/timit_tokenizer.py:19-49 | definition; its properties are in Tokenize, TimitTrialsErr, TimitTrialAt, TimitChained, TimitLabels |
| TimitTokenizer.Tokenize | nsds_lab_to_nwb/components/stimulus/tokenizers/timit_tokenizer.py:19-49 | the loop, with its try/except choice of the stop time, builds exactly the specified interval list or raises the specified error |
| TimitTokenizer.TimitTrialsErr | nsds_lab_to_nwb/components/stimulus/tokenizers/timit_tokenizer.py:22-33 | `IndexError` exactly when there is no onset or fewer parameter entries than onsets |
| TimitTokenizer.TimitTrialAt | nsds_lab_to_nwb/components/stimulus/tokenizers/timit_tokenizer.py:21-47 | length is always `n + 2`; lead baseline `[0, onsets[0])` with `'none'`; stimulus `i` is `[onsets[i], onsets[i+1])` (the last one up to `onsets[0] - first_mark + audio_play_length`) with its file name; closing baseline from the audio end to the recording end |
| TimitTokenizer.TimitChained | nsds_lab_to_nwb/components/stimulus/tokenizers/timit_tokenizer.py:32-47 | the whole list is a contiguous chain: each stop is the next start; the last stimulus stops at the audio end |
| TimitTokenizer.TimitLabels | nsds_lab_to_nwb/components/stimulus/tokenizers/timit_tokenizer.py:27-47 | exactly positions `1..n` are stimuli; stimulus `i` carries `str(stim_vals[i])`; both baselines carry `'none'` |
| SingleTokenizer.ValidateNumStimOnsets | nsds_lab_to_nwb/components/stimulus/tokenizers/single_tokenizer.py:17-27 | fails, with `ValueError`, exactly when there is no onset |
| SingleTokenizer.Min | nsds_lab_to_nwb/components/stimulus/tokenizers/single_tokenizer.py:53 | `min` is one of its arguments and at most both |
| SingleTokenizer.SingleTrials | nsds_lab_to_nwb/components/stimulus/tokenizers/single_tokenizer.py:29-63 | definition; its properties are in BaselineBlock, StimulusBlockShape, StimulusBlockTiming, OnlyFirstOnset, SingleLabels |
| SingleTokenizer.BaselineBlock | nsds_lab_to_nwb/components/stimulus/tokenizers/single_tokenizer.py:31-38 | a `'baseline'` block is exactly one baseline `[0, rec_end_time)` named `'baseline'`, whatever the onsets |
| SingleTokenizer.StimulusBlockShape | nsds_lab_to_nwb/components/stimulus/tokenizers/single_tokenizer.py:41-63 | other blocks fail exactly without an onset (`IndexError`) or audio end (`TypeError`); otherwise lead baseline `[0, onsets[0])`, the named stimulus from `onsets[0]`, and a closing baseline `[audio_end, rec_end)` exactly when `audio_end < rec_end` |
| SingleTokenizer.StimulusBlockTiming | nsds_lab_to_nwb/components/stimulus/tokenizers/single_tokenizer.py:51-62 | the stimulus stops at `min(audio_end, rec_end)` and the intervals form a contiguous chain |
| SingleTokenizer.OnlyFirstOnset | nsds_lab_to_nwb/components/stimulus/tokenizers/single_tokenizer.py:41 | two onset lists with the same first onset give the same result |
| SingleTokenizer.SingleLabels | nsds_lab_to_nwb/components/stimulus/tokenizers/single_tokenizer.py:31-62 | every interval has the `stim_name` column; only the stimulus (or the single baseline-block interval) carries the name, the others `''` |
| TrialsManager.CustomColumnsMatchRows | nsds_lab_to_nwb/components/stimulus/trials_manager.py:30 | each tokenizer's custom columns are `sb` followed by the extra columns its rows carry |
| TrialsManager.SelectTokenizer | nsds_lab_to_nwb/components/stimulus/trials_manager.py:15-28 | definition; its properties are in SelectTokenizerCases, SelectTokenizerExamples |
| TrialsManager.SelectTokenizerCases | nsds_lab_to_nwb/components/stimulus/trials_manager.py:15-28 | `'continuous'` selects no tokenizer; otherwise a missing name is `TypeError`, and for a name: Tone iff `'tone'` is in the name, TIMIT iff `'timit'` but not `'tone'`, WN iff `'wn'` and neither earlier word, `ValueError` iff none |
| TrialsManager.SelectTokenizerExamples | nsds_lab_to_nwb/components/stimulus/trials_manager.py:21-28 | `'wn_tone'` selects Tone, `'wn'` selects WN, `'dmr'` is rejected |
| TrialsManager.AlreadyTokenized | nsds_lab_to_nwb/components/stimulus/trials_manager.py:51-58 | definition; its properties are in AllPresentIff, AddTrialsEffect |
| TrialsManager.AfterAddTrials | nsds_lab_to_nwb/components/stimulus/trials_manager.py:34-49 | definition; its properties are in AddTrialsEffect, AddTrialsIdempotent, AddTrials |
| TrialsManager.AllPresentIff | nsds_lab_to_nwb/components/stimulus/trials_manager.py:56-58 | the `all(...)` generator is true iff every custom column name is among the table's columns |
| TrialsManager.AddTrialsEffect | nsds_lab_to_nwb/components/stimulus/trials_manager.py:34-58 | nothing changes when not tokenizable or when the table has rows and all custom columns; otherwise all custom columns, then all trials in tokenizer order, are appended |
| TrialsManager.AddTrialsIdempotent | nsds_lab_to_nwb/components/stimulus/trials_manager.py:34-58 | once `add_trials` has left rows, a second call changes nothing |
| TrialsManager.AddTrials | nsds_lab_to_nwb/components/stimulus/trials_manager.py:34-49 | the two loops leave the trials table as specified and the stimulus list untouched |
| TrialsManager.ToneRowsFit | nsds_lab_to_nwb/components/stimulus/trials_manager.py:46-49 | every tone row carries exactly the tone columns after `sb` |
| TrialsManager.TimitRowsFit | nsds_lab_to_nwb/components/stimulus/trials_manager.py:46-49 | every TIMIT row carries exactly the TIMIT columns after `sb` |
| TrialsManager.WNRowsFit | nsds_lab_to_nwb/components/stimulus/trials_manager.py:46-49 | white-noise rows carry no column after `sb` |
| StimulusOriginator.FirstStimulusSpec | nsds_lab_to_nwb/components/stimulus/stimulus_originator.py:53-55 | the position found is a stimulus row with only baselines before it |
| StimulusOriginator.FirstStimulusAt | nsds_lab_to_nwb/components/stimulus/stimulus_originator.py:53-55 | a stimulus row with only baselines before it is the one found |
| StimulusOriginator.StimStartingTime | nsds_lab_to_nwb/components/stimulus/stimulus_originator.py:51-64 | the only possible failure is `IndexError` |
| StimulusOriginator.StimStartingTimeSpec | nsds_lab_to_nwb/components/stimulus/stimulus_originator.py:51-64 | fails iff the block is tokenizable and has no stimulus row; otherwise the start of the first stimulus row in table order (or 0.0 when not tokenizable) minus `mark_offset` minus `first_mark` |
| StimulusOriginator.StartingTimeExample | nsds_lab_to_nwb/components/stimulus/stimulus_originator.py:61-64 | a first stimulus at 5.2 s with offsets 0.05 s and 0.3 s starts the waveform at 4.85 s |
| StimulusOriginator.ToneStartingTime | nsds_lab_to_nwb/components/stimulus/stimulus_originator.py:51-64 | on tone trials the starting time is `onsets[0] + baseline_start` minus both offsets |
| StimulusOriginator.TimitStartingTime | nsds_lab_to_nwb/components/stimulus/stimulus_originator.py:51-64 | on TIMIT trials the starting time is `onsets[0]` minus both offsets |
| StimulusOriginator.Make | nsds_lab_to_nwb/components/stimulus/stimulus_originator.py:29-49 | the mark track is added at 0.0, then the trials; then either the starting-time error, or the waveform added at the starting time exactly when there is one |
| NsdsUtils.SplitBlockFolder | nsds_lab_to_nwb/utils.py:77-119 | definition; its properties are in SplitBlockFolderErrors, SplitBlockFolderInitials, SplitBlockFolderRoundTrip, LegacyFolderParsed, LegacyFolderExample |
| NsdsUtils.SplitBlockFolderErrors | nsds_lab_to_nwb/utils.py:95-114 | every rejection is `ValueError`; the folder is accepted iff it has exactly one `'_'`, no `'/'`, and non-empty digit-only animal and block ids |
| NsdsUtils.SplitBlockFolderInitials | nsds_lab_to_nwb/utils.py:99-108 | the initials are `None` iff characters 1..2 are not letters, and otherwise are exactly `block_folder[1:3]` |
| NsdsUtils.SplitBlockFolderRoundTrip | nsds_lab_to_nwb/utils.py:115-119 | for a folder starting with `R` whose second part starts with `B`, `animal_name + '_' + block_name` is the folder |
| NsdsUtils.LegacyFolderParsed | nsds_lab_to_nwb/utils.py:99-119 | a legacy folder gives no initials, `'R' + animal_id` and `'B' + block_id` |
| NsdsUtils.LegacyFolderParts | nsds_lab_to_nwb/utils.py:95-104 | `R32_B7` passes both checks, is legacy and has ids `32` and `7` |
| NsdsUtils.LegacyFolderExample | nsds_lab_to_nwb/utils.py:77-119 | `R32_B7` parses to no initials, `R32`, `B7` |
| NsdsUtils.Str2Bool | nsds_lab_to_nwb/utils.py:133-143 | definition; its properties are in Str2BoolCases, NoWordIsBoth, Str2BoolIgnoresCase |
| NsdsUtils.Str2BoolCases | nsds_lab_to_nwb/utils.py:133-143 | a bool is returned unchanged; a string is true iff its lower case is a yes-word, false iff a no-word, `ValueError` iff neither; any other value has no `lower` (`AttributeError`) |
| NsdsUtils.NoWordIsBoth | nsds_lab_to_nwb/utils.py:138-141 | no word is both a yes-word and a no-word |
| NsdsUtils.Str2BoolIgnoresCase | nsds_lab_to_nwb/utils.py:138-140 | a string and its lower case read the same |
| MetadataManager.FixBadChsFormat | nsds_lab_to_nwb/metadata/metadata_manager.py:139-161 | definition; its properties are in FixBadChsCases, FixBadChsEmpty, FixBadChsOfPieces, FixBadChsRoundTrip |
| MetadataManager.Pieces | nsds_lab_to_nwb/metadata/metadata_manager.py:147-149 | one stripped piece per comma-separated part |
| MetadataManager.FixBadChsCases | nsds_lab_to_nwb/metadata/metadata_manager.py:139-161 | a string gives `count(',') + 1` channels, each `int` of its stripped piece, and fails (with `ValueError` only) iff some piece is not an integer; NaN gives `[]`; other scalars are `TypeError` |
| MetadataManager.FixBadChsEmpty | nsds_lab_to_nwb/metadata/metadata_manager.py:147-155 | the empty string is rejected with `ValueError` |
| MetadataManager.IntTextIsPiece | nsds_lab_to_nwb/metadata/metadata_manager.py:147-149 | `str(i)` has no comma and is unchanged by `strip` |
| MetadataManager.FixBadChsOfPieces | nsds_lab_to_nwb/metadata/metadata_manager.py:144-153 | when every piece parses, the channels are the parsed pieces |
| MetadataManager.PiecesOfJoin | nsds_lab_to_nwb/metadata/metadata_manager.py:147-149 | the pieces of `','.join(str(i) for i in ids)` are the texts of the ids |
| MetadataManager.FixBadChsRoundTrip | nsds_lab_to_nwb/metadata/metadata_manager.py:144-153 | parsing `','.join(str(i) for i in ids)` gives back `ids` |
| MetadataManager.FixWeight | nsds_lab_to_nwb/metadata/metadata_manager.py:88-93 | definition; its properties are in FixWeightSpec |
| MetadataManager.FixWeightSpec | nsds_lab_to_nwb/metadata/metadata_manager.py:90-93 | the fixed weight's text holds `g`; a weight whose text held a `g` is untouched, any other becomes its text plus `'g'`; fixing twice is fixing once |
| MetadataManager.NormalName | nsds_lab_to_nwb/metadata/metadata_manager.py:100-102 | the name is `None` or a string other than `'nan'`/`'.nan'` |
| MetadataManager.NormalNameSpec | nsds_lab_to_nwb/metadata/metadata_manager.py:100-102 | a usable string name is kept; a missing, non-string or NaN-text name becomes `None`; normalising is idempotent |
| MetadataManager.CheckedStimulus | nsds_lab_to_nwb/metadata/metadata_manager.py:95-102 | the stimulus always has a `name` entry |
| MetadataManager.CheckedSubject | nsds_lab_to_nwb/metadata/metadata_manager.py:84-93 | definition; its properties are in CheckedSubjectSpec |
| MetadataManager.TextEntrySurvives | nsds_lab_to_nwb/metadata/metadata_manager.py:115-132 | definition; its properties are in CheckedDevicesSpec, ProbeNameEntryFails |
| MetadataManager.CheckedBadChs | nsds_lab_to_nwb/metadata/metadata_manager.py:112-137 | definition; its properties are in CheckedDevicesSpec, ProbeNameEntryFails |
| MetadataManager.CheckedDevices | nsds_lab_to_nwb/metadata/metadata_manager.py:110-137 | definition; its properties are in CheckedDevicesSpec, MetadataInput.FixBadChs |
| MetadataManager.CommonChecked | nsds_lab_to_nwb/metadata/metadata_manager.py:80-137 | definition; its properties are in CommonCheckedSpec, CheckedSubjectSpec, CheckedStimulusSpec, CheckedDevicesSpec, MetadataInput.CommonCheck |
| MetadataManager.CheckedSubjectSpec | nsds_lab_to_nwb/metadata/metadata_manager.py:84-93 | a missing subject becomes `{'subject_id': animal_name}`; an existing one keeps its keys and every entry but the weight; a weight present afterwards holds `g` |
| MetadataManager.CheckedStimulusSpec | nsds_lab_to_nwb/metadata/metadata_manager.py:95-102 | the name is present and normalised from the given one (`None` when there was none); the other entries are unchanged |
| MetadataManager.CheckedDevicesSpec | nsds_lab_to_nwb/metadata/metadata_manager.py:111-137 | the device loop succeeds iff both `ECoG` and `Poly` are present and each is a text entry holding all four placeholder names and not `bad_chs`, or a dictionary whose non-list `bad_chs` parses; then every dictionary entry's `bad_chs` is a list or absent, text entries are unchanged, and no other device and no key set changes |
| MetadataManager.CommonCheckedSpec | nsds_lab_to_nwb/metadata/metadata_manager.py:80-137 | subject, stimulus and session description are fixed whatever happens to the devices; the check succeeds iff there is a `device` entry whose two probes pass the device loop, and a missing `device` entry is a `KeyError` |
| MetadataManager.ProbeNameEntryFails | nsds_lab_to_nwb/metadata/metadata_manager.py:115-116 | an `ECoG` given as the bare probe name `A4x8` makes the device loop fail with `TypeError` |
| MetadataManager.MetadataInput.CommonCheck | nsds_lab_to_nwb/metadata/metadata_manager.py:80-137 | the new metadata state and outcome are those of the `common_check` specification on the old state |
| MetadataManager.MetadataInput.FixSubjectAndStimulus | nsds_lab_to_nwb/metadata/metadata_manager.py:84-108 | subject, stimulus and session description become the specified ones; devices and block metadata are untouched |
| MetadataManager.MetadataInput.FixBadChs | nsds_lab_to_nwb/metadata/metadata_manager.py:110-137 | a missing `device` entry is a `KeyError` that changes nothing; otherwise the loop over `ECoG`, `Poly` leaves the devices and the outcome of the specification, keeping fixes made before a failure |
| MetadataManager.MetadataInput.DropUnusedDevices | nsds_lab_to_nwb/metadata/metadata_manager.py:167-196 | the new state and outcome are those of the device-drop specification, a `KeyError` when there is no `device` entry |
| MetadataManager.DevicesDropped | nsds_lab_to_nwb/metadata/metadata_manager.py:167-196 | definition; its properties are in DevicesDroppedSwitches, DevicesDroppedDevices, DevicesDroppedLocations, DevicesDroppedByDefault, MetadataInput.DropUnusedDevices |
| MetadataManager.DevicesDroppedSwitches | nsds_lab_to_nwb/metadata/metadata_manager.py:188-190 | after a successful drop both switches were readable by `str2bool` (missing means false) and are stored back as booleans |
| MetadataManager.DevicesDroppedDevices | nsds_lab_to_nwb/metadata/metadata_manager.py:191-194 | a device remains iff it was present and, for `ECoG`/`Poly`, its switch is on; remaining devices are unchanged |
| MetadataManager.DevicesDroppedLocations | nsds_lab_to_nwb/metadata/metadata_manager.py:193-196 | `poly_ap_loc`/`poly_dev_loc` remain iff the polytrode is on and they were there; subject, stimulus and session are unchanged |
| MetadataManager.DevicesDroppedByDefault | nsds_lab_to_nwb/metadata/metadata_manager.py:188-194 | with both switches missing, both devices are dropped |
| MetadataManager.DetectLegacyBlock | nsds_lab_to_nwb/metadata/metadata_manager.py:432-441 | an explicit `legacy_block` wins; otherwise legacy iff the surgeon initials are `None` |
| MetadataManager.LegacyFromFolder | nsds_lab_to_nwb/metadata/metadata_manager.py:438-441 | detected from a parsed folder name, a block is legacy iff characters 1..2 of the name are not letters |
| MetadataManager.FillUnknown | nsds_lab_to_nwb/metadata/metadata_manager.py:499-501 | the listed keys are added, existing entries are untouched, and added entries are `'Unknown'` |
| MetadataManager.CheckSubject | nsds_lab_to_nwb/metadata/metadata_manager.py:491-501 | definition; its properties are in CheckSubjectSpec, CheckSubjectNamesRat |
| MetadataManager.CheckSubjectSpec | nsds_lab_to_nwb/metadata/metadata_manager.py:491-501 | existing entries never change; the id defaults to the animal name; species is added, as `'Rat'`, iff missing and the id starts with `R`; description, genotype, sex and weight are present, new ones `'Unknown'` |
| MetadataManager.CheckSubjectNamesRat | nsds_lab_to_nwb/metadata/metadata_manager.py:494-498 | a missing subject for an animal named `R...` becomes a rat |
| MetadataManager.ChMap | nsds_lab_to_nwb/metadata/metadata_manager.py:533-543 | definition; its properties are in ChMapRange, ChMapDistinct |
| MetadataManager.Offset | nsds_lab_to_nwb/metadata/metadata_manager.py:518-538 | definition; its properties are in OffsetGrows, LoadProbes |
| MetadataManager.ProbeMap | nsds_lab_to_nwb/metadata/metadata_manager.py:517-543 | definition; its properties are in ElectrodeIdsUnique, LoadProbes |
| MetadataManager.LoadProbes | nsds_lab_to_nwb/metadata/metadata_manager.py:517-543 | the nested loop with one shared counter gives each `ECoG`/`Poly` device the `ch_map` of its channels numbered from the count so far, and leaves the counter at the total channel count |
| MetadataManager.ChMapRange | nsds_lab_to_nwb/metadata/metadata_manager.py:536-543 | a device's map holds exactly its channel ids, numbered within its own range `[base, base + len)` |
| MetadataManager.ChMapDistinct | nsds_lab_to_nwb/metadata/metadata_manager.py:537-539 | without repeated channels, the `k`-th channel gets electrode id `base + k`, so ids are consecutive |
| MetadataManager.OffsetGrows | nsds_lab_to_nwb/metadata/metadata_manager.py:518-538 | the shared counter passes each probe's channel count before a later device starts |
| MetadataManager.ElectrodeIdsUnique | nsds_lab_to_nwb/metadata/metadata_manager.py:518-543 | every electrode id of an earlier probe is smaller than every id of a later probe, so ids are unique across `ECoG` and `Poly` |
| NeuralDataOriginator.IsWholeKHz | nsds_lab_to_nwb/components/neural_data/neural_data_originator.py:69 | definition; its properties are in NearestKHzSpec, NearestKHzLowers |
| NeuralDataOriginator.NearestKHz | nsds_lab_to_nwb/components/neural_data/neural_data_originator.py:70 | definition; its properties are in NearestKHzSpec, NearestKHzLowers |
| NeuralDataOriginator.ResampleAsWritten | nsds_lab_to_nwb/components/neural_data/neural_data_originator.py:66-79 | definition; its properties are in StaleRateFinding |
| NeuralDataOriginator.Resample | nsds_lab_to_nwb/components/neural_data/neural_data_originator.py:66-79 | definition; its properties are in DeviceStepRates, RunRates, StaleRateCorrected, Originator.DoResample |
| NeuralDataOriginator.NearestKHzSpec | nsds_lab_to_nwb/components/neural_data/neural_data_originator.py:69-70 | the new rate is a whole kHz, at most the rate and more than `rate - 1000`; a whole-kHz rate maps to itself |
| NeuralDataOriginator.NearestKHzLowers | nsds_lab_to_nwb/components/neural_data/neural_data_originator.py:69-70 | a rate off the whole kHz is strictly lowered |
| NeuralDataOriginator.GetRate | nsds_lab_to_nwb/components/neural_data/neural_data_originator.py:100-105 | definition; its properties are in RunRates, StaleRateFinding, StaleRateCorrected |
| NeuralDataOriginator.ElectrodeIds | nsds_lab_to_nwb/components/neural_data/neural_data_originator.py:95-96 | one electrode id per bad channel, `ch_map[i]` in `bad_chs` order |
| NeuralDataOriginator.RStripJoinInts | nsds_lab_to_nwb/components/neural_data/neural_data_originator.py:95-96 | `rstrip(', ')` removes nothing from a `', '`-join of integers |
| NeuralDataOriginator.GetComments | nsds_lab_to_nwb/components/neural_data/neural_data_originator.py:89-98 | definition; its properties are in GetCommentsSpec, RStripJoinInts |
| NeuralDataOriginator.GetCommentsSpec | nsds_lab_to_nwb/components/neural_data/neural_data_originator.py:89-98 | `''` without `bad_chs`; otherwise `'bad_channels=['` + the electrode ids joined by `', '` + `']'`, failing (with `KeyError`) iff a bad channel is not in `ch_map` |
| NeuralDataOriginator.DeviceStepWith | nsds_lab_to_nwb/components/neural_data/neural_data_originator.py:32-64 | definition; its properties are in DeviceStepRates, Originator.Record |
| NeuralDataOriginator.RunWith | nsds_lab_to_nwb/components/neural_data/neural_data_originator.py:27-64 | definition; its properties are in RunStopsAtFailure, RunRates, RunSkips, StaleRateFinding, StaleRateCorrected, Originator.Make |
| NeuralDataOriginator.RunStopsAtFailure | nsds_lab_to_nwb/components/neural_data/neural_data_originator.py:28-64 | once a device has raised, the later devices change nothing |
| NeuralDataOriginator.DeviceStepRates | nsds_lab_to_nwb/components/neural_data/neural_data_originator.py:37-64 | with the corrected `resample`, one device keeps "no resampled rate while `resample_flag` is off" and labels the series it adds with the rate its data is at |
| NeuralDataOriginator.RunRates | nsds_lab_to_nwb/components/neural_data/neural_data_originator.py:27-79 | with the corrected `resample`, every series `make` adds is labelled with the rate its data is sampled at |
| NeuralDataOriginator.RunSkips | nsds_lab_to_nwb/components/neural_data/neural_data_originator.py:28-64 | a successful `make` adds exactly one series per device that is neither a text annotation nor without data, in device order |
| NeuralDataOriginator.StaleRateFinding | nsds_lab_to_nwb/components/neural_data/neural_data_originator.py:66-79 | as written, a 2000 Hz device after a 3051.7578125 Hz device is labelled 3000 Hz |
| NeuralDataOriginator.StaleRateCorrected | nsds_lab_to_nwb/components/neural_data/neural_data_originator.py:66-79 | with the correction the same devices are labelled 3000 Hz and 2000 Hz |
| NeuralDataOriginator.Originator.constructor | nsds_lab_to_nwb/components/neural_data/neural_data_originator.py:13-18 | the flag as given, no hardware rate, no resampled rate |
| NeuralDataOriginator.Originator.DoResample | nsds_lab_to_nwb/components/neural_data/neural_data_originator.py:66-79 | the fields change as the corrected `resample` says; the data ends at the nearest kHz when off it, otherwise at the hardware rate |
| NeuralDataOriginator.Originator.Record | nsds_lab_to_nwb/components/neural_data/neural_data_originator.py:32-64 | one device of the loop, with the corrected `resample`: the fields, the outcome and the added series are those of the one-device specification |
| NeuralDataOriginator.Originator.Make | nsds_lab_to_nwb/components/neural_data/neural_data_originator.py:27-64 | with the corrected `resample`, the fields, the outcome and the series appended to the acquisition are those of the `make` specification; trials and stimulus are untouched |
| PyStrings.ContainsIff | nsds_lab_to_nwb/components/stimulus/trials_manager.py:21-25 | `p in s` holds iff `p` occurs at some position of `s` |
| PyStrings.Count | nsds_lab_to_nwb/utils.py:95-97 | `count` is at most the length and zero iff the character is absent |
| PyStrings.SliceFrom | nsds_lab_to_nwb/utils.py:103-108 | `s[i:]` is empty past the end and otherwise the tail from `i` |
| PyStrings.Slice | nsds_lab_to_nwb/utils.py:99 | `s[i:j]` is the clipped range, character by character |
| PyStrings.SplitParts | nsds_lab_to_nwb/metadata/metadata_manager.py:147 | `split` gives one more part than separators, and no part holds one |
| PyStrings.JoinSplit | nsds_lab_to_nwb/metadata/metadata_manager.py:147 | joining the parts of `split(c)` with `c` gives back the string |
| PyStrings.SplitJoin | nsds_lab_to_nwb/metadata/metadata_manager.py:147 | splitting undoes joining parts that hold no separator |
| PyStrings.SplitOnce | nsds_lab_to_nwb/utils.py:102 | a string with one separator splits into the text before and after it |
| PyStrings.SplitAround | nsds_lab_to_nwb/utils.py:102 | `a + c + b` with no `c` in either side splits into `[a, b]` |
| PyStrings.Lower | nsds_lab_to_nwb/utils.py:138 | `lower` keeps the length and lowers each character |
| PyStrings.LStrip | nsds_lab_to_nwb/metadata/metadata_manager.py:149 | `lstrip` removes exactly the leading stripped characters |
| PyStrings.RStrip | nsds_lab_to_nwb/components/neural_data/neural_data_originator.py:96 | `rstrip` removes exactly the trailing stripped characters |
| PyStrings.StripShape | nsds_lab_to_nwb/metadata/metadata_manager.py:149 | `strip` keeps a contiguous middle part and removes only whitespace around it |
| PyStrings.StripEdges | nsds_lab_to_nwb/metadata/metadata_manager.py:149 | what `strip` keeps neither begins nor ends with whitespace |
| PyStrings.StripUnpadded | nsds_lab_to_nwb/metadata/metadata_manager.py:149 | `strip` leaves an unpadded string as it is |
| PyStrings.IntToString | nsds_lab_to_nwb/components/neural_data/neural_data_originator.py:95 | `str(i)` ends with a digit and starts with one iff `i >= 0` |
| PyStrings.IntToStringChars | nsds_lab_to_nwb/components/neural_data/neural_data_originator.py:95 | `str(i)` is digits after an optional leading minus |
| PyStrings.JoinLast | nsds_lab_to_nwb/components/neural_data/neural_data_originator.py:95-96 | a join ends with the last character of its last part |
| PyStrings.ParseIntOfNumeric | nsds_lab_to_nwb/metadata/metadata_manager.py:151 | `int` reads a digit string as its decimal value |
| PyStrings.ParseIntOfNegative | nsds_lab_to_nwb/metadata/metadata_manager.py:151 | `int` reads `-` and digits as the negated value |
| PyStrings.ParseIntToString | nsds_lab_to_nwb/metadata/metadata_manager.py:151 | `int(str(i)) == i` |

## Left out

- File and library I/O is not modelled: reading raw TDT/HTK data, WAV files, `.mat` files and YAML files, and writing NWB files. The model takes their results as parameters: the mark track, the onsets, the parameter table, the tokenizer output, the waveform (`None` when there is no waveform) and the data's sampling rate.
- StimulusOriginator.Make: the waveform lookup is taken as `Some` series or `None`, which is what the guard at stimulus_originator.py:48 expects. The code as written does not deliver that: `get_stim_wav` (wav_manager.py:21-27) takes no `starting_time` argument, which line 47 passes, and it returns a pair, `(None, None)` or `(stim_wav, rate)`, never `None` and never a series. The model's `None` stands for "no waveform" in that intended sense.
- pynwb objects are reduced to the lists `NwbContent` keeps: trial column names, trial rows, stimulus series and acquisition series. pynwb's own checks, such as duplicate column names, are not modelled. A missing trials table is treated as an empty one.
- Floating-point rounding is not modelled: times and rates are exact reals.
- `isalpha`, `isnumeric`, `lower` and `isspace` follow ASCII letters and digits and the Python whitespace set. Python's Unicode digits and letters are not modelled, and neither is `int()` of non-ASCII digits.
- `base_tokenizer.py` and `stimulus_tokenizer.py` are not part of this model. The call sites cannot run as written, so each tokenizer's `_tokenize` is modelled directly on its inputs:
  - `trials_manager.py:43` passes three arguments to `tokenize`, which takes two;
  - `stimulus_originator.py:42` calls `add_trials` without the `stim_vals` argument;
  - `get_stim_wav` is called with a keyword it does not take.
- TimitTokenizer.Tokenize: `str(stim_vals[i])` is given as a text per onset, because the table's element type is not known here.
- ToneTokenizer.StimulusValues: the `.T` transpose is modelled as a copy into a new array. NumPy's view semantics are not modelled.
- WNTokenizer.WNWithinTrial: the configuration check does not force `duration > 0`. Only the in-trial baseline is proved to have positive width; the burst's width is exactly `duration`.
- `common_check` placeholder defaults are not modelled for dictionary entries, where the keys `description`/`descriptions`, `location`, `imp` and `filtering` only fill text for the file. For a text entry the model keeps the `TypeError` those assignments raise (`MetadataManager.TextEntrySurvives`).
- Only the device drop of `extra_cleanup` is modelled. Its block-id and animal-number checks and its conversion/resolution defaults are not.
- In `__load_probes`, these steps are not modelled:
  - a string device entry becoming a dictionary;
  - the `float` conversions;
  - the probe YAML read;
  - electrode positions (`x`, `y`, `z`).

  Channel ids are given per device.
- MetadataManager.ChMap: `ch_map` is an `OrderedDict`, and its insertion order is read when the electrode table is built. The model's `map<int, nat>` keeps only which channel has which electrode id, not that order.
- `_get_description` (text formatting) is not modelled.
- `electrode_table_regions` lookups in `make` are not modelled.
- In `make`, only the rate at which the data ends up is modelled. The resampling signal processing itself is not.
- NeuralDataOriginator.Originator.DoResample requires a hardware rate. Python would raise `TypeError` on `None / 1000`, but `make` always sets the rate first.
- MetadataManager.CheckSubject works on dictionary values. The in-place updates of the nested dictionary in `__check_subject`, and their aliasing, are not modelled.
- MetadataManager.FixBadChsFormat: `np.isnan` on a list is modelled only by its outcome: `ValueError` for more than one element, otherwise `TypeError`.
- Logging, the scripts, the `get_*_path` environment lookups, `get_software_info` and the time zone helpers are not modelled.

## Findings

| source | as written | input that shows it | evidently intended | confidence | as-written member | corrected member |
|---|---|---|---|---|---|---|
| nsds_lab_to_nwb/components/stimulus/tokenizers/tone_tokenizer.py:103 | `not (len(shape) == 2) and (2 in shape)` parses as `(not len(shape) == 2) and (2 in shape)`, so no two-dimensional table is ever rejected | a 5 x 3 `stimVls` table passes the check, and its third column is silently ignored | reject unless the table is two-dimensional with 2 rows or 2 columns | not executed | ToneTokenizer.ShapeGuardAsWritten, ToneTokenizer.ShapeGuardFinding | ToneTokenizer.ShapeRejected, ToneTokenizer.StimulusValues |
| nsds_lab_to_nwb/components/neural_data/neural_data_originator.py:75-79 | a whole-kHz rate clears `resample_flag` but leaves `resample_rate` as an earlier device set it; `_get_rate` then reports that stale rate | `ECoG` at 3051.7578125 Hz, then `Poly` at 2000 Hz, with resampling on: the `Poly` series holds 2000 Hz data labelled 3000 Hz | no rate chosen for an earlier device survives; each series is labelled with its data's rate | not executed | NeuralDataOriginator.ResampleAsWritten, NeuralDataOriginator.StaleRateFinding | NeuralDataOriginator.Resample, NeuralDataOriginator.RunRates, NeuralDataOriginator.StaleRateCorrected, NeuralDataOriginator.Originator.DoResample, NeuralDataOriginator.Originator.Record, NeuralDataOriginator.Originator.Make |
