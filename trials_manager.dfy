/** Choosing the tokenizer and filling the trials table
    (nsds_lab_to_nwb/components/stimulus/trials_manager.py).

    A continuous stimulus is not tokenized at all.  Otherwise the stimulus name
    picks the tokenizer by substring, `'tone'` before `'timit'` before `'wn'`.
    `add_trials` adds the tokenizer's columns and then its rows, unless the block
    is not tokenizable or its trials table already has rows and all the columns. */
module TrialsManager {
  import opened Wrappers
  import opened Trials
  import opened NwbContainer
  import PyStrings
  import ToneTokenizer
  import TimitTokenizer
  import WNTokenizer

  datatype Kind = Tone | Timit | WhiteNoise

  /** The state `__init__` leaves: `tokenizable` and, when it is set, the tokenizer. */
  datatype Manager = Continuous | Discrete(kind: Kind)

  /** `custom_trial_columns` of each tokenizer, by column name. */
  function CustomColumns(k: Kind): (cols: seq<string>)
    ensures |cols| > 0 && cols[0] == "sb"
  {
    match k
    case Tone => ["sb", "frq", "amp"]
    case Timit => ["sb", "sample_filename"]
    case WhiteNoise => ["sb"]
  }

  /** Each tokenizer's columns are `sb` followed by the extra columns its rows carry. */
  lemma CustomColumnsMatchRows()
    ensures CustomColumns(Tone) == ["sb"] + ToneTokenizer.ExtraColumns
    ensures CustomColumns(Timit) == ["sb"] + TimitTokenizer.ExtraColumns
    ensures CustomColumns(WhiteNoise) == ["sb"]
  {
  }

  /** `TrialsManager.__init__`: `stimType` is the configured `type` and `name` the
      configured `name` (`None` after the metadata clean-up has found none, and then
      `'tone' in None` raises `TypeError`). */
  function SelectTokenizer(stimType: string, name: Option<string>): Result<Manager>
  {
    if stimType == "continuous" then Ok(Continuous)
    else if name.None? then Err(TypeError)
    else if PyStrings.Contains(name.value, "tone") then Ok(Discrete(Tone))
    else if PyStrings.Contains(name.value, "timit") then Ok(Discrete(Timit))
    else if PyStrings.Contains(name.value, "wn") then Ok(Discrete(WhiteNoise))
    else Err(ValueError)
  }

  /** A continuous stimulus is never tokenized, whatever its name; otherwise each
      tokenizer is chosen exactly when its word is in the name and no earlier word
      is, and an unknown name raises `ValueError`. */
  lemma SelectTokenizerCases(stimType: string, name: Option<string>)
    ensures stimType == "continuous" ==> SelectTokenizer(stimType, name) == Ok(Continuous)
    ensures stimType != "continuous" ==> SelectTokenizer(stimType, name) != Ok(Continuous)
    ensures stimType != "continuous" ==>
              (SelectTokenizer(stimType, name) == Err(TypeError) <==> name.None?)
    ensures stimType != "continuous" && name.Some? ==>
              var s := name.value;
              (SelectTokenizer(stimType, name) == Ok(Discrete(Tone)) <==> PyStrings.Contains(s, "tone")) &&
              (SelectTokenizer(stimType, name) == Ok(Discrete(Timit)) <==>
                 !PyStrings.Contains(s, "tone") && PyStrings.Contains(s, "timit")) &&
              (SelectTokenizer(stimType, name) == Ok(Discrete(WhiteNoise)) <==>
                 !PyStrings.Contains(s, "tone") && !PyStrings.Contains(s, "timit") && PyStrings.Contains(s, "wn")) &&
              (SelectTokenizer(stimType, name) == Err(ValueError) <==>
                 !PyStrings.Contains(s, "tone") && !PyStrings.Contains(s, "timit") && !PyStrings.Contains(s, "wn"))
  {
  }

  /** `'tone'` wins over `'wn'` in a name holding both; a name holding none of the
      words is rejected. */
  lemma SelectTokenizerExamples()
    ensures SelectTokenizer("discrete", Some("wn_tone")) == Ok(Discrete(Tone))
    ensures SelectTokenizer("discrete", Some("wn")) == Ok(Discrete(WhiteNoise))
    ensures SelectTokenizer("discrete", Some("dmr")) == Err(ValueError)
  {
    assert "wn_tone"[3..][..4] == "tone";
    assert "wn"[..2] == "wn";
    assert "dmr"[..2] != "wn" by { assert "dmr"[..2][0] == 'd'; }
    assert "dmr"[1..] == "mr";
    assert "mr"[..2] != "wn" by { assert "mr"[..2][0] == 'm'; }
    assert "mr"[1..] == "r";
  }

  /** `all(name in colnames for name in custom)`, one column at a time. */
  function AllPresent(custom: seq<string>, columns: seq<string>): bool
  {
    if custom == [] then true else custom[0] in columns && AllPresent(custom[1..], columns)
  }

  lemma {:induction false} AllPresentIff(custom: seq<string>, columns: seq<string>)
    ensures AllPresent(custom, columns) <==> forall k :: 0 <= k < |custom| ==> custom[k] in columns
  {
    if custom != [] {
      AllPresentIff(custom[1..], columns);
      assert forall k :: 1 <= k < |custom| ==> custom[k] == custom[1..][k - 1];
    }
  }

  /** The trials table: its custom column names and its rows. */
  datatype TrialTable = TrialTable(columns: seq<string>, rows: seq<Trial>)

  /** `_already_tokenized`: the table has rows and all the custom columns. */
  function AlreadyTokenized(t: TrialTable, custom: seq<string>): bool
  {
    |t.rows| > 0 && AllPresent(custom, t.columns)
  }

  /** The trials table after `add_trials` with the tokenizer output `trials`. */
  function AfterAddTrials(m: Manager, t: TrialTable, trials: seq<Trial>): TrialTable
  {
    if m.Continuous? || AlreadyTokenized(t, CustomColumns(m.kind)) then t
    else TrialTable(t.columns + CustomColumns(m.kind), t.rows + trials)
  }

  /** Nothing changes for a continuous stimulus or an already tokenized table;
      otherwise all custom columns are added after the existing ones and all rows
      after the existing rows, in tokenizer order. */
  lemma AddTrialsEffect(m: Manager, t: TrialTable, trials: seq<Trial>)
    ensures m.Continuous? ==> AfterAddTrials(m, t, trials) == t
    ensures m.Discrete? && |t.rows| > 0 && (forall k :: 0 <= k < |CustomColumns(m.kind)| ==> CustomColumns(m.kind)[k] in t.columns) ==>
              AfterAddTrials(m, t, trials) == t
    ensures m.Discrete? && (|t.rows| == 0 || exists k :: 0 <= k < |CustomColumns(m.kind)| && CustomColumns(m.kind)[k] !in t.columns) ==>
              AfterAddTrials(m, t, trials) == TrialTable(t.columns + CustomColumns(m.kind), t.rows + trials)
  {
    if m.Discrete? {
      AllPresentIff(CustomColumns(m.kind), t.columns);
    }
  }

  /** Once `add_trials` has left rows in the table, a second `add_trials` changes
      nothing, whatever the tokenizer returns the second time. */
  lemma AddTrialsIdempotent(m: Manager, t: TrialTable, trials: seq<Trial>, again: seq<Trial>)
    requires |AfterAddTrials(m, t, trials).rows| > 0
    ensures AfterAddTrials(m, AfterAddTrials(m, t, trials), again) == AfterAddTrials(m, t, trials)
  {
    if m.Discrete? {
      var once := AfterAddTrials(m, t, trials);
      var custom := CustomColumns(m.kind);
      if once != t {
        AllPresentIff(custom, once.columns);
        forall k | 0 <= k < |custom| ensures custom[k] in once.columns {
          assert custom[k] == once.columns[|t.columns| + k];
        }
      }
    }
  }

  /** The trials table of a file. */
  function TableOf(nwb: NwbContent): TrialTable
    reads nwb
  {
    TrialTable(nwb.trialColumns, nwb.trials)
  }

  /** `TrialsManager.add_trials`, with the tokenizer output given as `trials`. */
  method AddTrials(m: Manager, nwb: NwbContent, trials: seq<Trial>)
    modifies nwb
    ensures TableOf(nwb) == AfterAddTrials(m, old(TableOf(nwb)), trials)
    ensures nwb.stimulus == old(nwb.stimulus) && nwb.acquisition == old(nwb.acquisition)
  {
    if m.Continuous? {
      return;
    }
    if AlreadyTokenized(TableOf(nwb), CustomColumns(m.kind)) {
      return;
    }
    var columns := CustomColumns(m.kind);
    var i := 0;
    while i < |columns|
      invariant i <= |columns|
      invariant nwb.trialColumns == old(nwb.trialColumns) + columns[..i]
      invariant nwb.trials == old(nwb.trials) && nwb.stimulus == old(nwb.stimulus)
      invariant nwb.acquisition == old(nwb.acquisition)
    {
      nwb.AddTrialColumn(columns[i]);
      assert columns[..i + 1] == columns[..i] + [columns[i]];
      i := i + 1;
    }
    assert columns[..i] == columns;
    var j := 0;
    while j < |trials|
      invariant j <= |trials|
      invariant nwb.trialColumns == old(nwb.trialColumns) + columns
      invariant nwb.trials == old(nwb.trials) + trials[..j]
      invariant nwb.stimulus == old(nwb.stimulus) && nwb.acquisition == old(nwb.acquisition)
    {
      nwb.AddTrial(trials[j]);
      assert trials[..j + 1] == trials[..j] + [trials[j]];
      j := j + 1;
    }
    assert trials[..j] == trials;
  }

  /** The rows a tone tokenizer produces carry exactly the tone columns after `sb`. */
  lemma ToneRowsFit(onsets: seq<real>, params: seq<ToneTokenizer.ToneParam>, c: ToneTokenizer.ToneConfig, recEnd: real)
    requires ToneTokenizer.ToneTrials(onsets, params, c, recEnd).Ok?
    ensures ExtrasAre(ToneTokenizer.ToneTrials(onsets, params, c, recEnd).value, CustomColumns(Tone)[1..])
  {
    ToneTokenizer.ToneLabels(onsets, params, c, recEnd);
  }

  /** The rows a TIMIT tokenizer produces carry exactly the TIMIT columns after `sb`. */
  lemma TimitRowsFit(onsets: seq<real>, files: seq<string>, firstMark: real, playLength: real, recEnd: real)
    requires TimitTokenizer.TimitTrials(onsets, files, firstMark, playLength, recEnd).Ok?
    ensures ExtrasAre(TimitTokenizer.TimitTrials(onsets, files, firstMark, playLength, recEnd).value, CustomColumns(Timit)[1..])
  {
    TimitTokenizer.TimitLabels(onsets, files, firstMark, playLength, recEnd);
  }

  /** The rows a white-noise tokenizer produces carry no column after `sb`. */
  lemma WNRowsFit(onsets: seq<real>, c: WNTokenizer.WNConfig, recEnd: real)
    requires WNTokenizer.WNTrials(onsets, c, recEnd).Ok?
    ensures ExtrasAre(WNTokenizer.WNTrials(onsets, c, recEnd).value, CustomColumns(WhiteNoise)[1..])
  {
    WNTokenizer.WNLabels(onsets, c, recEnd);
  }
}
