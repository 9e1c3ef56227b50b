/** The single-trial tokenizer for continuous stimuli (DMR) and baseline blocks
    (nsds_lab_to_nwb/components/stimulus/tokenizers/single_tokenizer.py).

    A baseline block is one baseline interval over the whole recording.  Any other
    block has a lead baseline up to the first onset, one stimulus interval from the
    first onset to the audio end or the recording end, whichever comes first, and a
    closing baseline when the audio ends before the recording does.  Every interval
    carries the `stim_name` column. */
module SingleTokenizer {
  import opened Wrappers
  import opened Trials

  /** The stimulus name that marks a block without a stimulus. */
  const BaselineName := "baseline"

  /** The extra columns of this tokenizer (besides `sb`). */
  const ExtraColumns: seq<string> := ["stim_name"]

  function NameCell(name: string): (e: seq<Cell>)
    ensures ColumnNames(e) == ExtraColumns
  {
    [Cell("stim_name", name)]
  }

  /** `_validate_num_stim_onsets`: only the first onset is used, but there must be
      one. */
  function ValidateNumStimOnsets(onsets: seq<real>): (o: Outcome)
    ensures o.Fail? <==> |onsets| == 0
    ensures o.Fail? ==> o.error == ValueError
  {
    if |onsets| == 0 then Fail(ValueError) else Pass
  }

  /** Python's `min(a, b)` on two numbers: the first unless the second is smaller. */
  function Min(a: real, b: real): (m: real)
    ensures m <= a && m <= b && (m == a || m == b)
  {
    if b < a then b else a
  }

  /** The whole output of `_tokenize`, or the exception it raises.  `audioEnd` is the
      `audio_end_time` argument, `None` when the caller leaves it out: then `min`
      fails with `TypeError`. */
  function SingleTrials(name: string, onsets: seq<real>, recEnd: real, audioEnd: Option<real>): Result<seq<Trial>>
  {
    if name == BaselineName then Ok([Trial(0.0, recEnd, Baseline, NameCell(name))])
    else if |onsets| == 0 then Err(IndexError)
    else if audioEnd.None? then Err(TypeError)
    else
      var start := onsets[0];
      var a := audioEnd.value;
      Ok([Trial(0.0, start, Baseline, NameCell("")), Trial(start, Min(a, recEnd), Stimulus, NameCell(name))] +
         (if a < recEnd then [Trial(a, recEnd, Baseline, NameCell(""))] else []))
  }

  /** A baseline block is one baseline interval over the whole recording, named
      `'baseline'`, whatever the onsets. */
  lemma BaselineBlock(onsets: seq<real>, recEnd: real, audioEnd: Option<real>)
    ensures SingleTrials(BaselineName, onsets, recEnd, audioEnd) ==
              Ok([Trial(0.0, recEnd, Baseline, [Cell("stim_name", "baseline")])])
  {
  }

  /** Any other block fails exactly when there is no onset (`IndexError`) or no audio
      end time (`TypeError`); otherwise it has two intervals, or three when the audio
      ends before the recording. */
  lemma StimulusBlockShape(name: string, onsets: seq<real>, recEnd: real, audioEnd: Option<real>)
    requires name != BaselineName
    ensures SingleTrials(name, onsets, recEnd, audioEnd).Err? <==> |onsets| == 0 || audioEnd.None?
    ensures |onsets| == 0 ==> SingleTrials(name, onsets, recEnd, audioEnd) == Err(IndexError)
    ensures |onsets| > 0 && audioEnd.None? ==> SingleTrials(name, onsets, recEnd, audioEnd) == Err(TypeError)
    ensures SingleTrials(name, onsets, recEnd, audioEnd).Ok? ==>
              var r := SingleTrials(name, onsets, recEnd, audioEnd).value;
              |r| == (if audioEnd.value < recEnd then 3 else 2) &&
              r[0] == Trial(0.0, onsets[0], Baseline, [Cell("stim_name", "")]) &&
              r[1].start == onsets[0] && r[1].sb == Stimulus && r[1].extras == [Cell("stim_name", name)] &&
              (|r| == 3 ==> r[2] == Trial(audioEnd.value, recEnd, Baseline, [Cell("stim_name", "")]))
  {
  }

  /** The stimulus stops at the audio end or the recording end, whichever is first;
      the lead baseline abuts it, and so does the closing baseline when there is one. */
  lemma StimulusBlockTiming(name: string, onsets: seq<real>, recEnd: real, audioEnd: Option<real>)
    requires SingleTrials(name, onsets, recEnd, audioEnd).Ok?
    requires name != BaselineName
    ensures var r := SingleTrials(name, onsets, recEnd, audioEnd).value;
            r[1].stop <= recEnd && r[1].stop <= audioEnd.value &&
            (r[1].stop == recEnd || r[1].stop == audioEnd.value) &&
            Chained(r)
  {
    var r := SingleTrials(name, onsets, recEnd, audioEnd).value;
    assert Abuts(r[0], r[1]);
    if |r| == 3 {
      assert Abuts(r[1], r[2]);
    }
  }

  /** Only the first onset matters. */
  lemma OnlyFirstOnset(name: string, onsets: seq<real>, others: seq<real>, recEnd: real, audioEnd: Option<real>)
    requires |onsets| > 0 && |others| > 0 && onsets[0] == others[0]
    ensures SingleTrials(name, onsets, recEnd, audioEnd) == SingleTrials(name, others, recEnd, audioEnd)
  {
  }

  /** Every interval carries the `stim_name` column; only the stimulus interval, or the
      single interval of a baseline block, carries the name. */
  lemma SingleLabels(name: string, onsets: seq<real>, recEnd: real, audioEnd: Option<real>)
    requires SingleTrials(name, onsets, recEnd, audioEnd).Ok?
    ensures var r := SingleTrials(name, onsets, recEnd, audioEnd).value;
            ExtrasAre(r, ExtraColumns) &&
            forall j :: 0 <= j < |r| ==>
              (r[j].sb == Stimulus <==> name != BaselineName && j == 1) &&
              r[j].extras[0].text == (if name == BaselineName || j == 1 then name else "")
  {
  }
}
