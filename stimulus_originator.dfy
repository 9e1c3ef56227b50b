/** Adding the stimulus to the file
    (nsds_lab_to_nwb/components/stimulus/stimulus_originator.py).

    `make` adds the mark track at time 0.0, then the trials, then, when there is
    one, the stimulus waveform, which starts at the first stimulus trial moved back
    by the mark offset and the time from the start of the stimulus recording to its
    first mark. */
module StimulusOriginator {
  import opened Wrappers
  import opened Trials
  import opened NwbContainer
  import opened TrialsManager
  import ToneTokenizer
  import TimitTokenizer

  /** The configuration keys `mark_offset` and `first_mark`, in seconds. */
  datatype Offsets = Offsets(markOffset: real, firstMark: real)

  /** The position of the first stimulus row, `|trials|` when there is none
      (see `FirstStimulusSpec`). */
  function FirstStimulus(trials: seq<Trial>): (k: nat)
    ensures k <= |trials|
  {
    if trials == [] then 0
    else if trials[0].sb == Stimulus then 0
    else 1 + FirstStimulus(trials[1..])
  }

  /** `FirstStimulus` finds a stimulus row with only baselines before it. */
  lemma {:induction false} FirstStimulusSpec(trials: seq<Trial>)
    ensures FirstStimulus(trials) < |trials| ==> trials[FirstStimulus(trials)].sb == Stimulus
    ensures forall j :: 0 <= j < FirstStimulus(trials) ==> trials[j].sb == Baseline
  {
    if trials != [] && trials[0].sb != Stimulus {
      FirstStimulusSpec(trials[1..]);
      forall j | 1 <= j < FirstStimulus(trials) ensures trials[j].sb == Baseline {
        assert trials[j] == trials[1..][j - 1];
      }
    }
  }

  /** A stimulus row with only baselines before it is the first stimulus. */
  lemma {:induction false} FirstStimulusAt(trials: seq<Trial>, k: nat)
    requires k < |trials| && trials[k].sb == Stimulus
    requires forall j :: 0 <= j < k ==> trials[j].sb == Baseline
    ensures FirstStimulus(trials) == k
  {
    if k > 0 {
      assert trials[0].sb == Baseline;
      assert forall j :: 0 <= j < k - 1 ==> trials[1..][j] == trials[j + 1];
      FirstStimulusAt(trials[1..], k - 1);
    }
  }

  /** `_get_stim_starting_time`: for a tokenizable block the start of the first row
      labelled `'s'` (`IndexError` when there is none), otherwise 0.0, minus both
      offsets.  `add_trials` always creates the trials table and its columns before
      this is read, so the only failure is the `IndexError` of `.values[0]`. */
  function StimStartingTime(tokenizable: bool, trials: seq<Trial>, o: Offsets): (r: Result<real>)
    ensures r.Err? ==> r.error == IndexError
  {
    var reference: Result<real> :=
      if tokenizable then
        var k := FirstStimulus(trials);
        if k == |trials| then Err(IndexError) else Ok(trials[k].start)
      else Ok(0.0);
    if reference.Err? then Err(IndexError)
    else Ok(reference.value - o.markOffset - o.firstMark)
  }

  /** The starting time fails exactly for a tokenizable block without a stimulus row;
      it is the start of the first stimulus row in table order minus both offsets,
      or `0.0` minus both offsets when the block is not tokenizable. */
  lemma StimStartingTimeSpec(tokenizable: bool, trials: seq<Trial>, o: Offsets)
    ensures StimStartingTime(tokenizable, trials, o).Err? <==>
              tokenizable && forall j :: 0 <= j < |trials| ==> trials[j].sb == Baseline
    ensures !tokenizable ==> StimStartingTime(tokenizable, trials, o) == Ok(0.0 - o.markOffset - o.firstMark)
    ensures tokenizable && StimStartingTime(tokenizable, trials, o).Ok? ==>
              exists k :: 0 <= k < |trials| && trials[k].sb == Stimulus &&
                          (forall j :: 0 <= j < k ==> trials[j].sb == Baseline) &&
                          StimStartingTime(tokenizable, trials, o).value == trials[k].start - o.markOffset - o.firstMark
  {
    FirstStimulusSpec(trials);
    var k := FirstStimulus(trials);
    if tokenizable && k < |trials| {
      assert trials[k].sb == Stimulus;
    }
  }

  /** The worked example: a first stimulus at 5.2 s, a mark offset of 0.05 s and a
      first mark at 0.3 s start the waveform at 4.85 s. */
  lemma StartingTimeExample()
    ensures StimStartingTime(true, [Trial(0.0, 5.2, Baseline, []), Trial(5.2, 6.0, Stimulus, []),
                                    Trial(6.0, 7.0, Stimulus, [])], Offsets(0.05, 0.3)) == Ok(4.85)
  {
    var trials := [Trial(0.0, 5.2, Baseline, []), Trial(5.2, 6.0, Stimulus, []), Trial(6.0, 7.0, Stimulus, [])];
    assert trials[1..][0].sb == Stimulus;
    assert FirstStimulus(trials) == 1;
  }

  /** On a tone block, the waveform starts `baseline_start` seconds after the first
      onset, moved back by both offsets. */
  lemma ToneStartingTime(onsets: seq<real>, params: seq<ToneTokenizer.ToneParam>, c: ToneTokenizer.ToneConfig,
                         recEnd: real, o: Offsets)
    requires ToneTokenizer.ToneTrials(onsets, params, c, recEnd).Ok?
    ensures StimStartingTime(true, ToneTokenizer.ToneTrials(onsets, params, c, recEnd).value, o) ==
              Ok(onsets[0] + c.baselineStart - o.markOffset - o.firstMark)
  {
    var r := ToneTokenizer.ToneTrials(onsets, params, c, recEnd).value;
    ToneTokenizer.ToneAt(onsets, params, c, recEnd, 0);
    ToneTokenizer.ToneEnds(onsets, params, c, recEnd);
    FirstStimulusAt(r, 2);
  }

  /** On a TIMIT block, the waveform starts at the first onset, moved back by both
      offsets. */
  lemma TimitStartingTime(onsets: seq<real>, files: seq<string>, firstMark: real, playLength: real,
                          recEnd: real, o: Offsets)
    requires TimitTokenizer.TimitTrials(onsets, files, firstMark, playLength, recEnd).Ok?
    ensures StimStartingTime(true, TimitTokenizer.TimitTrials(onsets, files, firstMark, playLength, recEnd).value, o) ==
              Ok(onsets[0] - o.markOffset - o.firstMark)
  {
    var r := TimitTokenizer.TimitTrials(onsets, files, firstMark, playLength, recEnd).value;
    TimitTokenizer.TimitTrialAt(onsets, files, firstMark, playLength, recEnd, 0);
    TimitTokenizer.TimitTrialAt(onsets, files, firstMark, playLength, recEnd, 1);
    FirstStimulusAt(r, 1);
  }

  /** `StimulusOriginator.make`.  The mark track, the tokenizer output and the
      intended waveform lookup (`None` when there is no waveform) are given;
      `make` fails when the starting time cannot be computed, after the marks and
      the trials have been added. */
  method Make(m: Manager, o: Offsets, nwb: NwbContent, markTrack: string, trials: seq<Trial>, wav: Option<string>)
    returns (outcome: Outcome)
    modifies nwb
    ensures TableOf(nwb) == AfterAddTrials(m, old(TableOf(nwb)), trials)
    ensures nwb.acquisition == old(nwb.acquisition)
    ensures var start := StimStartingTime(m.Discrete?, nwb.trials, o);
            var marked := old(nwb.stimulus) + [Series(markTrack, 0.0)];
            (start.Err? ==> outcome == Fail(start.error) && nwb.stimulus == marked) &&
            (start.Ok? ==> outcome == Pass &&
                           nwb.stimulus == marked + (if wav.Some? then [Series(wav.value, start.value)] else []))
  {
    var markStartingTime := 0.0;
    nwb.AddStimulus(Series(markTrack, markStartingTime));
    AddTrials(m, nwb, trials);
    var start := StimStartingTime(m.Discrete?, nwb.trials, o);
    if start.Err? {
      return Fail(start.error);
    }
    if wav.Some? {
      nwb.AddStimulus(Series(wav.value, start.value));
    } else {
      assert nwb.stimulus == nwb.stimulus + [];
    }
    return Pass;
  }
}
