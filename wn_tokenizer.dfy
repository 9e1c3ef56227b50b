/** The white-noise tokenizer
    (nsds_lab_to_nwb/components/stimulus/tokenizers/wn_tokenizer.py).

    Every onset `o` becomes two intervals: the burst itself over
    `[o, o + duration)` and the in-trial baseline over
    `[o + baseline_start, o + baseline_end)`, both measured from the onset.  The
    configuration must put the baseline after the burst.  White-noise intervals
    carry no extra columns besides `sb`. */
module WNTokenizer {
  import opened Wrappers
  import opened Trials

  /** The keys `duration`, `baseline_start` and `baseline_end` of the stimulus
      configuration, in seconds relative to the onset. */
  datatype WNConfig = WNConfig(duration: real, baselineStart: real, baselineEnd: real)

  /** The configuration check: the burst ends before the baseline starts, and the
      baseline has positive width. */
  predicate ValidConfig(c: WNConfig)
  {
    c.duration < c.baselineStart && c.baselineStart < c.baselineEnd
  }

  /** The burst interval of an onset. */
  function Burst(onset: real, c: WNConfig): Trial
  {
    Trial(onset, onset + c.duration, Stimulus, [])
  }

  /** The in-trial baseline of an onset. */
  function InTrialBaseline(onset: real, c: WNConfig): Trial
  {
    Trial(onset + c.baselineStart, onset + c.baselineEnd, Baseline, [])
  }

  /** The leading baseline `[0.0, onsets[0])`. */
  function Lead(firstOnset: real): Trial
  {
    Trial(0.0, firstOnset, Baseline, [])
  }

  /** The pairs of the first `k` onsets, one after the other. */
  function Pairs(onsets: seq<real>, c: WNConfig, k: nat): (b: seq<Trial>)
    requires k <= |onsets|
    ensures |b| == 2 * k
  {
    if k == 0 then []
    else Pairs(onsets, c, k - 1) + [Burst(onsets[k - 1], c), InTrialBaseline(onsets[k - 1], c)]
  }

  /** The lead baseline and the pairs of the first `k` onsets. */
  function Prefix(onsets: seq<real>, c: WNConfig, k: nat): (p: seq<Trial>)
    requires 0 < |onsets| && k <= |onsets|
    ensures |p| == 1 + 2 * k
  {
    [Lead(onsets[0])] + Pairs(onsets, c, k)
  }

  /** The whole output of `_tokenize`, or the exception it raises: `ValueError` for a
      configuration with the baseline not after the burst (checked first), then
      `IndexError` when there is no onset (`stim_onsets[0]`). */
  function WNTrials(onsets: seq<real>, c: WNConfig, recEnd: real): Result<seq<Trial>>
  {
    if !ValidConfig(c) then Err(ValueError)
    else if |onsets| == 0 then Err(IndexError)
    else
      var last := onsets[|onsets| - 1] + c.baselineEnd;
      Ok(Prefix(onsets, c, |onsets|) + (if last < recEnd then [Trial(last, recEnd, Baseline, [])] else []))
  }

  /** One more onset appends its two intervals to the prefix. */
  lemma PrefixStep(onsets: seq<real>, c: WNConfig, i: nat, before: seq<Trial>, burst: Trial, base: Trial)
    requires i < |onsets|
    requires before == Prefix(onsets, c, i)
    requires burst == Burst(onsets[i], c) && base == InTrialBaseline(onsets[i], c)
    ensures before + [burst] + [base] == Prefix(onsets, c, i + 1)
  {
    assert before + [burst] + [base] == before + [burst, base];
  }

  /** `WNTokenizer._tokenize`: the check, then the loop over the onsets. */
  method Tokenize(onsets: seq<real>, c: WNConfig, recEnd: real) returns (r: Result<seq<Trial>>)
    ensures r == WNTrials(onsets, c, recEnd)
  {
    if !(c.duration < c.baselineStart && c.baselineStart < c.baselineEnd) {
      return Err(ValueError);
    }
    if |onsets| == 0 {
      return Err(IndexError);
    }
    var trials := [Trial(0.0, onsets[0], Baseline, [])];
    var start, stop := 0.0, 0.0;
    var i := 0;
    while i < |onsets|
      invariant i <= |onsets|
      invariant trials == Prefix(onsets, c, i)
      invariant i > 0 ==> stop == onsets[i - 1] + c.baselineEnd
    {
      ghost var before := trials;
      var onset := onsets[i];
      start := onset;
      stop := onset + c.duration;
      var burst := Trial(start, stop, Stimulus, []);
      trials := trials + [burst];
      start := onset + c.baselineStart;
      stop := onset + c.baselineEnd;
      var base := Trial(start, stop, Baseline, []);
      trials := trials + [base];
      PrefixStep(onsets, c, i, before, burst, base);
      i := i + 1;
    }
    assert i == |onsets| && stop == onsets[|onsets| - 1] + c.baselineEnd;
    if stop < recEnd {
      start := stop;
      trials := trials + [Trial(start, recEnd, Baseline, [])];
    } else {
      assert trials == trials + [];
    }
    return Ok(trials);
  }

  // ---------------------------------------------------------------------------
  // What the output looks like

  /** One more onset leaves the earlier intervals where they were. */
  lemma PairsKeep(onsets: seq<real>, c: WNConfig, k: nat, j: nat)
    requires 0 < k <= |onsets| && j < 2 * (k - 1)
    ensures Pairs(onsets, c, k)[j] == Pairs(onsets, c, k - 1)[j]
  {
  }

  /** The pairs hold, for onset `m`, its burst and in-trial baseline at positions
      `2m` and `2m + 1`. */
  lemma {:induction false} PairAt(onsets: seq<real>, c: WNConfig, k: nat, m: nat)
    requires m < k <= |onsets|
    ensures Pairs(onsets, c, k)[2 * m] == Burst(onsets[m], c)
    ensures Pairs(onsets, c, k)[2 * m + 1] == InTrialBaseline(onsets[m], c)
  {
    if m < k - 1 {
      PairAt(onsets, c, k - 1, m);
      PairsKeep(onsets, c, k, 2 * m);
      PairsKeep(onsets, c, k, 2 * m + 1);
    }
  }

  /** Errors exactly for an invalid configuration (`ValueError`, whatever the onsets)
      and otherwise for no onsets (`IndexError`). */
  lemma WNTrialsErr(onsets: seq<real>, c: WNConfig, recEnd: real)
    ensures WNTrials(onsets, c, recEnd).Err? <==> !ValidConfig(c) || |onsets| == 0
    ensures !ValidConfig(c) ==> WNTrials(onsets, c, recEnd) == Err(ValueError)
    ensures ValidConfig(c) && |onsets| == 0 ==> WNTrials(onsets, c, recEnd) == Err(IndexError)
  {
  }

  /** A successful result holds the lead baseline, two intervals per onset, and the
      trailing baseline `[o_last + baseline_end, rec_end_time)` exactly when that
      interval is non-empty; the trailing baseline abuts the last in-trial baseline. */
  lemma WNEnds(onsets: seq<real>, c: WNConfig, recEnd: real)
    requires WNTrials(onsets, c, recEnd).Ok?
    ensures var r := WNTrials(onsets, c, recEnd).value;
            var last := onsets[|onsets| - 1] + c.baselineEnd;
            |r| == 1 + 2 * |onsets| + (if last < recEnd then 1 else 0) &&
            r[0] == Lead(onsets[0]) &&
            (last < recEnd ==> r[|r| - 1] == Trial(last, recEnd, Baseline, [])) &&
            (last < recEnd ==> Abuts(r[|r| - 2], r[|r| - 1]))
  {
    var n := |onsets|;
    if onsets[n - 1] + c.baselineEnd < recEnd {
      PairAt(onsets, c, n, n - 1);
    }
  }

  /** The two intervals of onset `m` in a successful result. */
  lemma WNAt(onsets: seq<real>, c: WNConfig, recEnd: real, m: nat)
    requires WNTrials(onsets, c, recEnd).Ok?
    requires m < |onsets|
    ensures |WNTrials(onsets, c, recEnd).value| >= 2 * |onsets| + 1
    ensures WNTrials(onsets, c, recEnd).value[2 * m + 1] == Burst(onsets[m], c)
    ensures WNTrials(onsets, c, recEnd).value[2 * m + 2] == InTrialBaseline(onsets[m], c)
  {
    var b := Pairs(onsets, c, |onsets|);
    var r := WNTrials(onsets, c, recEnd).value;
    PairAt(onsets, c, |onsets|, m);
    assert r[2 * m + 1] == b[2 * m] && r[2 * m + 2] == b[2 * m + 1];
  }

  /** The whole shape of a successful result: the lead baseline, then for every onset
      its burst and its in-trial baseline in that order, then the trailing baseline
      when it is non-empty, so that the length is `1 + 2n` or `1 + 2n + 1`. */
  lemma WNTrialsShape(onsets: seq<real>, c: WNConfig, recEnd: real)
    requires WNTrials(onsets, c, recEnd).Ok?
    ensures var r := WNTrials(onsets, c, recEnd).value;
            var n := |onsets|;
            var last := onsets[n - 1] + c.baselineEnd;
            |r| == 1 + 2 * n + (if last < recEnd then 1 else 0) &&
            r[0] == Lead(onsets[0]) &&
            (forall m :: 0 <= m < n ==>
               r[2 * m + 1] == Burst(onsets[m], c) && r[2 * m + 2] == InTrialBaseline(onsets[m], c)) &&
            (last < recEnd ==> r[|r| - 1] == Trial(last, recEnd, Baseline, []))
  {
    WNEnds(onsets, c, recEnd);
    forall m | 0 <= m < |onsets|
      ensures WNTrials(onsets, c, recEnd).value[2 * m + 1] == Burst(onsets[m], c)
      ensures WNTrials(onsets, c, recEnd).value[2 * m + 2] == InTrialBaseline(onsets[m], c)
    {
      WNAt(onsets, c, recEnd, m);
    }
  }

  /** Within each trial the burst lasts `duration` seconds from the onset and stops
      strictly before the in-trial baseline starts, and the in-trial baseline has
      positive width. */
  lemma WNWithinTrial(onsets: seq<real>, c: WNConfig, recEnd: real)
    requires WNTrials(onsets, c, recEnd).Ok?
    ensures var r := WNTrials(onsets, c, recEnd).value;
            forall m :: 0 <= m < |onsets| ==>
              r[2 * m + 1].start == onsets[m] &&
              r[2 * m + 1].stop - r[2 * m + 1].start == c.duration &&
              r[2 * m + 1].stop < r[2 * m + 2].start &&
              r[2 * m + 2].stop > r[2 * m + 2].start
  {
    forall m | 0 <= m < |onsets|
      ensures WNTrials(onsets, c, recEnd).value[2 * m + 1].start == onsets[m]
      ensures WNTrials(onsets, c, recEnd).value[2 * m + 1].stop - WNTrials(onsets, c, recEnd).value[2 * m + 1].start == c.duration
      ensures WNTrials(onsets, c, recEnd).value[2 * m + 1].stop < WNTrials(onsets, c, recEnd).value[2 * m + 2].start
      ensures WNTrials(onsets, c, recEnd).value[2 * m + 2].stop > WNTrials(onsets, c, recEnd).value[2 * m + 2].start
    {
      WNAt(onsets, c, recEnd, m);
    }
  }

  /** Every position lies in the pair of onset `j / 2`. */
  lemma DivTwo(j: nat)
    ensures 2 * (j / 2) <= j < 2 * (j / 2) + 2
  {
  }

  lemma ModTwo(j: nat, m: nat, t: nat)
    requires t < 2 && j == 2 * m + t
    ensures j % 2 == t
  {
  }

  /** Interval `j` of a successful result: no extra columns, and after the first the
      labels alternate stimulus, baseline up to the last onset. */
  lemma WNTrialAt(onsets: seq<real>, c: WNConfig, recEnd: real, j: nat)
    requires WNTrials(onsets, c, recEnd).Ok?
    requires j < |WNTrials(onsets, c, recEnd).value|
    ensures var t := WNTrials(onsets, c, recEnd).value[j];
            t.extras == [] && (t.sb == Stimulus <==> j % 2 == 1 && j < 2 * |onsets|)
  {
    var n := |onsets|;
    WNEnds(onsets, c, recEnd);
    if j == 0 {
      ModTwo(j, 0, 0);
    } else if j <= 2 * n {
      var m := (j - 1) / 2;
      DivTwo(j - 1);
      WNAt(onsets, c, recEnd, m);
      if j == 2 * m + 1 {
        ModTwo(j, m, 1);
      } else {
        ModTwo(j, m + 1, 0);
      }
    } else {
      ModTwo(j, n, 1);
    }
  }

  /** Exactly the odd positions before `2n` are stimuli, and no interval carries an
      extra column. */
  lemma WNLabels(onsets: seq<real>, c: WNConfig, recEnd: real)
    requires WNTrials(onsets, c, recEnd).Ok?
    ensures var r := WNTrials(onsets, c, recEnd).value;
            ExtrasAre(r, []) &&
            forall j :: 0 <= j < |r| ==> (r[j].sb == Stimulus <==> j % 2 == 1 && j < 2 * |onsets|)
  {
    var r := WNTrials(onsets, c, recEnd).value;
    forall j | 0 <= j < |r|
      ensures ColumnNames(r[j].extras) == []
      ensures r[j].sb == Stimulus <==> j % 2 == 1 && j < 2 * |onsets|
    {
      WNTrialAt(onsets, c, recEnd, j);
    }
  }
}
