/** The tone-pip tokenizer
    (nsds_lab_to_nwb/components/stimulus/tokenizers/tone_tokenizer.py).

    Every onset becomes three abutting intervals: a pre-stimulus baseline of
    `baseline_start` seconds, the tone itself for `duration` seconds, and a
    post-stimulus baseline of `baseline_end` seconds.  The tone interval carries
    the frequency and amplitude of its row of the parameter table as text; every
    baseline interval carries `'nan'` in both columns. */
module ToneTokenizer {
  import opened Wrappers
  import opened Trials
  import PyStrings

  /** The keys `baseline_start`, `duration` and `baseline_end` of the stimulus
      configuration, in seconds. */
  datatype ToneConfig = ToneConfig(baselineStart: real, duration: real, baselineEnd: real)

  /** One row of the parameter table: column 0 is the amplitude, column 1 the
      frequency. */
  datatype ToneParam = ToneParam(amp: int, frq: int)

  /** The text the baseline intervals carry in the frequency and amplitude columns. */
  const NoneText := "nan"

  /** The extra columns of this tokenizer (besides `sb`). */
  const ExtraColumns: seq<string> := ["frq", "amp"]

  function BaselineExtras(): (e: seq<Cell>)
    ensures ColumnNames(e) == ExtraColumns
  {
    [Cell("frq", NoneText), Cell("amp", NoneText)]
  }

  /** `frq=str(stim_vals[i, 1])`, `amp=str(stim_vals[i, 0])`. */
  function StimulusExtras(p: ToneParam): (e: seq<Cell>)
    ensures ColumnNames(e) == ExtraColumns
  {
    [Cell("frq", PyStrings.IntToString(p.frq)), Cell("amp", PyStrings.IntToString(p.amp))]
  }

  /** The pre-stimulus baseline of an onset. */
  function PreBaseline(onset: real, c: ToneConfig): Trial
  {
    Trial(onset, onset + c.baselineStart, Baseline, BaselineExtras())
  }

  /** The tone interval of an onset. */
  function Tone(onset: real, p: ToneParam, c: ToneConfig): Trial
  {
    Trial(onset + c.baselineStart, onset + c.baselineStart + c.duration, Stimulus, StimulusExtras(p))
  }

  /** The post-stimulus baseline of an onset. */
  function PostBaseline(onset: real, c: ToneConfig): Trial
  {
    Trial(onset + c.baselineStart + c.duration, LastStop(onset, c), Baseline, BaselineExtras())
  }

  /** Where the post-stimulus baseline of an onset stops. */
  function LastStop(onset: real, c: ToneConfig): real
  {
    onset + c.baselineStart + c.duration + c.baselineEnd
  }

  /** The blocks of the first `k` onsets, one after the other. */
  function Blocks(onsets: seq<real>, params: seq<ToneParam>, c: ToneConfig, k: nat): (b: seq<Trial>)
    requires k <= |onsets| && k <= |params|
    ensures |b| == 3 * k
  {
    if k == 0 then []
    else
      var o := onsets[k - 1];
      Blocks(onsets, params, c, k - 1) + [PreBaseline(o, c), Tone(o, params[k - 1], c), PostBaseline(o, c)]
  }

  /** The leading baseline `[0.0, onsets[0])`. */
  function Lead(firstOnset: real): Trial
  {
    Trial(0.0, firstOnset, Baseline, BaselineExtras())
  }

  /** The whole output of `_tokenize`, or the exception it raises: `IndexError` when
      there is no onset (`stim_onsets[0]`) or fewer parameter rows than onsets
      (`stim_vals[i, 1]`). */
  function ToneTrials(onsets: seq<real>, params: seq<ToneParam>, c: ToneConfig, recEnd: real): Result<seq<Trial>>
  {
    if |onsets| == 0 || |params| < |onsets| then Err(IndexError)
    else
      var last := LastStop(onsets[|onsets| - 1], c);
      Ok(Prefix(onsets, params, c, |onsets|) +
         (if last < recEnd then [Trial(last, recEnd, Baseline, BaselineExtras())] else []))
  }

  /** The lead baseline and the blocks of the first `k` onsets. */
  function Prefix(onsets: seq<real>, params: seq<ToneParam>, c: ToneConfig, k: nat): (p: seq<Trial>)
    requires 0 < |onsets| && k <= |onsets| && k <= |params|
    ensures |p| == 1 + 3 * k
  {
    [Lead(onsets[0])] + Blocks(onsets, params, c, k)
  }

  /** One more onset appends its three intervals to the prefix. */
  lemma PrefixStep(onsets: seq<real>, params: seq<ToneParam>, c: ToneConfig, i: nat,
                   before: seq<Trial>, pre: Trial, tone: Trial, post: Trial)
    requires i < |onsets| && i < |params|
    requires before == Prefix(onsets, params, c, i)
    requires pre == PreBaseline(onsets[i], c) && tone == Tone(onsets[i], params[i], c) &&
             post == PostBaseline(onsets[i], c)
    ensures before + [pre] + [tone] + [post] == Prefix(onsets, params, c, i + 1)
  {
    assert before + [pre] + [tone] + [post] == before + [pre, tone, post];
  }

  /** `ToneTokenizer._tokenize`: the loop over the onsets. */
  method Tokenize(onsets: seq<real>, params: seq<ToneParam>, c: ToneConfig, recEnd: real)
    returns (r: Result<seq<Trial>>)
    ensures r == ToneTrials(onsets, params, c, recEnd)
  {
    if |onsets| == 0 {
      return Err(IndexError);
    }
    var trials := [Trial(0.0, onsets[0], Baseline, BaselineExtras())];
    var start, stop := 0.0, 0.0;
    var i := 0;
    while i < |onsets|
      invariant i <= |onsets| && i <= |params|
      invariant trials == Prefix(onsets, params, c, i)
      invariant i > 0 ==> stop == LastStop(onsets[i - 1], c)
    {
      if i >= |params| {
        return Err(IndexError);
      }
      ghost var before := trials;
      var frq := PyStrings.IntToString(params[i].frq);
      var amp := PyStrings.IntToString(params[i].amp);
      start := onsets[i];
      stop := start + c.baselineStart;
      var pre := Trial(start, stop, Baseline, BaselineExtras());
      trials := trials + [pre];
      start := stop;
      stop := start + c.duration;
      var tone := Trial(start, stop, Stimulus, [Cell("frq", frq), Cell("amp", amp)]);
      trials := trials + [tone];
      start := stop;
      stop := start + c.baselineEnd;
      var post := Trial(start, stop, Baseline, BaselineExtras());
      trials := trials + [post];
      PrefixStep(onsets, params, c, i, before, pre, tone, post);
      i := i + 1;
    }
    assert i == |onsets| && stop == LastStop(onsets[|onsets| - 1], c);
    if stop < recEnd {
      trials := trials + [Trial(stop, recEnd, Baseline, BaselineExtras())];
    } else {
      assert trials == trials + [];
    }
    return Ok(trials);
  }

  // ---------------------------------------------------------------------------
  // What the output looks like

  /** The blocks hold, for onset `m`, its pre-stimulus baseline, tone and
      post-stimulus baseline at positions `3m`, `3m + 1` and `3m + 2`. */
  lemma {:induction false} BlockAt(onsets: seq<real>, params: seq<ToneParam>, c: ToneConfig, k: nat, m: nat)
    requires m < k <= |onsets| && k <= |params|
    ensures Blocks(onsets, params, c, k)[3 * m] == PreBaseline(onsets[m], c)
    ensures Blocks(onsets, params, c, k)[3 * m + 1] == Tone(onsets[m], params[m], c)
    ensures Blocks(onsets, params, c, k)[3 * m + 2] == PostBaseline(onsets[m], c)
  {
    if m < k - 1 {
      BlockAt(onsets, params, c, k - 1, m);
      BlocksKeep(onsets, params, c, k, 3 * m);
      BlocksKeep(onsets, params, c, k, 3 * m + 1);
      BlocksKeep(onsets, params, c, k, 3 * m + 2);
    }
  }

  /** One more onset leaves the earlier intervals where they were. */
  lemma BlocksKeep(onsets: seq<real>, params: seq<ToneParam>, c: ToneConfig, k: nat, j: nat)
    requires 0 < k <= |onsets| && k <= |params| && j < 3 * (k - 1)
    ensures Blocks(onsets, params, c, k)[j] == Blocks(onsets, params, c, k - 1)[j]
  {
  }

  /** Every position lies in the block of onset `j / 3`. */
  lemma DivThree(j: nat)
    ensures 3 * (j / 3) <= j < 3 * (j / 3) + 3
  {
  }

  lemma ModThree(j: nat, m: nat, t: nat)
    requires t < 3 && j == 3 * m + t
    ensures j % 3 == t
  {
  }

  /** Errors exactly for no onsets or too few parameter rows, and the error is
      `IndexError`. */
  lemma ToneTrialsErr(onsets: seq<real>, params: seq<ToneParam>, c: ToneConfig, recEnd: real)
    ensures ToneTrials(onsets, params, c, recEnd).Err? <==> |onsets| == 0 || |params| < |onsets|
    ensures ToneTrials(onsets, params, c, recEnd).Err? ==> ToneTrials(onsets, params, c, recEnd).error == IndexError
  {
  }

  /** A successful result holds the lead baseline, three intervals per onset, and the
      trailing baseline exactly when the last post-stimulus baseline stops before the
      recording ends. */
  lemma ToneEnds(onsets: seq<real>, params: seq<ToneParam>, c: ToneConfig, recEnd: real)
    requires ToneTrials(onsets, params, c, recEnd).Ok?
    ensures var r := ToneTrials(onsets, params, c, recEnd).value;
            var last := LastStop(onsets[|onsets| - 1], c);
            |r| == 1 + 3 * |onsets| + (if last < recEnd then 1 else 0) &&
            r[0] == Lead(onsets[0]) &&
            (last < recEnd ==> r[|r| - 1] == Trial(last, recEnd, Baseline, BaselineExtras())) &&
            (last < recEnd ==> r[|r| - 2] == PostBaseline(onsets[|onsets| - 1], c))
  {
    var n := |onsets|;
    var last := LastStop(onsets[n - 1], c);
    if last < recEnd {
      BlockAt(onsets, params, c, n, n - 1);
    }
  }

  /** The three intervals of onset `m` in a successful result. */
  lemma ToneAt(onsets: seq<real>, params: seq<ToneParam>, c: ToneConfig, recEnd: real, m: nat)
    requires ToneTrials(onsets, params, c, recEnd).Ok?
    requires m < |onsets|
    ensures |ToneTrials(onsets, params, c, recEnd).value| >= 3 * |onsets| + 1
    ensures ToneTrials(onsets, params, c, recEnd).value[3 * m + 1] == PreBaseline(onsets[m], c)
    ensures ToneTrials(onsets, params, c, recEnd).value[3 * m + 2] == Tone(onsets[m], params[m], c)
    ensures ToneTrials(onsets, params, c, recEnd).value[3 * m + 3] == PostBaseline(onsets[m], c)
  {
    var b := Blocks(onsets, params, c, |onsets|);
    var r := ToneTrials(onsets, params, c, recEnd).value;
    BlockAt(onsets, params, c, |onsets|, m);
    assert r[3 * m + 1] == b[3 * m] && r[3 * m + 2] == b[3 * m + 1] && r[3 * m + 3] == b[3 * m + 2];
  }

  /** The whole shape: errors exactly for no onsets or too few parameter rows;
      otherwise the lead baseline, the three intervals of every onset in order, and
      the trailing baseline when the last post-stimulus baseline stops before the
      recording ends, so that the length is `1 + 3n` or `1 + 3n + 1`. */
  lemma ToneTrialsShape(onsets: seq<real>, params: seq<ToneParam>, c: ToneConfig, recEnd: real)
    ensures ToneTrials(onsets, params, c, recEnd).Err? <==> |onsets| == 0 || |params| < |onsets|
    ensures ToneTrials(onsets, params, c, recEnd).Err? ==> ToneTrials(onsets, params, c, recEnd).error == IndexError
    ensures ToneTrials(onsets, params, c, recEnd).Ok? ==>
              var r := ToneTrials(onsets, params, c, recEnd).value;
              var n := |onsets|;
              var last := LastStop(onsets[n - 1], c);
              |r| == 1 + 3 * n + (if last < recEnd then 1 else 0) &&
              r[0] == Lead(onsets[0]) &&
              (forall m :: 0 <= m < n ==>
                 r[3 * m + 1] == PreBaseline(onsets[m], c) &&
                 r[3 * m + 2] == Tone(onsets[m], params[m], c) &&
                 r[3 * m + 3] == PostBaseline(onsets[m], c)) &&
              (last < recEnd ==> r[|r| - 1] == Trial(last, recEnd, Baseline, BaselineExtras()))
  {
    ToneTrialsErr(onsets, params, c, recEnd);
    if ToneTrials(onsets, params, c, recEnd).Ok? {
      ToneEnds(onsets, params, c, recEnd);
      forall m | 0 <= m < |onsets|
        ensures ToneTrials(onsets, params, c, recEnd).value[3 * m + 1] == PreBaseline(onsets[m], c)
        ensures ToneTrials(onsets, params, c, recEnd).value[3 * m + 2] == Tone(onsets[m], params[m], c)
        ensures ToneTrials(onsets, params, c, recEnd).value[3 * m + 3] == PostBaseline(onsets[m], c)
      {
        ToneAt(onsets, params, c, recEnd, m);
      }
    }
  }

  /** Interval `j` of a successful result: its columns, and where a stimulus can be. */
  lemma ToneTrialAt(onsets: seq<real>, params: seq<ToneParam>, c: ToneConfig, recEnd: real, j: nat)
    requires ToneTrials(onsets, params, c, recEnd).Ok?
    requires j < |ToneTrials(onsets, params, c, recEnd).value|
    ensures var t := ToneTrials(onsets, params, c, recEnd).value[j];
            ColumnNames(t.extras) == ExtraColumns &&
            (t.sb == Stimulus <==> j % 3 == 2 && j < 3 * |onsets|) &&
            (t.sb == Baseline ==> t.extras == BaselineExtras())
  {
    var n := |onsets|;
    var r := ToneTrials(onsets, params, c, recEnd).value;
    if j == 0 {
      ToneEnds(onsets, params, c, recEnd);
      ModThree(j, 0, 0);
    } else if j <= 3 * n {
      var m := (j - 1) / 3;
      DivThree(j - 1);
      ToneAt(onsets, params, c, recEnd, m);
      if j == 3 * m + 1 {
        ModThree(j, m, 1);
      } else if j == 3 * m + 2 {
        ModThree(j, m, 2);
      } else {
        ModThree(j, m + 1, 0);
      }
    } else {
      ToneEnds(onsets, params, c, recEnd);
      ModThree(j, n, 1);
    }
  }

  /** Exactly the tone interval of each onset is a stimulus; it carries that onset's
      parameters, which read back with `int()`, and every baseline interval carries
      `'nan'` in both columns. */
  lemma ToneLabels(onsets: seq<real>, params: seq<ToneParam>, c: ToneConfig, recEnd: real)
    requires ToneTrials(onsets, params, c, recEnd).Ok?
    ensures var r := ToneTrials(onsets, params, c, recEnd).value;
            ExtrasAre(r, ExtraColumns) &&
            (forall j :: 0 <= j < |r| ==> (r[j].sb == Stimulus <==> j % 3 == 2 && j < 3 * |onsets|)) &&
            (forall j :: 0 <= j < |r| && r[j].sb == Baseline ==> r[j].extras == BaselineExtras()) &&
            (forall m :: 0 <= m < |onsets| ==>
               PyStrings.ParseInt(r[3 * m + 2].extras[0].text) == Some(params[m].frq) &&
               PyStrings.ParseInt(r[3 * m + 2].extras[1].text) == Some(params[m].amp))
  {
    var n := |onsets|;
    var r := ToneTrials(onsets, params, c, recEnd).value;
    forall j | 0 <= j < |r|
      ensures ColumnNames(r[j].extras) == ExtraColumns
      ensures r[j].sb == Stimulus <==> j % 3 == 2 && j < 3 * n
      ensures r[j].sb == Baseline ==> r[j].extras == BaselineExtras()
    {
      ToneTrialAt(onsets, params, c, recEnd, j);
    }
    forall m | 0 <= m < n
      ensures PyStrings.ParseInt(r[3 * m + 2].extras[0].text) == Some(params[m].frq)
      ensures PyStrings.ParseInt(r[3 * m + 2].extras[1].text) == Some(params[m].amp)
    {
      ToneAt(onsets, params, c, recEnd, m);
      PyStrings.ParseIntToString(params[m].frq);
      PyStrings.ParseIntToString(params[m].amp);
    }
  }

  /** The lead baseline abuts the first pre-stimulus baseline, the three intervals of
      each onset abut one another, and the trailing baseline abuts the last
      post-stimulus baseline; the tone interval of every onset lasts `duration`
      seconds and starts `baseline_start` seconds after the onset. */
  lemma ToneContiguous(onsets: seq<real>, params: seq<ToneParam>, c: ToneConfig, recEnd: real)
    requires ToneTrials(onsets, params, c, recEnd).Ok?
    ensures var r := ToneTrials(onsets, params, c, recEnd).value;
            var n := |onsets|;
            Abuts(r[0], r[1]) &&
            (|r| > 3 * n + 1 ==> Abuts(r[3 * n], r[3 * n + 1])) &&
            (forall m :: 0 <= m < n ==>
               Abuts(r[3 * m + 1], r[3 * m + 2]) && Abuts(r[3 * m + 2], r[3 * m + 3]) &&
               r[3 * m + 1].start == onsets[m] &&
               r[3 * m + 2].start == onsets[m] + c.baselineStart &&
               r[3 * m + 2].stop - r[3 * m + 2].start == c.duration &&
               r[3 * m + 3].stop == LastStop(onsets[m], c))
  {
    var r := ToneTrials(onsets, params, c, recEnd).value;
    var n := |onsets|;
    ToneEnds(onsets, params, c, recEnd);
    ToneAt(onsets, params, c, recEnd, 0);
    forall m | 0 <= m < n
      ensures Abuts(r[3 * m + 1], r[3 * m + 2]) && Abuts(r[3 * m + 2], r[3 * m + 3])
      ensures r[3 * m + 1].start == onsets[m]
      ensures r[3 * m + 2].start == onsets[m] + c.baselineStart
      ensures r[3 * m + 2].stop - r[3 * m + 2].start == c.duration
      ensures r[3 * m + 3].stop == LastStop(onsets[m], c)
    {
      ToneAt(onsets, params, c, recEnd, m);
    }
  }

  // ---------------------------------------------------------------------------
  // `tone_stimulus_values` after the file read

  /** The amount added to every amplitude. */
  const AmpOffset := 8

  /** The dimension check as written, `not (len(shape) == 2) and (2 in shape)`:
      `not` binds tighter than `and`, so it raises only for an array that is NOT
      two-dimensional and has a dimension of 2. */
  predicate ShapeGuardAsWritten(shape: seq<nat>)
  {
    !(|shape| == 2) && 2 in shape
  }

  /** The evident intent, "a 2-D array with 2 columns or 2 rows": reject unless the
      array is two-dimensional and one of its dimensions is 2. */
  predicate ShapeRejected(shape: seq<nat>)
  {
    !(|shape| == 2 && 2 in shape)
  }

  /** As written, no two-dimensional array is ever rejected, so a 5 x 3 table is
      let through (and its third column silently ignored), while the intended check
      rejects it; the one-dimensional `[4]` passes the written check too. */
  lemma ShapeGuardFinding(shape: seq<nat>)
    ensures |shape| == 2 ==> !ShapeGuardAsWritten(shape)
    ensures |shape| == 2 ==> (ShapeRejected(shape) <==> shape[0] != 2 && shape[1] != 2)
    ensures !ShapeGuardAsWritten([5, 3]) && ShapeRejected([5, 3])
    ensures !ShapeGuardAsWritten([4]) && ShapeRejected([4])
  {
    assert [5, 3][0] == 5 && [5, 3][1] == 3;
    assert 2 !in [5, 3];
  }

  /** Entry `(i, j)` of the table after the orientation step: a table with two rows
      is read transposed. */
  function Oriented(raw: array2<int>, i: nat, j: nat): int
    reads raw
    requires raw.Length0 == 2 ==> i < raw.Length1 && j < 2
    requires raw.Length0 != 2 ==> i < raw.Length0 && j < raw.Length1
  {
    if raw.Length0 == 2 then raw[j, i] else raw[i, j]
  }

  /** `stim_vals[:, 0] = stim_vals[:, 0] + amp_offset`, in place. */
  method AddAmplitudeOffset(a: array2<int>)
    requires a.Length1 == 2
    modifies a
    ensures forall i :: 0 <= i < a.Length0 ==> a[i, 0] == old(a[i, 0]) + AmpOffset && a[i, 1] == old(a[i, 1])
  {
    var i := 0;
    while i < a.Length0
      invariant 0 <= i <= a.Length0
      invariant forall k :: 0 <= k < i ==> a[k, 0] == old(a[k, 0]) + AmpOffset
      invariant forall k :: i <= k < a.Length0 ==> a[k, 0] == old(a[k, 0])
      invariant forall k :: 0 <= k < a.Length0 ==> a[k, 1] == old(a[k, 1])
    {
      a[i, 0] := a[i, 0] + AmpOffset;
      i := i + 1;
    }
  }

  /** `tone_stimulus_values` from the integer table on: the corrected dimension
      check, the transpose of a two-row table, and the amplitude offset.  The result
      is a new `n x 2` table; the input is left as it was. */
  method StimulusValues(raw: array2<int>) returns (r: Result<array2<int>>)
    ensures r.Err? <==> ShapeRejected([raw.Length0, raw.Length1])
    ensures r.Err? ==> r.error == ValueError
    ensures r.Ok? ==>
              fresh(r.value) && r.value.Length1 == 2 &&
              r.value.Length0 == (if raw.Length0 == 2 then raw.Length1 else raw.Length0) &&
              forall i, j :: 0 <= i < r.value.Length0 && 0 <= j < 2 ==>
                r.value[i, j] == Oriented(raw, i, j) + (if j == 0 then AmpOffset else 0)
  {
    if ShapeRejected([raw.Length0, raw.Length1]) {
      return Err(ValueError);
    }
    assert raw.Length0 == 2 || raw.Length1 == 2;
    var a: array2<int>;
    if raw.Length0 == 2 {
      a := new int[raw.Length1, 2]((i, j) reads raw requires 0 <= i < raw.Length1 && 0 <= j < 2 => raw[j, i]);
    } else {
      a := new int[raw.Length0, 2]((i, j) reads raw requires 0 <= i < raw.Length0 && 0 <= j < 2 => raw[i, j]);
    }
    AddAmplitudeOffset(a);
    return Ok(a);
  }

  /** The rows of an `n x 2` table as parameters for `Tokenize`. */
  function ParamRows(a: array2<int>): (ps: seq<ToneParam>)
    reads a
    requires a.Length1 == 2
    ensures |ps| == a.Length0
    ensures forall i :: 0 <= i < a.Length0 ==> ps[i].amp == a[i, 0] && ps[i].frq == a[i, 1]
  {
    seq(a.Length0, i requires 0 <= i < a.Length0 reads a => ToneParam(a[i, 0], a[i, 1]))
  }
}
