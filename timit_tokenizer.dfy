/** The TIMIT speech tokenizer
    (nsds_lab_to_nwb/components/stimulus/tokenizers/timit_tokenizer.py).

    Every onset opens one stimulus interval that lasts until the next onset; the
    last one lasts until the audio ends, `onsets[0] - first_mark +
    audio_play_length`.  A lead baseline comes first and a baseline from the audio
    end to the recording end always comes last.  Each interval carries the name of
    its sound file in the `sample_filename` column, `'none'` on baselines. */
module TimitTokenizer {
  import opened Wrappers
  import opened Trials

  /** The text in the `sample_filename` column of the baseline intervals. */
  const NoFile := "none"

  /** The extra columns of this tokenizer (besides `sb`). */
  const ExtraColumns: seq<string> := ["sample_filename"]

  function FileCell(name: string): (e: seq<Cell>)
    ensures ColumnNames(e) == ExtraColumns
  {
    [Cell("sample_filename", name)]
  }

  /** `audio_end_time`: the first onset moved back by the `first_mark` offset of the
      configuration, plus the length of the played audio. */
  function AudioEnd(onsets: seq<real>, firstMark: real, playLength: real): real
    requires |onsets| > 0
  {
    onsets[0] - firstMark + playLength
  }

  /** Where stimulus interval `i` stops: at the next onset, or at the audio end for
      the last onset (the `IndexError` caught in the loop). */
  function StopOf(onsets: seq<real>, i: nat, audioEnd: real): real
    requires i < |onsets|
  {
    if i + 1 < |onsets| then onsets[i + 1] else audioEnd
  }

  /** Stimulus interval `i`, labelled with the text of its parameter entry. */
  function Sound(onsets: seq<real>, files: seq<string>, i: nat, audioEnd: real): Trial
    requires i < |onsets| && i < |files|
  {
    Trial(onsets[i], StopOf(onsets, i, audioEnd), Stimulus, FileCell(files[i]))
  }

  /** The stimulus intervals of the first `k` onsets. */
  function Sounds(onsets: seq<real>, files: seq<string>, k: nat, audioEnd: real): (b: seq<Trial>)
    requires k <= |onsets| && k <= |files|
    ensures |b| == k
  {
    if k == 0 then [] else Sounds(onsets, files, k - 1, audioEnd) + [Sound(onsets, files, k - 1, audioEnd)]
  }

  /** The lead baseline and the stimulus intervals of the first `k` onsets. */
  function Prefix(onsets: seq<real>, files: seq<string>, k: nat, audioEnd: real): (p: seq<Trial>)
    requires 0 < |onsets| && k <= |onsets| && k <= |files|
    ensures |p| == 1 + k
  {
    [Trial(0.0, onsets[0], Baseline, FileCell(NoFile))] + Sounds(onsets, files, k, audioEnd)
  }

  /** The whole output of `_tokenize`, or the exception it raises: `IndexError` when
      there is no onset (`stim_onsets[0]`) or fewer parameter entries than onsets
      (`stim_vals[i]`, outside the `try`).  `files[i]` stands for `str(stim_vals[i])`. */
  function TimitTrials(onsets: seq<real>, files: seq<string>, firstMark: real, playLength: real,
                       recEnd: real): Result<seq<Trial>>
  {
    if |onsets| == 0 || |files| < |onsets| then Err(IndexError)
    else
      var audioEnd := AudioEnd(onsets, firstMark, playLength);
      Ok(Prefix(onsets, files, |onsets|, audioEnd) + [Trial(audioEnd, recEnd, Baseline, FileCell(NoFile))])
  }

  /** `TIMITTokenizer._tokenize`: the loop over the onsets. */
  method Tokenize(onsets: seq<real>, files: seq<string>, firstMark: real, playLength: real, recEnd: real)
    returns (r: Result<seq<Trial>>)
    ensures r == TimitTrials(onsets, files, firstMark, playLength, recEnd)
  {
    if |onsets| == 0 {
      return Err(IndexError);
    }
    var audioEnd := (onsets[0] - firstMark) + playLength;
    var trials := [Trial(0.0, onsets[0], Baseline, [Cell("sample_filename", NoFile)])];
    var i := 0;
    while i < |onsets|
      invariant i <= |onsets| && i <= |files|
      invariant trials == Prefix(onsets, files, i, audioEnd)
    {
      if i >= |files| {
        return Err(IndexError);
      }
      var filename := files[i];
      var stop;
      if i + 1 < |onsets| {
        stop := onsets[i + 1];
      } else {
        stop := audioEnd;
      }
      trials := trials + [Trial(onsets[i], stop, Stimulus, [Cell("sample_filename", filename)])];
      i := i + 1;
    }
    trials := trials + [Trial(audioEnd, recEnd, Baseline, [Cell("sample_filename", NoFile)])];
    return Ok(trials);
  }

  // ---------------------------------------------------------------------------
  // What the output looks like

  lemma {:induction false} SoundAt(onsets: seq<real>, files: seq<string>, k: nat, audioEnd: real, i: nat)
    requires i < k <= |onsets| && k <= |files|
    ensures Sounds(onsets, files, k, audioEnd)[i] == Sound(onsets, files, i, audioEnd)
  {
    if i < k - 1 {
      SoundAt(onsets, files, k - 1, audioEnd, i);
    }
  }

  /** Errors exactly for no onsets or too few parameter entries, and the error is
      `IndexError`. */
  lemma TimitTrialsErr(onsets: seq<real>, files: seq<string>, firstMark: real, playLength: real, recEnd: real)
    ensures TimitTrials(onsets, files, firstMark, playLength, recEnd).Err? <==> |onsets| == 0 || |files| < |onsets|
    ensures TimitTrials(onsets, files, firstMark, playLength, recEnd).Err? ==>
              TimitTrials(onsets, files, firstMark, playLength, recEnd).error == IndexError
  {
  }

  /** Position `j` of a successful result: the lead baseline at 0, the stimulus of
      onset `j - 1` at `1..n`, and the closing baseline from the audio end to the
      recording end, whatever their order, at `n + 1`; the length is always `n + 2`. */
  lemma TimitTrialAt(onsets: seq<real>, files: seq<string>, firstMark: real, playLength: real, recEnd: real, j: nat)
    requires TimitTrials(onsets, files, firstMark, playLength, recEnd).Ok?
    requires j < |onsets| + 2
    ensures var r := TimitTrials(onsets, files, firstMark, playLength, recEnd).value;
            var audioEnd := onsets[0] - firstMark + playLength;
            |r| == |onsets| + 2 &&
            (j == 0 ==> r[j] == Trial(0.0, onsets[0], Baseline, [Cell("sample_filename", NoFile)])) &&
            (1 <= j <= |onsets| ==>
               r[j] == Trial(onsets[j - 1], StopOf(onsets, j - 1, audioEnd), Stimulus, [Cell("sample_filename", files[j - 1])])) &&
            (j == |onsets| + 1 ==> r[j] == Trial(audioEnd, recEnd, Baseline, [Cell("sample_filename", NoFile)]))
  {
    var audioEnd := AudioEnd(onsets, firstMark, playLength);
    if 1 <= j <= |onsets| {
      SoundAt(onsets, files, |onsets|, audioEnd, j - 1);
    }
  }

  /** The whole output is one contiguous chain: every interval starts where the one
      before it stops, the stimuli run from onset to onset, and the last stimulus
      stops at the audio end, where the closing baseline starts. */
  lemma TimitChained(onsets: seq<real>, files: seq<string>, firstMark: real, playLength: real, recEnd: real)
    requires TimitTrials(onsets, files, firstMark, playLength, recEnd).Ok?
    ensures var r := TimitTrials(onsets, files, firstMark, playLength, recEnd).value;
            Chained(r) &&
            r[|onsets|].stop == onsets[0] - firstMark + playLength &&
            forall i :: 0 <= i < |onsets| ==> r[i + 1].start == onsets[i]
  {
    var r := TimitTrials(onsets, files, firstMark, playLength, recEnd).value;
    forall j | 0 <= j < |r| - 1 ensures Abuts(r[j], r[j + 1]) {
      TimitTrialAt(onsets, files, firstMark, playLength, recEnd, j);
      TimitTrialAt(onsets, files, firstMark, playLength, recEnd, j + 1);
    }
    forall i | 0 <= i < |onsets| ensures r[i + 1].start == onsets[i] {
      TimitTrialAt(onsets, files, firstMark, playLength, recEnd, i + 1);
    }
    TimitTrialAt(onsets, files, firstMark, playLength, recEnd, |onsets|);
  }

  /** Exactly the intervals `1..n` are stimuli; stimulus `i` carries the text of
      parameter entry `i`, and both baselines carry `'none'`. */
  lemma TimitLabels(onsets: seq<real>, files: seq<string>, firstMark: real, playLength: real, recEnd: real)
    requires TimitTrials(onsets, files, firstMark, playLength, recEnd).Ok?
    ensures var r := TimitTrials(onsets, files, firstMark, playLength, recEnd).value;
            ExtrasAre(r, ExtraColumns) &&
            (forall j :: 0 <= j < |r| ==> (r[j].sb == Stimulus <==> 1 <= j <= |onsets|)) &&
            (forall i :: 0 <= i < |onsets| ==> r[i + 1].extras[0].text == files[i]) &&
            r[0].extras[0].text == NoFile && r[|r| - 1].extras[0].text == NoFile
  {
    var r := TimitTrials(onsets, files, firstMark, playLength, recEnd).value;
    forall j | 0 <= j < |r|
      ensures ColumnNames(r[j].extras) == ExtraColumns
      ensures r[j].sb == Stimulus <==> 1 <= j <= |onsets|
      ensures 1 <= j <= |onsets| ==> r[j].extras[0].text == files[j - 1]
    {
      TimitTrialAt(onsets, files, firstMark, playLength, recEnd, j);
    }
    TimitTrialAt(onsets, files, firstMark, playLength, recEnd, 0);
    TimitTrialAt(onsets, files, firstMark, playLength, recEnd, |r| - 1);
  }
}
