/** The trial records that every tokenizer produces.

    A tokenizer turns the detected stimulus onsets into an ordered list of
    intervals.  Each interval is one row of the NWB trials table: a start and stop
    time in seconds, the `sb` label (`'s'` for a stimulus period, `'b'` for a
    baseline period) and the tokenizer's own extra columns, as (column, text)
    cells in keyword order (the keyword arguments of `add_trial`). */
module Trials {

  /** The `sb` column: stimulus (`'s'`) or baseline (`'b'`). */
  datatype Label = Stimulus | Baseline

  /** One extra column of a trial row. */
  datatype Cell = Cell(column: string, text: string)

  datatype Trial = Trial(start: real, stop: real, sb: Label, extras: seq<Cell>)

  /** The column names of a row's extra cells, in order. */
  function ColumnNames(cells: seq<Cell>): (names: seq<string>)
    ensures |names| == |cells|
    ensures forall k :: 0 <= k < |cells| ==> names[k] == cells[k].column
  {
    seq(|cells|, k requires 0 <= k < |cells| => cells[k].column)
  }

  /** The text stored in the `sb` column. */
  function LabelText(l: Label): (t: string)
    ensures |t| == 1
    ensures t == "s" <==> l == Stimulus
  {
    match l
    case Stimulus => "s"
    case Baseline => "b"
  }

  /** The recording end time, `num_samples / rate`
      (nsds_lab_to_nwb/components/stimulus/tokenizers/base_tokenizer.py:12). */
  function RecEndTime(numSamples: nat, rate: real): (t: real)
    requires rate > 0.0
    ensures t >= 0.0
    ensures t * rate == numSamples as real
  {
    numSamples as real / rate
  }

  /** Interval `b` starts exactly where interval `a` stops. */
  predicate Abuts(a: Trial, b: Trial)
  {
    a.stop == b.start
  }

  /** Every interval starts where the one before it stops. */
  predicate Chained(ts: seq<Trial>)
  {
    forall i :: 0 <= i < |ts| - 1 ==> Abuts(ts[i], ts[i + 1])
  }

  /** All intervals carry exactly the extra columns `names`, in that order. */
  predicate ExtrasAre(ts: seq<Trial>, names: seq<string>)
  {
    forall i :: 0 <= i < |ts| ==> ColumnNames(ts[i].extras) == names
  }
}
