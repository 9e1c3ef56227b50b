/** The parts of the NWB file object that the converter's components change: the
    trials table (its column names and rows), the stimulus time series and the
    recorded electrical series.  Only
    what the converter reads back is kept: column descriptions, pynwb's own checks
    and the time-series data are not part of this model. */
module NwbContainer {
  import opened Trials

  /** A stimulus time series, by name and starting time. */
  datatype Series = Series(name: string, startingTime: real)

  /** A recorded `ElectricalSeries`: its name, the rate its data is sampled at, the
      `rate` it is labelled with, and its comments.  The samples themselves are
      represented only by their rate. */
  datatype ElectricalSeries = ElectricalSeries(name: string, dataRate: real, rate: real, comments: string)

  class NwbContent {
    /** `trials.colnames`: the custom columns added to the trials table. */
    var trialColumns: seq<string>
    /** The rows of the trials table, in the order they were added. */
    var trials: seq<Trial>
    /** The series added with `add_stimulus`, in order. */
    var stimulus: seq<Series>
    /** The series added with `add_acquisition`, in order. */
    var acquisition: seq<ElectricalSeries>

    /** A new file without trials or stimuli. */
    constructor ()
      ensures trialColumns == [] && trials == [] && stimulus == [] && acquisition == []
    {
      trialColumns := [];
      trials := [];
      stimulus := [];
      acquisition := [];
    }

    /** `add_trial_column(name, description)`. */
    method AddTrialColumn(name: string)
      modifies this
      ensures trialColumns == old(trialColumns) + [name]
      ensures trials == old(trials) && stimulus == old(stimulus) && acquisition == old(acquisition)
    {
      trialColumns := trialColumns + [name];
    }

    /** `add_trial(**trial)`. */
    method AddTrial(t: Trial)
      modifies this
      ensures trials == old(trials) + [t]
      ensures trialColumns == old(trialColumns) && stimulus == old(stimulus) && acquisition == old(acquisition)
    {
      trials := trials + [t];
    }

    /** `add_stimulus(series)`. */
    method AddStimulus(s: Series)
      modifies this
      ensures stimulus == old(stimulus) + [s]
      ensures trialColumns == old(trialColumns) && trials == old(trials) && acquisition == old(acquisition)
    {
      stimulus := stimulus + [s];
    }

    /** `add_acquisition(series)`. */
    method AddAcquisition(e: ElectricalSeries)
      modifies this
      ensures acquisition == old(acquisition) + [e]
      ensures trialColumns == old(trialColumns) && trials == old(trials) && stimulus == old(stimulus)
    {
      acquisition := acquisition + [e];
    }
  }
}
