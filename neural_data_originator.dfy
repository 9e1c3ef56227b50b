/** Adding the recorded neural data to the file
    (nsds_lab_to_nwb/components/neural_data/neural_data_originator.py).

    For each device with data, `make` records the hardware sampling rate, resamples
    the data down to the nearest whole kHz when resampling is on and the rate is not
    already a whole kHz, and adds an `ElectricalSeries` labelled with `_get_rate()`
    and with the bad channels, renumbered as electrodes, in its comments. */
module NeuralDataOriginator {
  import opened Wrappers
  import opened PyStrings
  import opened PyValues
  import opened NwbContainer

  // ---------------------------------------------------------------------------
  // The rate decision of `resample`

  /** `rate / 1000 % 1 > 0` is false: the rate is a whole number of kHz. */
  predicate IsWholeKHz(rate: real)
  {
    (rate / 1000.0).Floor as real == rate / 1000.0
  }

  /** `(rate // 1000) * 1000`. */
  function NearestKHz(rate: real): real
  {
    (rate / 1000.0).Floor as real * 1000.0
  }

  /** The new rate is a whole kHz, at most the old rate and less than 1000 Hz below
      it; a whole-kHz rate is its own nearest kHz. */
  lemma NearestKHzSpec(rate: real)
    ensures IsWholeKHz(NearestKHz(rate))
    ensures NearestKHz(rate) <= rate && rate - 1000.0 < NearestKHz(rate)
    ensures IsWholeKHz(rate) ==> NearestKHz(rate) == rate
  {
    var q := rate / 1000.0;
    assert NearestKHz(rate) / 1000.0 == q.Floor as real;
    assert q.Floor as real <= q < q.Floor as real + 1.0;
  }

  /** A rate that is not a whole kHz is strictly lowered. */
  lemma NearestKHzLowers(rate: real)
    requires !IsWholeKHz(rate)
    ensures NearestKHz(rate) < rate
  {
    NearestKHzSpec(rate);
  }

  // ---------------------------------------------------------------------------
  // The rate fields

  /** `resample_flag`, `hardware_rate` and `resample_rate` (`None` before they are
      set). */
  datatype RateState = RateState(resampleFlag: bool, hardwareRate: Option<real>, resampleRate: Option<real>)

  /** `resample` as written: a rate off the whole kHz sets `resample_rate`; a whole
      kHz rate clears `resample_flag` and leaves `resample_rate` as it was. */
  function ResampleAsWritten(s: RateState): RateState
    requires s.hardwareRate.Some?
  {
    var rate := s.hardwareRate.value;
    if !IsWholeKHz(rate) then s.(resampleRate := Some(NearestKHz(rate)))
    else s.(resampleFlag := false)
  }

  /** `resample` with `resample_rate` also cleared when no resampling is needed, so
      that no rate chosen for an earlier device survives. */
  function Resample(s: RateState): RateState
    requires s.hardwareRate.Some?
  {
    var rate := s.hardwareRate.value;
    if !IsWholeKHz(rate) then s.(resampleRate := Some(NearestKHz(rate)))
    else s.(resampleFlag := false, resampleRate := None)
  }

  /** `_get_rate`: the resampled rate when there is one, otherwise the hardware rate. */
  function GetRate(s: RateState): real
    requires s.resampleRate.Some? || s.hardwareRate.Some?
  {
    if s.resampleRate.None? then s.hardwareRate.value else s.resampleRate.value
  }

  // ---------------------------------------------------------------------------
  // `_get_comments`

  /** The electrode ids of the bad channels, in `bad_chs` order. */
  function ElectrodeIds(badChs: seq<int>, chMap: map<int, nat>): (ids: seq<int>)
    requires forall k :: 0 <= k < |badChs| ==> badChs[k] in chMap
    ensures |ids| == |badChs| && forall k :: 0 <= k < |badChs| ==> ids[k] == chMap[badChs[k]]
  {
    seq(|badChs|, k requires 0 <= k < |badChs| && badChs[k] in chMap => chMap[badChs[k]] as int)
  }

  /** The characters `rstrip(', ')` removes. */
  const CommaSpace: set<char> := {',', ' '}

  /** `_get_comments(dev_conf)`: empty without `bad_chs`; otherwise the bad channels'
      electrode ids; a channel missing from `ch_map` is a `KeyError`. */
  function GetComments(badChs: Option<seq<int>>, chMap: map<int, nat>): Result<string>
  {
    if badChs.None? then Ok("")
    else if exists k :: 0 <= k < |badChs.value| && badChs.value[k] !in chMap then Err(KeyError)
    else Ok("bad_channels=[" + RStrip(JoinInts(ElectrodeIds(badChs.value, chMap)), CommaSpace) + "]")
  }

  /** `', '.join` of integers ends with a digit, so `rstrip(', ')` removes nothing. */
  lemma RStripJoinInts(items: seq<int>)
    ensures RStrip(JoinInts(items), CommaSpace) == JoinInts(items)
  {
    var texts := seq(|items|, k requires 0 <= k < |items| => IntToString(items[k]));
    if |items| > 0 {
      JoinLast(", ", texts);
      var j := JoinInts(items);
      assert IsDigit(j[|j| - 1]);
    }
  }

  /** The comments are empty without `bad_chs`, and otherwise list exactly the
      electrode ids of the bad channels, in order, separated by `, ` inside
      `bad_channels=[...]`; they fail exactly when a bad channel has no electrode. */
  lemma GetCommentsSpec(badChs: Option<seq<int>>, chMap: map<int, nat>)
    ensures badChs.None? ==> GetComments(badChs, chMap) == Ok("")
    ensures badChs.Some? ==>
              (GetComments(badChs, chMap).Ok? <==> forall k :: 0 <= k < |badChs.value| ==> badChs.value[k] in chMap)
    ensures badChs.Some? && GetComments(badChs, chMap).Ok? ==>
              GetComments(badChs, chMap).value == "bad_channels=[" + JoinInts(ElectrodeIds(badChs.value, chMap)) + "]"
    ensures GetComments(badChs, chMap).Err? ==> GetComments(badChs, chMap).error == KeyError
  {
    if badChs.Some? && forall k :: 0 <= k < |badChs.value| ==> badChs.value[k] in chMap {
      RStripJoinInts(ElectrodeIds(badChs.value, chMap));
    }
  }

  // ---------------------------------------------------------------------------
  // `make`

  /** A device of the metadata as `make` sees it: its name, whether its entry is a
      plain-text annotation, the sampling rate of the data the reader returns
      (`None` when it returns none), its `bad_chs` and its `ch_map`. */
  datatype Device = Device(name: string, isAnnotation: bool, sampleRate: Option<real>,
                           badChs: Option<seq<int>>, chMap: map<int, nat>)

  /** The rate state and the series added so far, and whether `make` has failed. */
  datatype Made = Made(state: RateState, added: seq<ElectricalSeries>, outcome: Outcome)

  /** One device of the loop in `make`, with the rate decision `resample` given. */
  function DeviceStepWith(m: Made, d: Device, asWritten: bool): Made
  {
    if d.isAnnotation || d.sampleRate.None? then m
    else
      var hw := m.state.(hardwareRate := d.sampleRate);
      var s := if !hw.resampleFlag then hw else if asWritten then ResampleAsWritten(hw) else Resample(hw);
      var dataRate := if hw.resampleFlag && !IsWholeKHz(d.sampleRate.value) then NearestKHz(d.sampleRate.value)
                      else d.sampleRate.value;
      var comments := GetComments(d.badChs, d.chMap);
      if comments.Err? then Made(s, m.added, Fail(comments.error))
      else Made(s, m.added + [ElectricalSeries(d.name, dataRate, GetRate(s), comments.value)], Pass)
  }

  /** `make` over the devices in order, stopping at the first error. */
  function RunWith(s: RateState, devices: seq<Device>, asWritten: bool): Made
  {
    if devices == [] then Made(s, [], Pass)
    else
      var m := RunWith(s, devices[..|devices| - 1], asWritten);
      if m.outcome.Fail? then m else DeviceStepWith(m, devices[|devices| - 1], asWritten)
  }

  /** Once `make` has failed, the later devices change nothing. */
  lemma {:induction false} RunStopsAtFailure(s: RateState, devices: seq<Device>, j: nat, asWritten: bool)
    requires j <= |devices| && RunWith(s, devices[..j], asWritten).outcome.Fail?
    ensures RunWith(s, devices, asWritten) == RunWith(s, devices[..j], asWritten)
    decreases |devices|
  {
    if j < |devices| {
      var init := devices[..|devices| - 1];
      assert init[..j] == devices[..j];
      RunStopsAtFailure(s, init, j, asWritten);
    } else {
      assert devices[..j] == devices;
    }
  }

  /** The state a new originator starts in. */
  function Initial(resampleFlag: bool): RateState
  {
    RateState(resampleFlag, None, None)
  }

  /** No leftover resampled rate: without resampling there is no resampled rate. */
  predicate Consistent(s: RateState)
  {
    !s.resampleFlag ==> s.resampleRate.None?
  }

  /** Every series is labelled with the rate its data is sampled at. */
  predicate RatesMatch(added: seq<ElectricalSeries>)
  {
    forall k :: 0 <= k < |added| ==> added[k].rate == added[k].dataRate
  }

  /** With the corrected `resample`, each device keeps the state consistent and its
      series is labelled with the rate of its data. */
  lemma DeviceStepRates(m: Made, d: Device)
    requires Consistent(m.state) && RatesMatch(m.added)
    ensures Consistent(DeviceStepWith(m, d, false).state) && RatesMatch(DeviceStepWith(m, d, false).added)
  {
    var r := DeviceStepWith(m, d, false);
    if !(d.isAnnotation || d.sampleRate.None?) && r.outcome == Pass {
      assert r.added == m.added + [r.added[|r.added| - 1]];
    }
  }

  /** With the corrected `resample`, every series of `make` is labelled with the
      rate its data is sampled at. */
  lemma {:induction false} RunRates(resampleFlag: bool, devices: seq<Device>)
    ensures Consistent(RunWith(Initial(resampleFlag), devices, false).state)
    ensures RatesMatch(RunWith(Initial(resampleFlag), devices, false).added)
  {
    if devices != [] {
      RunRates(resampleFlag, devices[..|devices| - 1]);
      var m := RunWith(Initial(resampleFlag), devices[..|devices| - 1], false);
      if m.outcome == Pass {
        DeviceStepRates(m, devices[|devices| - 1]);
      }
    }
  }

  /** The names of the devices `make` records: neither annotations nor devices
      without data. */
  function Recorded(devices: seq<Device>): (names: seq<string>)
    ensures |names| <= |devices|
  {
    if devices == [] then []
    else
      var d := devices[|devices| - 1];
      Recorded(devices[..|devices| - 1]) + (if d.isAnnotation || d.sampleRate.None? then [] else [d.name])
  }

  /** A `make` that succeeds adds exactly one series per recorded device, in device
      order, whichever `resample` it uses. */
  lemma {:induction false} RunSkips(s: RateState, devices: seq<Device>, asWritten: bool)
    requires RunWith(s, devices, asWritten).outcome == Pass
    ensures |RunWith(s, devices, asWritten).added| == |Recorded(devices)|
    ensures forall k :: 0 <= k < |Recorded(devices)| ==> RunWith(s, devices, asWritten).added[k].name == Recorded(devices)[k]
  {
    if devices != [] {
      var init := devices[..|devices| - 1];
      RunSkips(s, init, asWritten);
    }
  }

  /** Two devices, the first off the whole kHz and the second on it. */
  function StaleRateDevices(): seq<Device>
  {
    [Device("ECoG", false, Some(3051.7578125), None, map[]), Device("Poly", false, Some(2000.0), None, map[])]
  }

  /** As written, the second device, recorded at 2000 Hz and not resampled, is
      labelled 3000 Hz, the rate chosen for the first device. */
  lemma StaleRateFinding()
    ensures var added := RunWith(Initial(true), StaleRateDevices(), true).added;
            |added| == 2 && added[1].dataRate == 2000.0 && added[1].rate == 3000.0
  {
    var devices := StaleRateDevices();
    assert devices[..1] == [devices[0]] && devices[..1][..0] == [];
    assert (3051.7578125 / 1000.0).Floor == 3;
    assert (2000.0 / 1000.0).Floor == 2;
  }

  /** With the correction, the same two devices are labelled 3000 Hz and 2000 Hz. */
  lemma StaleRateCorrected()
    ensures var added := RunWith(Initial(true), StaleRateDevices(), false).added;
            |added| == 2 && added[0].rate == 3000.0 && added[1].rate == 2000.0
  {
    var devices := StaleRateDevices();
    assert devices[..1] == [devices[0]] && devices[..1][..0] == [];
    assert (3051.7578125 / 1000.0).Floor == 3;
    assert (2000.0 / 1000.0).Floor == 2;
  }

  /** `NeuralDataOriginator`: the rate fields, which `make` and `resample` update. */
  class Originator {
    var resampleFlag: bool
    var hardwareRate: Option<real>
    var resampleRate: Option<real>

    constructor (flag: bool)
      ensures State() == Initial(flag)
    {
      resampleFlag := flag;
      hardwareRate := None;
      resampleRate := None;
    }

    function State(): RateState
      reads this
    {
      RateState(resampleFlag, hardwareRate, resampleRate)
    }

    /** `resample`, corrected; the resampling itself is returned as the rate the
        data ends up at. */
    method DoResample() returns (dataRate: real)
      requires hardwareRate.Some?
      modifies this
      ensures State() == Resample(old(State()))
      ensures dataRate == if IsWholeKHz(old(hardwareRate).value) then old(hardwareRate).value
                          else NearestKHz(old(hardwareRate).value)
    {
      var rate := hardwareRate.value;
      if (rate / 1000.0).Floor as real != rate / 1000.0 {
        var newFreq := (rate / 1000.0).Floor as real * 1000.0;
        resampleRate := Some(newFreq);
        return newFreq;
      } else {
        resampleFlag := false;
        resampleRate := None;
        return rate;
      }
    }

    /** `make`: one series per device with data. */
    method Make(nwb: NwbContent, devices: seq<Device>) returns (outcome: Outcome)
      modifies this, nwb
      ensures var m := RunWith(old(State()), devices, false);
              State() == m.state && nwb.acquisition == old(nwb.acquisition) + m.added && outcome == m.outcome
      ensures nwb.trials == old(nwb.trials) && nwb.stimulus == old(nwb.stimulus)
      ensures nwb.trialColumns == old(nwb.trialColumns)
    {
      ghost var added: seq<ElectricalSeries> := [];
      var i := 0;
      while i < |devices|
        invariant i <= |devices|
        invariant RunWith(old(State()), devices[..i], false) == Made(State(), added, Pass)
        invariant nwb.acquisition == old(nwb.acquisition) + added
        invariant nwb.trials == old(nwb.trials) && nwb.stimulus == old(nwb.stimulus)
        invariant nwb.trialColumns == old(nwb.trialColumns)
      {
        assert devices[..i + 1][..i] == devices[..i];
        ghost var m := Made(State(), added, Pass);
        var stepOutcome;
        ghost var series;
        stepOutcome, series := Record(nwb, devices[i], m);
        if stepOutcome.Fail? {
          RunStopsAtFailure(old(State()), devices, i + 1, false);
          return stepOutcome;
        }
        added := added + series;
        i := i + 1;
      }
      assert devices[..i] == devices;
      return Pass;
    }

    /** The body of the loop in `make` for one device. */
    method Record(nwb: NwbContent, d: Device, ghost m: Made) returns (outcome: Outcome, ghost series: seq<ElectricalSeries>)
      requires m.state == State() && m.outcome == Pass
      modifies this, nwb
      ensures var r := DeviceStepWith(m, d, false);
              State() == r.state && outcome == r.outcome && r.added == m.added + series &&
              nwb.acquisition == old(nwb.acquisition) + series
      ensures nwb.trials == old(nwb.trials) && nwb.stimulus == old(nwb.stimulus)
      ensures nwb.trialColumns == old(nwb.trialColumns)
    {
      series := [];
      if d.isAnnotation || d.sampleRate.None? {
        assert nwb.acquisition == old(nwb.acquisition) + series;
        return Pass, series;
      }
      hardwareRate := d.sampleRate;
      ghost var hw := State();
      assert hw == m.state.(hardwareRate := d.sampleRate);
      var dataRate := d.sampleRate.value;
      if resampleFlag {
        dataRate := DoResample();
        assert State() == Resample(hw);
      }
      var comments := GetComments(d.badChs, d.chMap);
      if comments.Err? {
        assert nwb.acquisition == old(nwb.acquisition) + series;
        return Fail(comments.error), series;
      }
      var e := ElectricalSeries(d.name, dataRate, GetRate(State()), comments.value);
      assert DeviceStepWith(m, d, false) == Made(State(), m.added + [e], Pass);
      nwb.AddAcquisition(e);
      series := [e];
      return Pass, series;
    }
  }
}
