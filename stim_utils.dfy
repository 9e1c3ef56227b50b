/** Event detection on the recorded mark track
    (nsds_lab_to_nwb/components/stimulus/utils.py, `detect_events`).

    The source is a chain of whole-array numpy expressions; each step is one
    function here: pad with a leading zero, threshold to a 0/1 indicator, take the
    first difference, keep the indices where it exceeds 0.5, divide by the rate,
    and optionally delete every onset that is too close to its predecessor in the
    unfiltered list. */
module StimUtils {
  import opened Wrappers

  predicate IncreasingNat(s: seq<nat>)
  {
    forall i, j :: 0 <= i < j < |s| ==> s[i] < s[j]
  }

  predicate IncreasingReal(s: seq<real>)
  {
    forall i, j :: 0 <= i < j < |s| ==> s[i] < s[j]
  }

  predicate NondecreasingReal(s: seq<real>)
  {
    forall i, j :: 0 <= i <= j < |s| ==> s[i] <= s[j]
  }

  // ---------------------------------------------------------------------------
  // The numpy steps

  /** `(x > threshold).astype('int')` for one sample. */
  function Indicator(x: real, threshold: real): int
  {
    if x > threshold then 1 else 0
  }

  /** `np.concatenate(([0.], mark_data))`. */
  function Padded(data: seq<real>): seq<real>
  {
    [0.0] + data
  }

  /** `(s > threshold).astype('int')` for a whole array. */
  function AboveThreshold(s: seq<real>, threshold: real): seq<int>
  {
    seq(|s|, k requires 0 <= k < |s| => Indicator(s[k], threshold))
  }

  /** `np.diff(s)`: one element shorter than `s` (empty for fewer than two). */
  function Diff(s: seq<int>): seq<int>
  {
    if |s| <= 1 then [] else seq(|s| - 1, k requires 0 <= k < |s| - 1 => s[k + 1] - s[k])
  }

  /** `np.where(s > bound)[0]`: the indices, ascending, of the elements above `bound`
      (see `WhereAboveCharacterized`). */
  function WhereAbove(s: seq<int>, bound: real): (r: seq<nat>)
    ensures |r| <= |s|
  {
    if s == [] then []
    else
      var last := |s| - 1;
      WhereAbove(s[..last], bound) + (if s[last] as real > bound then [last] else [])
  }

  /** `WhereAbove` reports exactly the positions above the bound, in increasing order. */
  lemma {:induction false} WhereAboveCharacterized(s: seq<int>, bound: real)
    ensures forall k :: 0 <= k < |WhereAbove(s, bound)| ==> WhereAbove(s, bound)[k] < |s|
    ensures forall i :: i in WhereAbove(s, bound) <==> 0 <= i < |s| && s[i] as real > bound
    ensures IncreasingNat(WhereAbove(s, bound))
  {
    if s != [] {
      var last := |s| - 1;
      WhereAboveCharacterized(s[..last], bound);
      assert forall i :: 0 <= i < last ==> s[..last][i] == s[i];
    }
  }

  /** The sample indices at which the mark track rises above the threshold. */
  function OnsetIndices(data: seq<real>, threshold: real): seq<nat>
  {
    WhereAbove(Diff(AboveThreshold(Padded(data), threshold)), 0.5)
  }

  /** `mark_events_idx / mark_rate`. */
  function ToTimes(idx: seq<nat>, rate: real): (r: seq<real>)
    requires rate > 0.0
  {
    seq(|idx|, j requires 0 <= j < |idx| => idx[j] as real / rate)
  }

  /** `np.where(np.diff(events) < min_separation)[0] + 1`: every index whose gap to
      the element just before it is below `minSeparation`. */
  function TooClose(events: seq<real>, minSeparation: real): set<nat>
  {
    set j: nat | 1 <= j < |events| && Gap(events, j) < minSeparation
  }

  /** The time from event `j - 1` to event `j`. */
  function Gap(events: seq<real>, j: nat): real
    requires 1 <= j < |events|
  {
    events[j] - events[j - 1]
  }

  /** `np.delete(s, drop)`: `s` without the elements at the indices in `drop`. */
  function Delete(s: seq<real>, drop: set<nat>): seq<real>
  {
    if s == [] then []
    else Delete(s[..|s| - 1], drop) + (if |s| - 1 in drop then [] else [s[|s| - 1]])
  }

  /** `detect_events(mark_data, mark_rate, mark_threshold, min_separation)`. */
  function DetectEvents(data: seq<real>, rate: real, threshold: real, minSeparation: Option<real>): seq<real>
    requires rate > 0.0
  {
    var events := ToTimes(OnsetIndices(data, threshold), rate);
    match minSeparation
    case None => events
    case Some(gap) => Delete(events, TooClose(events, gap))
  }

  // ---------------------------------------------------------------------------
  // What the detector reports

  /** Sample `i` starts an event: it is above the threshold and the sample before it
      (the zero pad, for the first sample) is not. */
  predicate IsRisingEdge(data: seq<real>, threshold: real, i: nat)
    requires i < |data|
  {
    data[i] > threshold && (if i == 0 then 0.0 <= threshold else data[i - 1] <= threshold)
  }

  /** The first difference of the padded indicator is positive exactly at the rising
      edges. */
  lemma RisingEdgeDiff(data: seq<real>, threshold: real)
    ensures |Diff(AboveThreshold(Padded(data), threshold))| == |data|
    ensures forall i: nat :: i < |data| ==>
              (Diff(AboveThreshold(Padded(data), threshold))[i] as real > 0.5 <==> IsRisingEdge(data, threshold, i))
  {
    var d := Diff(AboveThreshold(Padded(data), threshold));
    assert |d| == |data|;
    forall i: nat | i < |data|
      ensures d[i] as real > 0.5 <==> IsRisingEdge(data, threshold, i)
    {
      assert d[i] == Indicator(Padded(data)[i + 1], threshold) - Indicator(Padded(data)[i], threshold);
      assert Padded(data)[i + 1] == data[i];
      if i > 0 {
        assert Padded(data)[i] == data[i - 1];
      }
    }
  }

  /** An index is reported exactly when it is a rising edge, and the indices come in
      increasing order. */
  lemma OnsetIndicesCharacterized(data: seq<real>, threshold: real)
    ensures forall i: nat :: i in OnsetIndices(data, threshold) <==> i < |data| && IsRisingEdge(data, threshold, i)
    ensures IncreasingNat(OnsetIndices(data, threshold))
  {
    RisingEdgeDiff(data, threshold);
    WhereAboveCharacterized(Diff(AboveThreshold(Padded(data), threshold)), 0.5);
  }

  /** Between two consecutive reported indices the signal drops back to the
      threshold or below: at the latest, the sample just before the later one does. */
  lemma DropBetweenOnsets(data: seq<real>, threshold: real, j: nat)
    requires j + 1 < |OnsetIndices(data, threshold)|
    ensures OnsetIndices(data, threshold)[j] < OnsetIndices(data, threshold)[j + 1] - 1 < |data|
    ensures data[OnsetIndices(data, threshold)[j + 1] - 1] <= threshold
  {
    ConsecutiveOnsets(data, threshold, j);
    DropBeforeEdge(data, threshold, OnsetIndices(data, threshold)[j], OnsetIndices(data, threshold)[j + 1]);
  }

  /** Two consecutive reported indices are increasing rising edges. */
  lemma ConsecutiveOnsets(data: seq<real>, threshold: real, j: nat)
    requires j + 1 < |OnsetIndices(data, threshold)|
    ensures OnsetIndices(data, threshold)[j] < OnsetIndices(data, threshold)[j + 1] < |data|
    ensures IsRisingEdge(data, threshold, OnsetIndices(data, threshold)[j])
    ensures IsRisingEdge(data, threshold, OnsetIndices(data, threshold)[j + 1])
  {
    var idx := OnsetIndices(data, threshold);
    OnsetIndicesCharacterized(data, threshold);
    assert idx[j] in idx && idx[j + 1] in idx;
  }

  /** The sample just before a later rising edge is at or below the threshold, and it
      is not an earlier rising edge. */
  lemma DropBeforeEdge(data: seq<real>, threshold: real, a: nat, b: nat)
    requires a < b < |data|
    requires IsRisingEdge(data, threshold, a) && IsRisingEdge(data, threshold, b)
    ensures a < b - 1 && data[b - 1] <= threshold
  {
  }

  lemma DivideMonotone(a: real, b: real, rate: real)
    requires rate > 0.0 && a < b
    ensures a / rate < b / rate
  {
    assert b / rate - a / rate == (b - a) / rate;
  }

  /** Without a minimum separation every rising edge is reported, in order, as its
      sample index divided by the rate, and the times strictly increase. */
  lemma EventTimes(data: seq<real>, rate: real, threshold: real)
    requires rate > 0.0
    ensures |DetectEvents(data, rate, threshold, None)| == |OnsetIndices(data, threshold)|
    ensures forall j :: 0 <= j < |OnsetIndices(data, threshold)| ==>
              DetectEvents(data, rate, threshold, None)[j] == OnsetIndices(data, threshold)[j] as real / rate
    ensures IncreasingReal(DetectEvents(data, rate, threshold, None))
  {
    var idx := OnsetIndices(data, threshold);
    var ev := DetectEvents(data, rate, threshold, None);
    OnsetIndicesCharacterized(data, threshold);
    forall i, j | 0 <= i < j < |ev| ensures ev[i] < ev[j] {
      DivideMonotone(idx[i] as real, idx[j] as real, rate);
    }
  }

  /** A signal that never rises above the threshold (the empty signal among them)
      yields no events, whatever the minimum separation. */
  lemma NoCrossingNoEvents(data: seq<real>, rate: real, threshold: real, minSeparation: Option<real>)
    requires rate > 0.0
    requires forall i :: 0 <= i < |data| ==> data[i] <= threshold
    ensures DetectEvents(data, rate, threshold, minSeparation) == []
  {
    RisingEdgeDiff(data, threshold);
    WhereAboveNone(Diff(AboveThreshold(Padded(data), threshold)), 0.5);
  }

  // ---------------------------------------------------------------------------
  // The minimum-separation filter

  /** The indices below `n` that are not in `drop`, ascending. */
  function KeptIndices(n: nat, drop: set<nat>): (r: seq<nat>)
    ensures forall k :: 0 <= k < |r| ==> r[k] < n
    ensures forall i: nat :: i in r <==> i < n && i !in drop
    ensures IncreasingNat(r)
  {
    if n == 0 then [] else KeptIndices(n - 1, drop) + (if n - 1 in drop then [] else [n - 1])
  }

  /** `np.delete` keeps, in order, exactly the elements at the kept indices. */
  lemma {:induction false} DeleteKeeps(s: seq<real>, drop: set<nat>)
    ensures |Delete(s, drop)| == |KeptIndices(|s|, drop)|
    ensures forall m :: 0 <= m < |KeptIndices(|s|, drop)| ==> Delete(s, drop)[m] == s[KeptIndices(|s|, drop)[m]]
  {
    if s != [] {
      var front := s[..|s| - 1];
      DeleteKeeps(front, drop);
      var kf := KeptIndices(|front|, drop);
      var df := Delete(front, drop);
      assert forall m :: 0 <= m < |kf| ==> df[m] == s[kf[m]];
    }
  }

  /** `r` is the subsequence of `s` at the strictly increasing positions `at`. */
  predicate SubsequenceAt(r: seq<real>, s: seq<real>, at: seq<nat>)
  {
    |at| == |r| && IncreasingNat(at) &&
    (forall m :: 0 <= m < |at| ==> at[m] < |s| && r[m] == s[at[m]])
  }

  /** The filtered events are an order-preserving subsequence of the unfiltered
      ones, and the first event is always kept. */
  lemma FilterIsSubsequence(events: seq<real>, minSeparation: real)
    ensures SubsequenceAt(Delete(events, TooClose(events, minSeparation)), events,
                          KeptIndices(|events|, TooClose(events, minSeparation)))
    ensures |events| > 0 ==> |Delete(events, TooClose(events, minSeparation))| > 0 &&
                             Delete(events, TooClose(events, minSeparation))[0] == events[0]
  {
    var drop := TooClose(events, minSeparation);
    DeleteKeeps(events, drop);
    var kept := KeptIndices(|events|, drop);
    if |events| > 0 {
      assert 0 in kept;
    }
  }

  /** For distinct increasing events, a later event survives the filter exactly when
      its gap to its immediate unfiltered predecessor is at least `minSeparation`. */
  lemma FilterKeepsIff(events: seq<real>, minSeparation: real, j: nat)
    requires IncreasingReal(events)
    requires 1 <= j < |events|
    ensures events[j] in Delete(events, TooClose(events, minSeparation)) <==>
            events[j] - events[j - 1] >= minSeparation
  {
    if events[j] - events[j - 1] >= minSeparation {
      KeptWhenApart(events, minSeparation, j);
    } else {
      DroppedWhenClose(events, minSeparation, j);
    }
  }

  lemma KeptWhenApart(events: seq<real>, minSeparation: real, j: nat)
    requires 1 <= j < |events| && Gap(events, j) >= minSeparation
    ensures events[j] in Delete(events, TooClose(events, minSeparation))
  {
    var drop := TooClose(events, minSeparation);
    var kept := KeptIndices(|events|, drop);
    DeleteKeeps(events, drop);
    assert j in kept;
    var m :| 0 <= m < |kept| && kept[m] == j;
    assert Delete(events, drop)[m] == events[j];
  }

  lemma DroppedWhenClose(events: seq<real>, minSeparation: real, j: nat)
    requires IncreasingReal(events)
    requires 1 <= j < |events| && Gap(events, j) < minSeparation
    ensures events[j] !in Delete(events, TooClose(events, minSeparation))
  {
    var drop := TooClose(events, minSeparation);
    var kept := KeptIndices(|events|, drop);
    var r := Delete(events, drop);
    DeleteKeeps(events, drop);
    forall m | 0 <= m < |r| ensures r[m] != events[j] {
      var k := kept[m];
      assert k in kept;
      DistinctAt(events, k, j);
    }
  }

  /** Increasing events at different positions differ. */
  lemma DistinctAt(events: seq<real>, k: nat, j: nat)
    requires IncreasingReal(events)
    requires k < |events| && j < |events| && k != j
    ensures events[k] != events[j]
  {
    if k < j {
      assert events[k] < events[j];
    } else {
      assert events[j] < events[k];
    }
  }

  /** Consecutive surviving events are at least `minSeparation` apart. */
  lemma FilterSeparates(events: seq<real>, minSeparation: real)
    requires NondecreasingReal(events)
    ensures forall m :: 0 <= m < |Delete(events, TooClose(events, minSeparation))| - 1 ==>
              Delete(events, TooClose(events, minSeparation))[m + 1] -
              Delete(events, TooClose(events, minSeparation))[m] >= minSeparation
  {
    var drop := TooClose(events, minSeparation);
    var kept := KeptIndices(|events|, drop);
    var r := Delete(events, drop);
    DeleteKeeps(events, drop);
    forall m | 0 <= m < |r| - 1 ensures r[m + 1] - r[m] >= minSeparation {
      var a, b := kept[m], kept[m + 1];
      assert a < b;
      assert b in kept;
      assert b !in drop;
      assert Gap(events, b) >= minSeparation;
      assert events[a] <= events[b - 1];
    }
  }

  /** The detector's filtered output: a subsequence of the unfiltered detections that
      keeps the first one, keeps a later one exactly when its gap to the detection
      just before it is at least `gap`, and is spaced at least `gap` apart. */
  lemma FilteredEvents(data: seq<real>, rate: real, threshold: real, gap: real)
    requires rate > 0.0
    ensures var all := DetectEvents(data, rate, threshold, None);
            var kept := DetectEvents(data, rate, threshold, Some(gap));
            SubsequenceAt(kept, all, KeptIndices(|all|, TooClose(all, gap))) &&
            (|all| > 0 ==> |kept| > 0 && kept[0] == all[0]) &&
            (forall j :: 1 <= j < |all| ==> (all[j] in kept <==> all[j] - all[j - 1] >= gap)) &&
            (forall m :: 0 <= m < |kept| - 1 ==> kept[m + 1] - kept[m] >= gap)
  {
    var all := DetectEvents(data, rate, threshold, None);
    EventTimes(data, rate, threshold);
    FilterIsSubsequence(all, gap);
    forall j | 1 <= j < |all| ensures (all[j] in DetectEvents(data, rate, threshold, Some(gap)) <==> all[j] - all[j - 1] >= gap) {
      FilterKeepsIff(all, gap, j);
    }
    FilterSeparates(all, gap);
  }

  /** Nothing above the bound, nothing reported. */
  lemma {:induction false} WhereAboveNone(s: seq<int>, bound: real)
    requires forall i :: 0 <= i < |s| ==> s[i] as real <= bound
    ensures WhereAbove(s, bound) == []
  {
    if s != [] {
      WhereAboveNone(s[..|s| - 1], bound);
    }
  }

  lemma WhereAboveSnoc(s: seq<int>, x: int, bound: real)
    ensures WhereAbove(s + [x], bound) == WhereAbove(s, bound) + (if x as real > bound then [|s|] else [])
  {
    assert (s + [x])[..|s|] == s;
  }

  lemma WhereAboveExample()
    ensures WhereAbove([0, 0, 1, 0, -1, 1], 0.5) == [2, 5]
  {
    var s0: seq<int> := [];
    var s1 := s0 + [0];
    var s2 := s1 + [0];
    var s3 := s2 + [1];
    var s4 := s3 + [0];
    var s5 := s4 + [-1];
    var s6 := s5 + [1];
    WhereAboveSnoc(s0, 0, 0.5);
    assert WhereAbove(s1, 0.5) == [];
    WhereAboveSnoc(s1, 0, 0.5);
    assert WhereAbove(s2, 0.5) == [];
    WhereAboveSnoc(s2, 1, 0.5);
    assert WhereAbove(s3, 0.5) == [2];
    WhereAboveSnoc(s3, 0, 0.5);
    assert WhereAbove(s4, 0.5) == [2];
    WhereAboveSnoc(s4, -1, 0.5);
    assert WhereAbove(s5, 0.5) == [2];
    WhereAboveSnoc(s5, 1, 0.5);
    assert WhereAbove(s6, 0.5) == [2, 5];
    assert s6 == [0, 0, 1, 0, -1, 1];
  }

  /** The worked example: `[0, 0, 0.3, 0.3, 0.1, 0.4]` at 2 Hz with threshold 0.2
      rises at samples 2 and 5, that is at 1.0 s and 2.5 s. */
  lemma DetectExample()
    ensures DetectEvents([0.0, 0.0, 0.3, 0.3, 0.1, 0.4], 2.0, 0.2, None) == [1.0, 2.5]
  {
    var data := [0.0, 0.0, 0.3, 0.3, 0.1, 0.4];
    var p := AboveThreshold(Padded(data), 0.2);
    assert p == [0, 0, 0, 1, 1, 0, 1];
    var d := Diff(p);
    assert d == [0, 0, 1, 0, -1, 1];
    WhereAboveExample();
    assert OnsetIndices(data, 0.2) == [2, 5];
  }
}
