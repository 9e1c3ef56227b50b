/** The metadata clean-up steps of nsds_lab_to_nwb/metadata/metadata_manager.py that
    decide values rather than read files: the bad-channel parser, the subject weight
    unit, the stimulus name, the device drop, the legacy-block choice, the subject
    defaults and the electrode numbering.

    The block metadata is a nested dictionary that the reader updates in place; the
    class `MetadataInput` keeps the parts these steps touch, one field per top-level
    key, and each of its methods is specified by a function of the previous state. */
module MetadataManager {
  import opened Wrappers
  import opened PyStrings
  import opened PyValues
  import NsdsUtils

  // ---------------------------------------------------------------------------
  // `_fix_bad_chs_format`

  /** `[x.strip() for x in bad_chs.split(',')]`. */
  function Pieces(s: string): (r: seq<string>)
    ensures |r| == |Split(s, ',')|
    ensures forall k :: 0 <= k < |r| ==> r[k] == Strip(Split(s, ',')[k])
  {
    var parts := Split(s, ',');
    seq(|parts|, k requires 0 <= k < |parts| => Strip(parts[k]))
  }

  /** Every piece is something `int` accepts. */
  predicate AllParse(pieces: seq<string>)
  {
    forall k :: 0 <= k < |pieces| ==> ParseInt(pieces[k]).Some?
  }

  /** `_fix_bad_chs_format(bad_chs)`: a string is read as a comma-separated list of
      integers; NaN becomes the empty list; any other value is a `TypeError`.  A list
      reaches `np.isnan` as an array, whose truth value is a `ValueError` when it has
      more than one element and `False` otherwise. */
  function FixBadChsFormat(v: Value): Result<seq<int>>
  {
    match v
    case Str(s) =>
      var pieces := Pieces(s);
      if AllParse(pieces) then Ok(seq(|pieces|, k requires 0 <= k < |pieces| && AllParse(pieces) => ParseInt(pieces[k]).value))
      else Err(ValueError)
    case NaN => Ok([])
    case IntList(items) => if |items| > 1 then Err(ValueError) else Err(TypeError)
    case _ => Err(TypeError)
  }

  /** A string gives one channel per comma-separated piece, each the `int` of the
      trimmed piece, and is rejected with `ValueError` exactly when some piece is not
      an integer; NaN gives no channels; a scalar of another type is a `TypeError`. */
  lemma FixBadChsCases(v: Value)
    ensures v.Str? ==> (FixBadChsFormat(v).Ok? <==> AllParse(Pieces(v.s)))
    ensures v.Str? ==> (FixBadChsFormat(v).Err? ==> FixBadChsFormat(v).error == ValueError)
    ensures v.Str? && FixBadChsFormat(v).Ok? ==>
              var ids := FixBadChsFormat(v).value;
              |ids| == Count(v.s, ',') + 1 &&
              forall k :: 0 <= k < |ids| ==> ParseInt(Strip(Split(v.s, ',')[k])) == Some(ids[k])
    ensures v.NaN? ==> FixBadChsFormat(v) == Ok([])
    ensures v.NoneValue? || v.Bool? || v.Int? || v.Float? ==> FixBadChsFormat(v) == Err(TypeError)
  {
    if v.Str? {
      SplitParts(v.s, ',');
    }
  }

  /** The empty string is one empty piece, which `int` rejects. */
  lemma FixBadChsEmpty()
    ensures FixBadChsFormat(Str("")) == Err(ValueError)
  {
    EmptyPieces();
    assert ParseInt(Pieces("")[0]) == None;
    assert !AllParse(Pieces(""));
    FixBadChsCases(Str(""));
  }

  /** The empty string splits into one empty piece. */
  lemma EmptyPieces()
    ensures Pieces("") == [""]
  {
    assert Split("", ',') == [""];
    assert Strip("") == "";
  }

  /** `str(i)` for every channel. */
  function IntTexts(ids: seq<int>): (r: seq<string>)
    ensures |r| == |ids| && forall k :: 0 <= k < |ids| ==> r[k] == IntToString(ids[k])
  {
    seq(|ids|, k requires 0 <= k < |ids| => IntToString(ids[k]))
  }

  /** Neither a digit nor the minus sign is a comma or whitespace. */
  lemma SignOrDigitChar(c: char)
    requires IsDigit(c) || c == '-'
    ensures c != ',' && c !in Whitespace
  {
  }

  /** `str(i)` has no comma and nothing `strip` removes. */
  lemma IntTextIsPiece(i: int)
    ensures ',' !in IntToString(i)
    ensures Strip(IntToString(i)) == IntToString(i)
  {
    var t := IntToString(i);
    IntToStringChars(i);
    forall k | 0 <= k < |t| ensures t[k] != ',' {
      SignOrDigitChar(t[k]);
    }
    SignOrDigitChar(t[0]);
    SignOrDigitChar(t[|t| - 1]);
    StripUnpadded(t);
  }

  /** Once every piece parses, the channels are the parsed pieces. */
  lemma FixBadChsOfPieces(s: string, ids: seq<int>)
    requires |Pieces(s)| == |ids|
    requires forall k :: 0 <= k < |ids| ==> ParseInt(Pieces(s)[k]) == Some(ids[k])
    ensures FixBadChsFormat(Str(s)) == Ok(ids)
  {
    var pieces := Pieces(s);
    assert AllParse(pieces);
    FixBadChsCases(Str(s));
    SplitParts(s, ',');
    var r := FixBadChsFormat(Str(s));
    assert r.Ok? && |r.value| == |ids|;
    forall k | 0 <= k < |ids| ensures r.value[k] == ids[k] {
      assert ParseInt(pieces[k]) == Some(r.value[k]);
    }
    assert r.value == ids;
    assert r == Ok(ids);
  }

  /** The pieces of `','.join(str(i) for i in ids)` are the texts of the channels. */
  lemma PiecesOfJoin(ids: seq<int>)
    requires |ids| > 0
    ensures |Pieces(Join(",", IntTexts(ids)))| == |ids|
    ensures forall k :: 0 <= k < |ids| ==> Pieces(Join(",", IntTexts(ids)))[k] == IntToString(ids[k])
  {
    var texts := IntTexts(ids);
    forall k | 0 <= k < |texts| ensures ',' !in texts[k] {
      IntTextIsPiece(ids[k]);
    }
    SplitJoin(texts, ',');
    forall k | 0 <= k < |ids| ensures Strip(texts[k]) == IntToString(ids[k]) {
      IntTextIsPiece(ids[k]);
    }
  }

  /** Writing the channels as `','.join(str(i) for i in ids)` and parsing the text
      back gives the same channels. */
  lemma FixBadChsRoundTrip(ids: seq<int>)
    requires |ids| > 0
    ensures FixBadChsFormat(Str(Join(",", IntTexts(ids)))) == Ok(ids)
  {
    var s := Join(",", IntTexts(ids));
    PiecesOfJoin(ids);
    forall k | 0 <= k < |ids| ensures ParseInt(Pieces(s)[k]) == Some(ids[k]) {
      ParseIntToString(ids[k]);
    }
    FixBadChsOfPieces(s, ids);
  }

  // ---------------------------------------------------------------------------
  // The subject weight and the stimulus name in `common_check`

  /** `weight` with its unit: `str(weight) + 'g'` unless the text already holds a `g`. */
  function FixWeight(w: Value): Value
  {
    if 'g' in Text(w) then w else Str(Text(w) + "g")
  }

  /** The fixed weight always holds a `g`; a weight that held one is untouched, any
      other becomes its text with `g` appended; fixing twice changes nothing more. */
  lemma FixWeightSpec(w: Value)
    ensures 'g' in Text(FixWeight(w))
    ensures 'g' in Text(w) ==> FixWeight(w) == w
    ensures 'g' !in Text(w) ==> FixWeight(w) == Str(Text(w) + "g")
    ensures FixWeight(FixWeight(w)) == FixWeight(w)
  {
    if 'g' !in Text(w) {
      assert (Text(w) + "g")[|Text(w)|] == 'g';
    }
  }

  /** The placeholder texts a spreadsheet leaves for a missing stimulus name. */
  predicate IsNanName(s: string)
  {
    s == "nan" || s == ".nan"
  }

  /** The stimulus name after `common_check`: `None` unless it is a string other
      than the NaN placeholders. */
  function NormalName(v: Value): (r: Value)
    ensures r.NoneValue? || (r.Str? && !IsNanName(r.s))
  {
    if !v.Str? || IsNanName(v.s) then NoneValue else v
  }

  /** A usable name is kept as it is, and normalising is idempotent. */
  lemma NormalNameSpec(v: Value)
    ensures v.Str? && !IsNanName(v.s) ==> NormalName(v) == v
    ensures !v.Str? || IsNanName(v.s) ==> NormalName(v) == NoneValue
    ensures NormalName(NormalName(v)) == NormalName(v)
  {
  }

  // ---------------------------------------------------------------------------
  // The state the clean-up steps change

  /** The configuration of one recording device: a dictionary, of which only
      `bad_chs` concerns these steps, or a plain text such as a probe name. */
  datatype DeviceConf = DeviceConf(badChs: Option<Value>) | DeviceText(text: string)

  /** The devices `common_check` requires and `__load_probes` handles. */
  const DeviceKeys: seq<string> := ["ECoG", "Poly"]

  /** A snapshot of the metadata parts below: `None` stands for a missing key. */
  datatype Input = Input(subject: Option<map<string, Value>>, stimulus: Option<map<string, Value>>,
                         sessionDescription: Option<Value>, devices: Option<map<string, DeviceConf>>,
                         blockMeta: map<string, Value>)

  /** The outcome of a step and the state it leaves. */
  datatype Step = Step(outcome: Outcome, after: Input)

  /** Lines 84-93: the subject, created with the animal name as its id when missing,
      with its weight unit fixed. */
  function CheckedSubject(subject: Option<map<string, Value>>, animalName: string): map<string, Value>
  {
    var s := if subject.None? then map["subject_id" := Str(animalName)] else subject.value;
    if "weight" in s then s["weight" := FixWeight(s["weight"])] else s
  }

  /** Lines 95-102: the stimulus, created or completed with a `None` name, that name
      normalised. */
  function CheckedStimulus(stimulus: Option<map<string, Value>>): (r: map<string, Value>)
    ensures "name" in r
  {
    var s := if stimulus.None? then map["name" := NoneValue] else stimulus.value;
    var withName := if "name" !in s then s["name" := NoneValue] else s;
    if !withName["name"].Str? || IsNanName(withName["name"].s) then withName["name" := NoneValue] else withName
  }

  /** Lines 115-132 on a text entry.  There `in` is a substring test, and assigning
      to or looking up an item of a text is a `TypeError`: the placeholder lines fail
      unless the text holds each placeholder name, and the `bad_chs` lookup fails
      when it holds `bad_chs`. */
  predicate TextEntrySurvives(t: string)
  {
    Contains(t, "description") && Contains(t, "location") && Contains(t, "imp") &&
    Contains(t, "filtering") && !Contains(t, "bad_chs")
  }

  /** Lines 112-137 for one device: a missing device is a `KeyError`, a text entry
      fails as `TextEntrySurvives` says, and a `bad_chs` that is not a list is
      parsed. */
  function CheckedBadChs(devices: map<string, DeviceConf>, key: string): Result<map<string, DeviceConf>>
  {
    if key !in devices then Err(KeyError)
    else
      match devices[key]
      case DeviceText(t) => if TextEntrySurvives(t) then Ok(devices) else Err(TypeError)
      case DeviceConf(badChs) =>
        if badChs.None? || badChs.value.IntList? then Ok(devices)
        else
          var fixed := FixBadChsFormat(badChs.value);
          if fixed.Err? then Err(fixed.error)
          else Ok(devices[key := DeviceConf(Some(IntList(fixed.value)))])
  }

  /** The devices after a step, with its outcome. */
  datatype DevicesStep = DevicesStep(outcome: Outcome, devices: map<string, DeviceConf>)

  /** The device loop of `common_check`: first `ECoG`, then `Poly`; a failure keeps
      what was fixed before it. */
  function CheckedDevices(devices: map<string, DeviceConf>): DevicesStep
  {
    var ecog := CheckedBadChs(devices, DeviceKeys[0]);
    if ecog.Err? then DevicesStep(Fail(ecog.error), devices)
    else
      var poly := CheckedBadChs(ecog.value, DeviceKeys[1]);
      if poly.Err? then DevicesStep(Fail(poly.error), ecog.value)
      else DevicesStep(Pass, poly.value)
  }

  /** The session description defaults to the stimulus name. */
  function CheckedSession(session: Option<Value>, stimulus: map<string, Value>): Option<Value>
    requires "name" in stimulus
  {
    if session.None? then Some(stimulus["name"]) else session
  }

  /** `common_check` on a snapshot: subject, stimulus and session description are
      fixed first, then the devices; a missing `device` entry is a `KeyError`
      (line 110). */
  function CommonChecked(s: Input, animalName: string): Step
  {
    var stimulus := CheckedStimulus(s.stimulus);
    var fixed := Input(Some(CheckedSubject(s.subject, animalName)), Some(stimulus),
                       CheckedSession(s.sessionDescription, stimulus), s.devices, s.blockMeta);
    if s.devices.None? then Step(Fail(KeyError), fixed)
    else
      var devices := CheckedDevices(s.devices.value);
      Step(devices.outcome, fixed.(devices := Some(devices.devices)))
  }

  /** `block_meta.get(key, False)`. */
  function GetOrFalse(m: map<string, Value>, key: string): Value
  {
    if key in m then m[key] else Bool(false)
  }

  /** Lines 168 and 188-196 of `extra_cleanup`: a missing `device` entry is a
      `KeyError`; both switches are read with `str2bool` (a missing switch is false)
      and stored back as booleans; a device switched off is popped, which is a
      `KeyError` when it is missing, and switching off the polytrode also drops its
      two location entries. */
  function DevicesDropped(s: Input): Step
  {
    if s.devices.None? then Step(Fail(KeyError), s)
    else
    var devices := s.devices.value;
    var ecog := NsdsUtils.Str2Bool(GetOrFalse(s.blockMeta, "has_ecog"));
    if ecog.Err? then Step(Fail(ecog.error), s)
    else
      var meta1 := s.blockMeta["has_ecog" := Bool(ecog.value)];
      var poly := NsdsUtils.Str2Bool(GetOrFalse(meta1, "has_poly"));
      if poly.Err? then Step(Fail(poly.error), s.(blockMeta := meta1))
      else
        var meta2 := meta1["has_poly" := Bool(poly.value)];
        if !ecog.value && "ECoG" !in devices then Step(Fail(KeyError), s.(blockMeta := meta2))
        else
          var devices1 := if ecog.value then devices else devices - {"ECoG"};
          if !poly.value && "Poly" !in devices1 then Step(Fail(KeyError), s.(blockMeta := meta2, devices := Some(devices1)))
          else if poly.value then Step(Pass, s.(blockMeta := meta2, devices := Some(devices1)))
          else Step(Pass, s.(blockMeta := meta2 - {"poly_ap_loc", "poly_dev_loc"}, devices := Some(devices1 - {"Poly"})))
  }

  /** The top-level entries of the block metadata that the clean-up changes. */
  class MetadataInput {
    var subject: Option<map<string, Value>>
    var stimulus: Option<map<string, Value>>
    var sessionDescription: Option<Value>
    var devices: Option<map<string, DeviceConf>>
    var blockMeta: map<string, Value>

    constructor (s: Input)
      ensures State() == s
    {
      subject := s.subject;
      stimulus := s.stimulus;
      sessionDescription := s.sessionDescription;
      devices := s.devices;
      blockMeta := s.blockMeta;
    }

    function State(): Input
      reads this
    {
      Input(subject, stimulus, sessionDescription, devices, blockMeta)
    }

    /** The weight, stimulus-name and bad-channel parts of `common_check`, in the
        order the source runs them. */
    method CommonCheck(animalName: string) returns (outcome: Outcome)
      modifies this
      ensures Step(outcome, State()) == CommonChecked(old(State()), animalName)
    {
      FixSubjectAndStimulus(animalName);
      outcome := FixBadChs();
    }

    /** Lines 84-108 of `common_check`. */
    method FixSubjectAndStimulus(animalName: string)
      modifies this
      ensures subject == Some(CheckedSubject(old(subject), animalName))
      ensures stimulus == Some(CheckedStimulus(old(stimulus)))
      ensures sessionDescription == CheckedSession(old(sessionDescription), stimulus.value)
      ensures devices == old(devices) && blockMeta == old(blockMeta)
    {
      if subject.None? {
        subject := Some(map["subject_id" := Str(animalName)]);
      }
      var subjectMetadata := subject.value;
      if "weight" in subjectMetadata {
        subject := Some(subjectMetadata["weight" := FixWeight(subjectMetadata["weight"])]);
      }
      if stimulus.None? {
        stimulus := Some(map["name" := NoneValue]);
      }
      if "name" !in stimulus.value {
        stimulus := Some(stimulus.value["name" := NoneValue]);
      }
      var stimName := stimulus.value["name"];
      if !stimName.Str? || IsNanName(stimName.s) {
        stimulus := Some(stimulus.value["name" := NoneValue]);
      }
      if sessionDescription.None? {
        sessionDescription := Some(stimulus.value["name"]);
      }
    }

    /** Lines 110-137 of `common_check`: the loop over the two devices. */
    method FixBadChs() returns (outcome: Outcome)
      modifies this
      ensures old(devices).None? ==> outcome == Fail(KeyError) && devices == old(devices)
      ensures old(devices).Some? ==>
                devices.Some? && DevicesStep(outcome, devices.value) == CheckedDevices(old(devices).value)
      ensures subject == old(subject) && stimulus == old(stimulus)
      ensures sessionDescription == old(sessionDescription) && blockMeta == old(blockMeta)
    {
      if devices.None? {
        return Fail(KeyError);
      }
      var i := 0;
      while i < |DeviceKeys|
        invariant i <= |DeviceKeys| && devices.Some?
        invariant i == 0 ==> devices == old(devices)
        invariant i == 1 ==> CheckedBadChs(old(devices).value, DeviceKeys[0]) == Ok(devices.value)
        invariant i == 2 ==> CheckedDevices(old(devices).value) == DevicesStep(Pass, devices.value)
        invariant subject == old(subject) && stimulus == old(stimulus)
        invariant sessionDescription == old(sessionDescription) && blockMeta == old(blockMeta)
      {
        var fixed := CheckedBadChs(devices.value, DeviceKeys[i]);
        if fixed.Err? {
          return Fail(fixed.error);
        }
        devices := Some(fixed.value);
        i := i + 1;
      }
      return Pass;
    }

    /** The device-drop part of `extra_cleanup`. */
    method DropUnusedDevices() returns (outcome: Outcome)
      modifies this
      ensures Step(outcome, State()) == DevicesDropped(old(State()))
    {
      if devices.None? {
        return Fail(KeyError);
      }
      var hasEcog := NsdsUtils.Str2Bool(GetOrFalse(blockMeta, "has_ecog"));
      if hasEcog.Err? {
        return Fail(hasEcog.error);
      }
      blockMeta := blockMeta["has_ecog" := Bool(hasEcog.value)];
      var hasPoly := NsdsUtils.Str2Bool(GetOrFalse(blockMeta, "has_poly"));
      if hasPoly.Err? {
        return Fail(hasPoly.error);
      }
      blockMeta := blockMeta["has_poly" := Bool(hasPoly.value)];
      if !hasEcog.value {
        if "ECoG" !in devices.value {
          return Fail(KeyError);
        }
        devices := Some(devices.value - {"ECoG"});
      }
      if !hasPoly.value {
        if "Poly" !in devices.value {
          return Fail(KeyError);
        }
        devices := Some(devices.value - {"Poly"});
        blockMeta := blockMeta - {"poly_ap_loc", "poly_dev_loc"};
      }
      return Pass;
    }
  }

  // ---------------------------------------------------------------------------
  // What the clean-up promises

  /** A subject is always left, with its old entries, an id and, when it has a
      weight, one whose text holds `g`. */
  lemma CheckedSubjectSpec(subject: Option<map<string, Value>>, animalName: string)
    ensures var s := CheckedSubject(subject, animalName);
            (subject.None? ==> s == map["subject_id" := Str(animalName)]) &&
            (subject.Some? ==> s.Keys == subject.value.Keys) &&
            (subject.Some? ==> forall k :: k in s && k != "weight" ==> s[k] == subject.value[k]) &&
            ("weight" in s ==> 'g' in Text(s["weight"]))
  {
    var s := if subject.None? then map["subject_id" := Str(animalName)] else subject.value;
    if "weight" in s {
      FixWeightSpec(s["weight"]);
    }
  }

  /** The stimulus always has a name, which is `None` or a usable string, and is
      the given one when that was usable; nothing else in it changes. */
  lemma CheckedStimulusSpec(stimulus: Option<map<string, Value>>)
    ensures var s := CheckedStimulus(stimulus);
            "name" in s &&
            (s["name"].NoneValue? || (s["name"].Str? && !IsNanName(s["name"].s))) &&
            (stimulus.Some? && "name" in stimulus.value ==> s["name"] == NormalName(stimulus.value["name"])) &&
            (stimulus.None? || "name" !in stimulus.value ==> s["name"] == NoneValue) &&
            (stimulus.Some? ==> s.Keys == stimulus.value.Keys + {"name"}) &&
            (stimulus.Some? ==> forall k :: k in s && k != "name" ==> s[k] == stimulus.value[k])
  {
  }

  /** The two device keys differ. */
  lemma DeviceKeysDistinct()
    ensures DeviceKeys[0] != DeviceKeys[1]
  {
    assert DeviceKeys[0][0] != DeviceKeys[1][0];
  }

  /** The device loop succeeds exactly when both devices are present and each
      passes `BadChsParse`; it then leaves every dictionary entry of theirs with a
      `bad_chs` that is a list or absent and every text entry as it was, and
      touches no other device. */
  lemma CheckedDevicesSpec(devices: map<string, DeviceConf>)
    ensures CheckedDevices(devices).outcome == Pass <==>
              forall key :: key in DeviceKeys ==> key in devices && BadChsParse(devices[key])
    ensures CheckedDevices(devices).outcome == Pass ==>
              var d := CheckedDevices(devices).devices;
              d.Keys == devices.Keys &&
              (forall key :: key in DeviceKeys ==>
                 (devices[key].DeviceText? && d[key] == devices[key]) ||
                 (d[key].DeviceConf? && (d[key].badChs.None? || d[key].badChs.value.IntList?))) &&
              (forall key :: key in d && key !in DeviceKeys ==> d[key] == devices[key])
  {
    DeviceKeysDistinct();
  }

  /** A device entry the bad-channel step lets through: a text entry that
      survives, or a `bad_chs` that is absent, a list, or something
      `_fix_bad_chs_format` reads. */
  predicate BadChsParse(conf: DeviceConf)
  {
    match conf
    case DeviceText(t) => TextEntrySurvives(t)
    case DeviceConf(badChs) =>
      badChs.None? || badChs.value.IntList? || FixBadChsFormat(badChs.value).Ok?
  }

  /** `common_check` fixes the subject, stimulus and session description whatever
      happens to the devices, and succeeds exactly when there is a `device` entry
      whose two probes pass `BadChsParse`. */
  lemma CommonCheckedSpec(s: Input, animalName: string)
    ensures var r := CommonChecked(s, animalName);
            r.after.subject == Some(CheckedSubject(s.subject, animalName)) &&
            r.after.stimulus == Some(CheckedStimulus(s.stimulus)) &&
            r.after.sessionDescription == CheckedSession(s.sessionDescription, CheckedStimulus(s.stimulus)) &&
            r.after.blockMeta == s.blockMeta
    ensures CommonChecked(s, animalName).outcome == Pass <==>
              s.devices.Some? &&
              forall key :: key in DeviceKeys ==> key in s.devices.value && BadChsParse(s.devices.value[key])
    ensures s.devices.None? ==> CommonChecked(s, animalName).outcome == Fail(KeyError)
  {
    if s.devices.Some? {
      CheckedDevicesSpec(s.devices.value);
    }
  }

  /** A probe given by name alone still reaches the dictionary code of
      `common_check`, which fails on it. */
  lemma ProbeNameEntryFails()
    ensures CheckedDevices(map["ECoG" := DeviceText("A4x8"), "Poly" := DeviceConf(None)]).outcome == Fail(TypeError)
  {
    assert !Contains("A4x8", "description");
  }

  /** The entry names the device drop reads and removes are all different. */
  lemma DropKeysDistinct()
    ensures "has_ecog" != "has_poly"
    ensures "poly_ap_loc" != "has_ecog" && "poly_ap_loc" != "has_poly"
    ensures "poly_dev_loc" != "has_ecog" && "poly_dev_loc" != "has_poly"
    ensures "ECoG" != "Poly"
  {
    assert "has_ecog"[4] != "has_poly"[4];
    assert "poly_ap_loc"[0] != "has_ecog"[0];
    assert "poly_dev_loc"[0] != "has_ecog"[0];
    assert "ECoG"[0] != "Poly"[0];
  }

  /** The value of a switch, read with `str2bool` and defaulting to false. */
  function Switch(meta: map<string, Value>, key: string): Result<bool>
  {
    NsdsUtils.Str2Bool(GetOrFalse(meta, key))
  }

  /** A successful device drop read both switches and stored them as booleans. */
  lemma DevicesDroppedSwitches(s: Input)
    requires DevicesDropped(s).outcome == Pass
    ensures Switch(s.blockMeta, "has_ecog").Ok? && Switch(s.blockMeta, "has_poly").Ok?
    ensures DevicesDropped(s).after.blockMeta["has_ecog"] == Bool(Switch(s.blockMeta, "has_ecog").value)
    ensures DevicesDropped(s).after.blockMeta["has_poly"] == Bool(Switch(s.blockMeta, "has_poly").value)
  {
    DropKeysDistinct();
  }

  /** After a successful device drop, a device is present exactly when it was and,
      for the two probes, its switch is on; the kept devices are unchanged. */
  lemma DevicesDroppedDevices(s: Input)
    requires DevicesDropped(s).outcome == Pass
    ensures var a := DevicesDropped(s).after;
            var ecog := Switch(s.blockMeta, "has_ecog").value;
            var poly := Switch(s.blockMeta, "has_poly").value;
            s.devices.Some? && a.devices.Some? &&
            (forall k :: k in a.devices.value <==>
               k in s.devices.value && (k == "ECoG" ==> ecog) && (k == "Poly" ==> poly)) &&
            (forall k :: k in a.devices.value ==> a.devices.value[k] == s.devices.value[k])
  {
    DropKeysDistinct();
    DevicesDroppedSwitches(s);
  }

  /** The polytrode locations are gone exactly when the polytrode is switched off;
      nothing outside the block metadata and the devices changes. */
  lemma DevicesDroppedLocations(s: Input)
    requires DevicesDropped(s).outcome == Pass
    ensures var a := DevicesDropped(s).after;
            var poly := Switch(s.blockMeta, "has_poly").value;
            ("poly_ap_loc" in a.blockMeta <==> poly && "poly_ap_loc" in s.blockMeta) &&
            ("poly_dev_loc" in a.blockMeta <==> poly && "poly_dev_loc" in s.blockMeta) &&
            a.subject == s.subject && a.stimulus == s.stimulus && a.sessionDescription == s.sessionDescription
  {
    DropKeysDistinct();
    DevicesDroppedSwitches(s);
  }

  /** With both switches missing, both devices are dropped. */
  lemma DevicesDroppedByDefault(s: Input)
    requires "has_ecog" !in s.blockMeta && "has_poly" !in s.blockMeta
    requires s.devices.Some? && "ECoG" in s.devices.value && "Poly" in s.devices.value
    ensures DevicesDropped(s).outcome == Pass
    ensures DevicesDropped(s).after.devices.Some?
    ensures "ECoG" !in DevicesDropped(s).after.devices.value && "Poly" !in DevicesDropped(s).after.devices.value
  {
    NsdsUtils.Str2BoolCases(Bool(false));
  }

  // ---------------------------------------------------------------------------
  // `__detect_legacy_block` and `__check_subject`

  /** An explicit `legacy_block` wins; otherwise a block is legacy exactly when its
      folder name has no surgeon initials. */
  function DetectLegacyBlock(legacyBlock: Option<bool>, surgeonInitials: Option<string>): (legacy: bool)
    ensures legacyBlock.Some? ==> legacy == legacyBlock.value
    ensures legacyBlock.None? ==> (legacy <==> surgeonInitials.None?)
  {
    if legacyBlock.Some? then legacyBlock.value
    else if surgeonInitials.Some? then false else true
  }

  /** Detected from the folder name alone, a block is legacy exactly when the two
      characters after the `R` are not letters. */
  lemma LegacyFromFolder(f: string)
    requires NsdsUtils.SplitBlockFolder(f).Ok?
    ensures DetectLegacyBlock(None, NsdsUtils.SplitBlockFolder(f).value.initials) <==> NsdsUtils.IsLegacyName(f)
  {
    NsdsUtils.SplitBlockFolderInitials(f);
  }

  /** The keys `__check_subject` fills with `'Unknown'`. */
  const UnknownKeys: seq<string> := ["description", "genotype", "sex", "weight"]

  /** `subject_id[0] == 'R'`: indexing an empty id is an `IndexError`, and an id
      that is neither a string nor a list cannot be indexed. */
  function StartsWithR(id: Value): Result<bool>
  {
    match id
    case Str(s) => if s == [] then Err(IndexError) else Ok(s[0] == 'R')
    case IntList(items) => if items == [] then Err(IndexError) else Ok(false)
    case _ => Err(TypeError)
  }

  /** `__check_subject`: the subject, its id defaulting to the animal name, its
      species `'Rat'` when missing and the id starts with `R`, and the remaining
      descriptive keys `'Unknown'` when missing. */
  function CheckSubject(subject: Option<map<string, Value>>, animalName: string): Result<map<string, Value>>
  {
    var s0 := if subject.None? then map[] else subject.value;
    var s1 := if "subject_id" !in s0 then s0["subject_id" := Str(animalName)] else s0;
    var rat := if "species" in s1 then Ok(false) else StartsWithR(s1["subject_id"]);
    if rat.Err? then Err(rat.error)
    else
      var s2 := if rat.value then s1["species" := Str("Rat")] else s1;
      Ok(FillUnknown(s2, UnknownKeys))
  }

  /** The loop over `UnknownKeys`. */
  function FillUnknown(s: map<string, Value>, keys: seq<string>): (r: map<string, Value>)
    ensures r.Keys == s.Keys + set k | k in keys
    ensures forall k :: k in s ==> r[k] == s[k]
    ensures forall k :: k in r && k !in s ==> r[k] == Str("Unknown")
  {
    if keys == [] then s
    else
      var t := FillUnknown(s, keys[..|keys| - 1]);
      if keys[|keys| - 1] in t then t else t[keys[|keys| - 1] := Str("Unknown")]
  }

  /** Existing values are never changed; the id and the four descriptive keys are
      always present afterwards; the species is `'Rat'` exactly when it was missing
      and the id starts with `R`. */
  lemma CheckSubjectSpec(subject: Option<map<string, Value>>, animalName: string)
    requires CheckSubject(subject, animalName).Ok?
    ensures var r := CheckSubject(subject, animalName).value;
            var given := if subject.None? then map[] else subject.value;
            (forall k :: k in given ==> k in r && r[k] == given[k]) &&
            "subject_id" in r && (forall k :: k in UnknownKeys ==> k in r) &&
            ("subject_id" !in given ==> r["subject_id"] == Str(animalName)) &&
            ("species" !in given ==>
               ("species" in r <==> StartsWithR(r["subject_id"]) == Ok(true)) &&
               ("species" in r ==> r["species"] == Str("Rat"))) &&
            (forall k :: k in r && k !in given && k != "subject_id" && k != "species" ==> r[k] == Str("Unknown"))
  {
  }

  /** A subject without an id, named after a block folder, becomes a rat. */
  lemma CheckSubjectNamesRat(animalName: string)
    requires |animalName| > 0 && animalName[0] == 'R'
    ensures CheckSubject(None, animalName).Ok?
    ensures CheckSubject(None, animalName).value["species"] == Str("Rat")
  {
  }

  // ---------------------------------------------------------------------------
  // The electrode numbering of `__load_probes`

  /** A device entry of the metadata: its key and the channel ids of its probe. */
  datatype DeviceEntry = DeviceEntry(key: string, chIds: seq<int>)

  /** `__load_probes` numbers only the electrode-array devices. */
  predicate IsProbe(key: string)
  {
    key in DeviceKeys
  }

  /** `ch_map` of one device: channel id to electrode id, the ids counted from
      `base` in `ch_ids` order; a repeated channel keeps its last number. */
  function ChMap(ids: seq<int>, base: nat): map<int, nat>
  {
    if ids == [] then map[]
    else ChMap(ids[..|ids| - 1], base)[ids[|ids| - 1] := base + |ids| - 1]
  }

  /** The value of the shared counter when device `j` is reached. */
  function Offset(devices: seq<DeviceEntry>, j: nat): nat
    requires j <= |devices|
  {
    if j == 0 then 0
    else Offset(devices, j - 1) + (if IsProbe(devices[j - 1].key) then |devices[j - 1].chIds| else 0)
  }

  /** The `ch_map` given to device `j`, `None` for a device that is not a probe. */
  function ProbeMap(devices: seq<DeviceEntry>, j: nat): Option<map<int, nat>>
    requires j < |devices|
  {
    if IsProbe(devices[j].key) then Some(ChMap(devices[j].chIds, Offset(devices, j))) else None
  }

  /** The id loop of `__load_probes`, with one `itertools.count()` shared by all
      devices. */
  method LoadProbes(devices: seq<DeviceEntry>) returns (maps: seq<Option<map<int, nat>>>, count: nat)
    ensures |maps| == |devices|
    ensures forall j :: 0 <= j < |devices| ==> maps[j] == ProbeMap(devices, j)
    ensures count == Offset(devices, |devices|)
  {
    var eId := 0;
    maps := [];
    var j := 0;
    while j < |devices|
      invariant j <= |devices| && |maps| == j
      invariant forall k :: 0 <= k < j ==> maps[k] == ProbeMap(devices, k)
      invariant eId == Offset(devices, j)
    {
      if IsProbe(devices[j].key) {
        var ids := devices[j].chIds;
        var chMap: map<int, nat> := map[];
        var i := 0;
        while i < |ids|
          invariant i <= |ids|
          invariant chMap == ChMap(ids[..i], Offset(devices, j))
          invariant eId == Offset(devices, j) + i
        {
          assert ids[..i + 1][..i] == ids[..i];
          chMap := chMap[ids[i] := eId];
          eId := eId + 1;
          i := i + 1;
        }
        assert ids[..i] == ids;
        maps := maps + [Some(chMap)];
      } else {
        maps := maps + [None];
      }
      j := j + 1;
    }
    count := eId;
  }

  /** A device's map holds exactly its channels, numbered within its own range of
      `|ch_ids|` ids from `base`. */
  lemma {:induction false} ChMapRange(ids: seq<int>, base: nat)
    ensures forall i :: i in ChMap(ids, base) <==> i in ids
    ensures forall i :: i in ChMap(ids, base) ==> base <= ChMap(ids, base)[i] < base + |ids|
  {
    if ids != [] {
      var init := ids[..|ids| - 1];
      ChMapRange(init, base);
      assert ids == init + [ids[|ids| - 1]];
    }
  }

  /** Without repeated channels, the `k`-th channel gets electrode id `base + k`. */
  lemma {:induction false} ChMapDistinct(ids: seq<int>, base: nat, k: nat)
    requires forall a, b :: 0 <= a < b < |ids| ==> ids[a] != ids[b]
    requires k < |ids|
    ensures ids[k] in ChMap(ids, base) && ChMap(ids, base)[ids[k]] == base + k
  {
    if k < |ids| - 1 {
      var init := ids[..|ids| - 1];
      ChMapDistinct(init, base, k);
      assert init[k] == ids[k];
    }
  }

  /** The counter only grows, by each probe's channel count. */
  lemma {:induction false} OffsetGrows(devices: seq<DeviceEntry>, j: nat, l: nat)
    requires j < l <= |devices| && IsProbe(devices[j].key)
    ensures Offset(devices, j) + |devices[j].chIds| <= Offset(devices, l)
  {
    if l > j + 1 {
      OffsetGrows(devices, j, l - 1);
    }
  }

  /** Electrode ids are unique across devices: every id of an earlier probe is
      smaller than every id of a later one. */
  lemma ElectrodeIdsUnique(devices: seq<DeviceEntry>, j: nat, l: nat, a: int, b: int)
    requires j < l < |devices| && IsProbe(devices[j].key) && IsProbe(devices[l].key)
    requires a in ProbeMap(devices, j).value && b in ProbeMap(devices, l).value
    ensures ProbeMap(devices, j).value[a] < ProbeMap(devices, l).value[b]
  {
    ChMapRange(devices[j].chIds, Offset(devices, j));
    ChMapRange(devices[l].chIds, Offset(devices, l));
    OffsetGrows(devices, j, l);
  }
}
