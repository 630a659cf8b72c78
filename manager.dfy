/** The module manager: the list of units, folded over a payload in list order by
    `process_request` and `process_response`, and the two builders the settings page
    reads. Discovery is not modelled: the unit list is a given sequence. */
module Manager {
  import opened Optional
  import opened Values
  import opened Base

  /** What runs for one enabled unit: its `_process_*` for `phase`, on a payload and
      the settings of the call. */
  function Step(phase: Phase): (Unit, Dict, Dict) -> Result<Dict>
  {
    (u, payload, settings) => Transform(u, phase, payload, settings)
  }

  /** The enable test the source applies: `is_enabled(settings)`, by truthiness. */
  function Gate(): (Unit, Dict) -> bool
  {
    (u, settings) => Enabled(u, settings)
  }

  /** The fold for any `gate` and `step`: the units the gate admits under `settings` run
      in order on the payload so far; an exception ends the fold. */
  function FoldBy(units: seq<Unit>, gate: (Unit, Dict) -> bool, step: (Unit, Dict, Dict) -> Result<Dict>, payload: Dict, settings: Dict): Result<Dict>
    decreases |units|
  {
    if units == [] then Ok(payload)
    else if !gate(units[0], settings) then FoldBy(units[1..], gate, step, payload, settings)
    else match step(units[0], payload, settings)
      case Raised(e) => Raised(e)
      case Ok(next) => FoldBy(units[1..], gate, step, next, settings)
  }

  /** `process_request` / `process_response`: a left fold over the units in order. An
      enabled unit's `process_*` runs on the payload so far; an exception ends the
      fold. The manager does not change the settings it is given. */
  function Fold(units: seq<Unit>, phase: Phase, payload: Dict, settings: Dict): Result<Dict>
  {
    FoldBy(units, Gate(), Step(phase), payload, settings)
  }

  /** The units of `units` that `gate` admits under `settings`, in order. */
  function Admitted(units: seq<Unit>, gate: (Unit, Dict) -> bool, settings: Dict): (r: seq<Unit>)
    ensures forall u :: u in r ==> u in units && gate(u, settings)
    ensures forall u :: u in units && gate(u, settings) ==> u in r
    decreases |units|
  {
    if units == [] then []
    else if gate(units[0], settings) then [units[0]] + Admitted(units[1..], gate, settings)
    else Admitted(units[1..], gate, settings)
  }

  /** The units of `units` that are enabled under `settings`, in order. */
  function EnabledUnits(units: seq<Unit>, settings: Dict): (r: seq<Unit>)
    ensures forall u :: u in r <==> u in units && Enabled(u, settings)
  {
    Admitted(units, Gate(), settings)
  }

  /** Every unit of `units` run in order by `step`, with no gate. */
  function RunBy(units: seq<Unit>, step: (Unit, Dict, Dict) -> Result<Dict>, payload: Dict, settings: Dict): Result<Dict>
    decreases |units|
  {
    if units == [] then Ok(payload)
    else match step(units[0], payload, settings)
      case Raised(e) => Raised(e)
      case Ok(next) => RunBy(units[1..], step, next, settings)
  }

  /** Every unit of `units` run in order, with no gate: the reference the fold is
      compared with. */
  function RunEach(units: seq<Unit>, phase: Phase, payload: Dict, settings: Dict): Result<Dict>
  {
    RunBy(units, Step(phase), payload, settings)
  }

  /** Each key of `keys` mapped to True, stored in order. */
  function TrueFor(keys: seq<string>): Dict
    decreases |keys|
  {
    if keys == [] then map[]
    else TrueFor(keys[..|keys| - 1])[keys[|keys| - 1] := Bool(true)]
  }

  function SettingNames(units: seq<Unit>): (r: seq<string>)
    ensures |r| == |units| && forall i :: 0 <= i < |units| ==> r[i] == SettingName(units[i])
  {
    seq(|units|, i requires 0 <= i < |units| => SettingName(units[i]))
  }

  /** `get_module_settings`: `use_<name>` mapped to True for every unit. */
  function ModuleSettings(units: seq<Unit>): Dict
  {
    TrueFor(SettingNames(units))
  }

  /** One entry of `get_module_info`. */
  function Info(u: Unit): Json
  {
    Obj(map[
      "name" := Str(Name(u)),
      "description" := Str(Description(u)),
      "setting_name" := Str(SettingName(u)),
      "class_name" := Str(ClassName(u))])
  }

  /** `get_module_info`: one entry per unit, in order. */
  function ModuleInfo(units: seq<Unit>): (r: seq<Json>)
    ensures |r| == |units|
    ensures forall i :: 0 <= i < |units| ==> r[i] == Info(units[i])
  {
    seq(|units|, i requires 0 <= i < |units| => Info(units[i]))
  }

  /** The loop of `process_request` / `process_response` for any `gate` and `step`:
      `for module in self.modules`, reassigning the payload. */
  method ProcessAllBy(units: seq<Unit>, gate: (Unit, Dict) -> bool, step: (Unit, Dict, Dict) -> Result<Dict>, payload: Dict, settings: Dict) returns (r: Result<Dict>)
    ensures r == FoldBy(units, gate, step, payload, settings)
  {
    var data := payload;
    var i := 0;
    assert units[0..] == units;
    while i < |units|
      invariant 0 <= i <= |units|
      invariant FoldBy(units, gate, step, payload, settings) == FoldBy(units[i..], gate, step, data, settings)
    {
      assert units[i..][0] == units[i] && units[i..][1..] == units[i + 1..];
      var u := units[i];
      if gate(u, settings) {
        var next := step(u, data, settings);
        if next.Raised? {
          return Raised(next.error);
        }
        data := next.value;
      }
      i := i + 1;
    }
    r := Ok(data);
  }

  /** `process_request` (RequestPhase) and `process_response` (ResponsePhase). */
  method ProcessAll(units: seq<Unit>, phase: Phase, payload: Dict, settings: Dict) returns (r: Result<Dict>)
    ensures r == Fold(units, phase, payload, settings)
  {
    r := ProcessAllBy(units, Gate(), Step(phase), payload, settings);
  }

  /** `get_module_settings` as the source runs it: a loop that stores one key per unit. */
  method GetModuleSettings(units: seq<Unit>) returns (settings: Dict)
    ensures settings == ModuleSettings(units)
  {
    var names := SettingNames(units);
    settings := map[];
    var i := 0;
    while i < |units|
      invariant 0 <= i <= |units|
      invariant settings == TrueFor(names[..i])
    {
      assert names[..i + 1][..i] == names[..i];
      settings := settings[SettingName(units[i]) := Bool(true)];
      i := i + 1;
    }
    assert names[..i] == names;
  }

  // ---- properties ----

  /** The fold over a list split in two is the fold over the first part followed by the
      fold over the second: the units run in list order. */
  lemma {:induction false} FoldByAppend(us: seq<Unit>, vs: seq<Unit>, gate: (Unit, Dict) -> bool, step: (Unit, Dict, Dict) -> Result<Dict>, payload: Dict, settings: Dict)
    ensures FoldBy(us + vs, gate, step, payload, settings) ==
      match FoldBy(us, gate, step, payload, settings)
      case Raised(e) => Raised(e)
      case Ok(mid) => FoldBy(vs, gate, step, mid, settings)
    decreases |us|
  {
    if us == [] {
      assert us + vs == vs;
    } else {
      assert (us + vs)[0] == us[0] && (us + vs)[1..] == us[1..] + vs;
      if !gate(us[0], settings) {
        FoldByAppend(us[1..], vs, gate, step, payload, settings);
      } else if step(us[0], payload, settings).Ok? {
        FoldByAppend(us[1..], vs, gate, step, step(us[0], payload, settings).value, settings);
      }
    }
  }

  lemma FoldAppend(us: seq<Unit>, vs: seq<Unit>, phase: Phase, payload: Dict, settings: Dict)
    ensures Fold(us + vs, phase, payload, settings) ==
      match Fold(us, phase, payload, settings)
      case Raised(e) => Raised(e)
      case Ok(mid) => Fold(vs, phase, mid, settings)
  {
    FoldByAppend(us, vs, Gate(), Step(phase), payload, settings);
  }

  lemma {:induction false} FoldByRunsEnabledUnits(units: seq<Unit>, gate: (Unit, Dict) -> bool, step: (Unit, Dict, Dict) -> Result<Dict>, payload: Dict, settings: Dict)
    ensures FoldBy(units, gate, step, payload, settings) == RunBy(Admitted(units, gate, settings), step, payload, settings)
    decreases |units|
  {
    if units != [] {
      var rest := Admitted(units[1..], gate, settings);
      if gate(units[0], settings) {
        assert Admitted(units, gate, settings) == [units[0]] + rest;
        assert ([units[0]] + rest)[0] == units[0] && ([units[0]] + rest)[1..] == rest;
        match step(units[0], payload, settings)
        case Raised(e) =>
        case Ok(next) => FoldByRunsEnabledUnits(units[1..], gate, step, next, settings);
      } else {
        FoldByRunsEnabledUnits(units[1..], gate, step, payload, settings);
      }
    }
  }

  /** The fold is the plain run of the enabled units: a disabled unit contributes
      nothing. */
  lemma FoldRunsEnabledUnits(units: seq<Unit>, phase: Phase, payload: Dict, settings: Dict)
    ensures Fold(units, phase, payload, settings) == RunEach(EnabledUnits(units, settings), phase, payload, settings)
  {
    FoldByRunsEnabledUnits(units, Gate(), Step(phase), payload, settings);
  }

  lemma {:induction false} AllDisabledSkipped(units: seq<Unit>, gate: (Unit, Dict) -> bool, step: (Unit, Dict, Dict) -> Result<Dict>, payload: Dict, settings: Dict)
    requires forall i :: 0 <= i < |units| ==> !gate(units[i], settings)
    ensures FoldBy(units, gate, step, payload, settings) == Ok(payload)
    decreases |units|
  {
    if units != [] {
      AllDisabledSkipped(units[1..], gate, step, payload, settings);
    }
  }

  /** When every unit is disabled, or there are none, the payload comes back as it was. */
  lemma AllDisabledIsIdentity(units: seq<Unit>, phase: Phase, payload: Dict, settings: Dict)
    requires forall i :: 0 <= i < |units| ==> !Enabled(units[i], settings)
    ensures Fold(units, phase, payload, settings) == Ok(payload)
  {
    AllDisabledSkipped(units, Gate(), Step(phase), payload, settings);
  }

  lemma SkippedBy(us: seq<Unit>, u: Unit, vs: seq<Unit>, gate: (Unit, Dict) -> bool, step: (Unit, Dict, Dict) -> Result<Dict>, payload: Dict, settings: Dict)
    requires !gate(u, settings)
    ensures FoldBy(us + [u] + vs, gate, step, payload, settings) == FoldBy(us + vs, gate, step, payload, settings)
  {
    FoldByAppend(us + [u], vs, gate, step, payload, settings);
    FoldByAppend(us, [u], gate, step, payload, settings);
    FoldByAppend(us, vs, gate, step, payload, settings);
    match FoldBy(us, gate, step, payload, settings)
    case Raised(e) =>
    case Ok(mid) => AllDisabledSkipped([u], gate, step, mid, settings);
  }

  /** A unit switched off by its `use_<name>` key is skipped wherever it stands. */
  lemma DisabledUnitSkipped(us: seq<Unit>, u: Unit, vs: seq<Unit>, phase: Phase, payload: Dict, settings: Dict)
    requires !Enabled(u, settings)
    ensures Fold(us + [u] + vs, phase, payload, settings) == Fold(us + vs, phase, payload, settings)
  {
    assert !Gate()(u, settings);
    SkippedBy(us, u, vs, Gate(), Step(phase), payload, settings);
  }

  /** Every key of `keys`, and nothing else, is mapped to True. */
  lemma {:induction false} TrueForShape(keys: seq<string>)
    ensures TrueFor(keys).Keys == set k | k in keys
    ensures forall k :: k in TrueFor(keys) ==> TrueFor(keys)[k] == Bool(true)
    decreases |keys|
  {
    if keys != [] {
      var init := keys[..|keys| - 1];
      TrueForShape(init);
      assert keys == init + [keys[|keys| - 1]];
      assert (set k | k in keys) == (set k | k in init) + {keys[|keys| - 1]};
    }
  }

  /** One key per unit, each its `get_setting_name()`, each mapped to True. */
  lemma ModuleSettingsShape(units: seq<Unit>)
    ensures forall i :: 0 <= i < |units| ==> SettingName(units[i]) in ModuleSettings(units)
    ensures forall k :: k in ModuleSettings(units) ==> ModuleSettings(units)[k] == Bool(true) && exists i :: 0 <= i < |units| && k == SettingName(units[i])
  {
    var names := SettingNames(units);
    TrueForShape(names);
    forall i | 0 <= i < |units|
      ensures SettingName(units[i]) in ModuleSettings(units)
    {
      assert names[i] in names;
    }
    forall k | k in ModuleSettings(units)
      ensures exists i :: 0 <= i < |units| && k == SettingName(units[i])
    {
      var i :| 0 <= i < |names| && names[i] == k;
    }
  }

  /** Each info entry's `setting_name` is the unit's `get_setting_name()`, and its
      `name` is the unit's name. */
  lemma ModuleInfoNames(units: seq<Unit>, i: nat)
    requires i < |units|
    ensures ModuleInfo(units)[i].Obj? && ModuleInfo(units)[i].fields.Keys == {"name", "description", "setting_name", "class_name"}
    ensures ModuleInfo(units)[i].fields["setting_name"] == Str("use_" + ModuleInfo(units)[i].fields["name"].s)
    ensures ModuleInfo(units)[i].fields["class_name"] == Str(ClassName(units[i]))
  {
  }
}
