/** The configuration manager: the list of available settings (eight core settings
    followed by one boolean per unit) and the current settings map, loaded from a saved
    map merged over the defaults. The config file is abstracted: what `json.load`
    returned, when the file exists and parses, and whether a write succeeds. */
module Config {
  import opened Optional
  import opened Text
  import opened Values
  import opened Base
  import ResponseFiltering

  datatype SettingType = TextSetting | BooleanSetting | DropdownSetting

  /** `SettingType(...).value`. */
  function TypeValue(t: SettingType): string
  {
    match t
    case TextSetting => "text"
    case BooleanSetting => "boolean"
    case DropdownSetting => "dropdown"
  }

  datatype Setting = Setting(
    name: string,
    kind: SettingType,
    defaultValue: Json,
    description: string,
    options: Option<seq<string>>)

  /** `Setting.to_dict()`. */
  function ToDict(s: Setting): Json
  {
    Obj(map[
      "name" := Str(s.name),
      "type" := Str(TypeValue(s.kind)),
      "default_value" := s.defaultValue,
      "description" := Str(s.description),
      "options" := match s.options
                   case None => Null
                   case Some(os) => Arr(seq(|os|, i requires 0 <= i < |os| => Str(os[i])))])
  }

  /** The core application settings, in the order `__init__` lists them. */
  function CoreSettings(): seq<Setting>
  {
    [ Setting("max_tokens_limit", TextSetting, Str("2048"), "Maximum tokens allowed (Ollama default)", None),
      Setting("response_format", DropdownSetting, Str("json"), "Response format", Some(["json", "text", "markdown"])),
      Setting("temperature_override", TextSetting, Str(""), "Override temperature (leave empty to use request value)", None),
      Setting("system_prompt_prefix", TextSetting, Str(""), "Prefix to add to system prompts", None),
      Setting("enable_caching", BooleanSetting, Bool(false), "Enable response caching", None),
      Setting("log_level", DropdownSetting, Str("INFO"), "Logging level", Some(["DEBUG", "INFO", "WARNING", "ERROR"])),
      Setting("llm_provider", DropdownSetting, Str("ollama"), "LLM Provider", Some(["ollama", "openai", "custom"])),
      Setting("default_model", TextSetting, Str("llama3.1"), "Default model to use", None) ]
  }

  /** The setting `_add_module_settings` makes for one unit. */
  function ModuleSetting(u: Unit): Setting
  {
    Setting(SettingName(u), BooleanSetting, Bool(true), "Enable " + Description(u), None)
  }

  function ModuleSettingsOf(units: seq<Unit>): (r: seq<Setting>)
    ensures |r| == |units| && forall i :: 0 <= i < |units| ==> r[i] == ModuleSetting(units[i])
  {
    seq(|units|, i requires 0 <= i < |units| => ModuleSetting(units[i]))
  }

  /** `{setting.name: setting.default_value for setting in available}`: a later setting
      with the same name wins. */
  function Defaults(available: seq<Setting>): Dict
    decreases |available|
  {
    if available == [] then map[]
    else
      var last := available[|available| - 1];
      Defaults(available[..|available| - 1])[last.name := last.defaultValue]
  }

  /** The loop of `load_settings`: each available setting takes the saved value under
      its name, or its default. Saved keys that name no setting are dropped. */
  function Merged(available: seq<Setting>, saved: Dict): Dict
    decreases |available|
  {
    if available == [] then map[]
    else
      var last := available[|available| - 1];
      Merged(available[..|available| - 1], saved)[last.name := Get(saved, last.name, last.defaultValue)]
  }

  /** `load_settings`: `saved` is what `json.load` returned, or None when the file is
      missing or cannot be read or parsed. A saved value that is not a dict makes
      `.get` raise, which the `except` turns into the defaults as well. */
  function Load(available: seq<Setting>, saved: Option<Json>): Dict
  {
    match saved
    case Some(Obj(f)) => Merged(available, f)
    case _ => Defaults(available)
  }

  function Names(available: seq<Setting>): (r: seq<string>)
    ensures |r| == |available| && forall i :: 0 <= i < |available| ==> r[i] == available[i].name
  {
    seq(|available|, i requires 0 <= i < |available| => available[i].name)
  }

  class ConfigManager {
    var available: seq<Setting>
    var settings: Dict

    /** `__init__`: the core settings, then one per unit, then the loaded settings. */
    constructor(units: seq<Unit>, saved: Option<Json>)
      ensures available == CoreSettings() + ModuleSettingsOf(units)
      ensures settings == Load(available, saved)
    {
      available := CoreSettings();
      settings := map[];
      new;
      AddModuleSettings(units);
      settings := LoadSettings(saved);
    }

    /** `_add_module_settings`: appends one boolean setting per unit, in unit order. */
    method AddModuleSettings(units: seq<Unit>)
      modifies this
      ensures available == old(available) + ModuleSettingsOf(units)
      ensures settings == old(settings)
    {
      var i := 0;
      while i < |units|
        invariant 0 <= i <= |units|
        invariant available == old(available) + ModuleSettingsOf(units[..i])
        invariant settings == old(settings)
      {
        assert ModuleSettingsOf(units[..i + 1]) == ModuleSettingsOf(units[..i]) + [ModuleSetting(units[i])];
        available := available + [ModuleSetting(units[i])];
        i := i + 1;
      }
      assert units[..i] == units;
    }

    /** `load_settings` as the source runs it: the merge loop over a saved dict. */
    method LoadSettings(saved: Option<Json>) returns (r: Dict)
      ensures r == Load(available, saved)
    {
      if !(saved.Some? && saved.value.Obj?) {
        return Defaults(available);
      }
      var f := saved.value.fields;
      r := map[];
      var i := 0;
      while i < |available|
        invariant 0 <= i <= |available|
        invariant r == Merged(available[..i], f)
      {
        assert available[..i + 1][..i] == available[..i];
        var s := available[i];
        r := r[s.name := Get(f, s.name, s.defaultValue)];
        i := i + 1;
      }
      assert available[..i] == available;
    }

    /** `save_settings`: `written` says whether the file write succeeded; only then are
        the new settings kept. */
    method SaveSettings(newSettings: Dict, written: bool) returns (ok: bool)
      modifies this
      ensures ok == written
      ensures settings == (if written then newSettings else old(settings))
      ensures available == old(available)
    {
      if !written {
        return false;
      }
      settings := newSettings;
      ok := true;
    }

    /** `get_setting(name, default)`. */
    function GetSetting(name: string, default: Json): (r: Json)
      reads this
      ensures name in settings ==> r == settings[name]
      ensures name !in settings ==> r == default
    {
      Get(settings, name, default)
    }

    /** `get_all_settings`: a copy; maps are values here, so nothing done to the copy can
        reach the stored settings. */
    function GetAllSettings(): (r: Dict)
      reads this
      ensures r.Keys == settings.Keys && forall k :: k in r ==> r[k] == settings[k]
    {
      settings
    }

    /** `get_settings_schema`: one `to_dict` per available setting, in order. */
    function GetSettingsSchema(): (r: seq<Json>)
      reads this
      ensures |r| == |available|
      ensures forall i :: 0 <= i < |available| ==> r[i] == ToDict(available[i])
    {
      var a := available;
      seq(|a|, i requires 0 <= i < |a| => ToDict(a[i]))
    }
  }

  // ---- properties ----

  /** The merged settings have exactly one key per available setting name. */
  lemma {:induction false} MergedKeys(available: seq<Setting>, saved: Dict)
    ensures Merged(available, saved).Keys == set n | n in Names(available)
    ensures Defaults(available).Keys == set n | n in Names(available)
    decreases |available|
  {
    if available != [] {
      var init := available[..|available| - 1];
      MergedKeys(init, saved);
      assert Names(available) == Names(init) + [available[|available| - 1].name];
    }
  }

  /** The setting named by its last occurrence takes the saved value when the saved map
      has that name, and its default otherwise. */
  lemma {:induction false} MergedValue(available: seq<Setting>, saved: Dict, i: nat)
    requires i < |available|
    requires forall j :: i < j < |available| ==> available[j].name != available[i].name
    ensures available[i].name in Merged(available, saved) && available[i].name in Defaults(available)
    ensures Merged(available, saved)[available[i].name] == Get(saved, available[i].name, available[i].defaultValue)
    ensures Defaults(available)[available[i].name] == available[i].defaultValue
    decreases |available|
  {
    if i < |available| - 1 {
      MergedValue(available[..|available| - 1], saved, i);
    }
  }

  /** Loading with no usable saved file gives the defaults; so does a saved map that
      holds none of the setting names. */
  lemma {:induction false} NoSavedValueMeansDefaults(available: seq<Setting>, saved: Dict)
    requires forall i :: 0 <= i < |available| ==> available[i].name !in saved
    ensures Merged(available, saved) == Defaults(available)
    decreases |available|
  {
    if available != [] {
      NoSavedValueMeansDefaults(available[..|available| - 1], saved);
    }
  }

  /** When every setting of a name has the same default, the defaults map that name to
      it. */
  lemma {:induction false} SameDefault(available: seq<Setting>, n: string, v: Json)
    requires exists i :: 0 <= i < |available| && available[i].name == n
    requires forall i :: 0 <= i < |available| && available[i].name == n ==> available[i].defaultValue == v
    ensures n in Defaults(available) && Defaults(available)[n] == v
    decreases |available|
  {
    var init := available[..|available| - 1];
    if available[|available| - 1].name != n {
      var i :| 0 <= i < |available| && available[i].name == n;
      assert init[i] == available[i];
      SameDefault(init, n, v);
    }
  }

  /** No core setting is named like a unit's `use_<name>` key. */
  lemma CoreNamesAreNotUnitKeys(k: nat, x: string)
    requires k < |CoreSettings()|
    ensures CoreSettings()[k].name != "use_" + x
  {
    assert ("use_" + x)[0] == 'u';
  }

  /** Under the default settings every unit is enabled. */
  lemma DefaultsEnableEveryUnit(units: seq<Unit>, i: nat)
    requires i < |units|
    ensures Enabled(units[i], Defaults(CoreSettings() + ModuleSettingsOf(units)))
  {
    var core := CoreSettings();
    var available := core + ModuleSettingsOf(units);
    var n := SettingName(units[i]);
    assert available[|core| + i].name == n;
    forall j | 0 <= j < |available| && available[j].name == n
      ensures available[j].defaultValue == Bool(true)
    {
      if j < |core| {
        CoreNamesAreNotUnitKeys(j, Name(units[i]));
      }
    }
    SameDefault(available, n, Bool(true));
  }

  lemma LimitParses(s: string)
    requires s == "2048"
    ensures ParseInt(s) == Some(2048)
  {
    assert AllDigits(s);
    assert s[..3][..2] == s[..2] && s[..2][..1] == s[..1] && s[..1][..0] == [];
    assert DigitsValue(s[..1]) == 2;
    assert DigitsValue(s[..2]) == 20;
    assert DigitsValue(s[..3]) == 204;
    assert s[..4] == s;
  }

  /** The default settings hold the text "2048" under "max_tokens_limit". */
  lemma DefaultLimitSetting(units: seq<Unit>)
    ensures Get(Defaults(CoreSettings() + ModuleSettingsOf(units)), "max_tokens_limit", Str("")) == Str("2048")
  {
    var core := CoreSettings();
    var available := core + ModuleSettingsOf(units);
    var n := "max_tokens_limit";
    assert available[0].name == n;
    forall j | 0 <= j < |available| && available[j].name == n
      ensures available[j].defaultValue == Str("2048")
    {
      if j >= |core| {
        assert available[j] == ModuleSetting(units[j - |core|]);
        CoreNamesAreNotUnitKeys(0, Name(units[j - |core|]));
      }
    }
    SameDefault(available, n, Str("2048"));
  }

  /** With the default settings, the response-filtering unit sets "max_tokens" to 2048. */
  lemma DefaultTokenLimit(units: seq<Unit>, req: Dict, out: Dict)
    requires ResponseFiltering.FilterRequest(req, Defaults(CoreSettings() + ModuleSettingsOf(units))) == Ok(out)
    ensures "max_tokens" in out && out["max_tokens"] == Int(2048)
  {
    DefaultLimitSetting(units);
    LimitParses("2048");
    ResponseFiltering.LimitTokensParses(req, Defaults(CoreSettings() + ModuleSettingsOf(units)), out, "2048", 2048);
  }
}
