/** The unit contract of class BaseModule: each unit's name comes from its class name,
    its setting key is `use_<name>`, a missing key means enabled, and a disabled unit
    returns its payload as it is. The five shipped units are constructors. Any other
    subclass is `Custom`: its own `_process_*` overrides, where present, and its
    optional `update_settings` hook are function values. */
module Base {
  import opened Optional
  import opened Text
  import opened Values
  import ContentModeration
  import PirateMode
  import ResponseFiltering
  import Translation
  import RequestLogging

  datatype Phase = RequestPhase | ResponsePhase

  datatype Unit =
    | ContentModerationUnit
    | PirateModeUnit
    | ResponseFilteringUnit
    | TranslationUnit
    | RequestLoggingUnit
    | Custom(
        className: string,
        description: string,
        onRequest: Option<(Dict, Dict) -> Result<Dict>>,
        onResponse: Option<(Dict, Dict) -> Result<Dict>>,
        updateSettings: Option<Dict -> Dict>)

  /** `self.__class__.__name__`. */
  function ClassName(u: Unit): string
  {
    match u
    case ContentModerationUnit => "ContentModerationModule"
    case PirateModeUnit => "PirateModeModule"
    case ResponseFilteringUnit => "ResponseFilteringModule"
    case TranslationUnit => "TranslationModule"
    case RequestLoggingUnit => "RequestLoggingModule"
    case Custom(c, _, _, _, _) => c
  }

  /** `get_description()`. */
  function Description(u: Unit): string
  {
    match u
    case ContentModerationUnit => "Filters inappropriate content"
    case PirateModeUnit => "Makes the AI respond like a pirate (prepends instruction to user messages)"
    case ResponseFilteringUnit => "Filters and modifies responses"
    case TranslationUnit => "Translates AI responses to specified language"
    case RequestLoggingUnit => "Logs incoming requests for debugging"
    case Custom(_, d, _, _, _) => d
  }

  /** `self.name`: the lower-cased class name with every "module" removed. */
  function Name(u: Unit): string
  {
    Replace(Lower(ClassName(u)), "module", "")
  }

  /** `get_setting_name()`. */
  function SettingName(u: Unit): string
  {
    "use_" + Name(u)
  }

  /** `is_enabled(settings)`: the raw value of `settings.get(f"use_{self.name}", True)`,
      whose key is the one `get_setting_name()` returns. */
  function IsEnabled(u: Unit, settings: Dict): Json
  {
    Get(settings, SettingName(u), Bool(true))
  }

  /** The callers test `is_enabled` with `if`, that is by truthiness. */
  predicate Enabled(u: Unit, settings: Dict)
  {
    Truthy(IsEnabled(u, settings))
  }

  /** `_process_request` / `_process_response` of each class; a class that does not
      override one inherits the identity of the base class. */
  function Transform(u: Unit, phase: Phase, payload: Dict, settings: Dict): Result<Dict>
  {
    match (u, phase)
    case (ContentModerationUnit, RequestPhase) => ContentModeration.ModerateRequest(payload)
    case (ContentModerationUnit, ResponsePhase) => ContentModeration.ModerateResponse(payload)
    case (PirateModeUnit, RequestPhase) => PirateMode.PirateRequest(payload)
    case (PirateModeUnit, ResponsePhase) => PirateMode.PirateResponse(payload)
    case (ResponseFilteringUnit, RequestPhase) => ResponseFiltering.FilterRequest(payload, settings)
    case (ResponseFilteringUnit, ResponsePhase) => ResponseFiltering.FilterResponse(payload, settings)
    case (TranslationUnit, RequestPhase) => Translation.TranslateRequest(payload)
    case (TranslationUnit, ResponsePhase) => Ok(payload)
    case (RequestLoggingUnit, RequestPhase) => RequestLogging.LogRequest(payload)
    case (RequestLoggingUnit, ResponsePhase) => RequestLogging.LogResponse(payload)
    case (Custom(_, _, f, _, _), RequestPhase) => if f.Some? then f.value(payload, settings) else Ok(payload)
    case (Custom(_, _, _, g, _), ResponsePhase) => if g.Some? then g.value(payload, settings) else Ok(payload)
  }

  /** `process_request` / `process_response`: the enable gate around `Transform`. */
  function Process(u: Unit, phase: Phase, payload: Dict, settings: Dict): Result<Dict>
  {
    if !Enabled(u, settings) then Ok(payload) else Transform(u, phase, payload, settings)
  }

  /** `update_settings`, for the classes that define it (no shipped class does). */
  function Hook(u: Unit): Option<Dict -> Dict>
  {
    if u.Custom? then u.updateSettings else None
  }

  // ---- properties ----

  /** A unit whose `get_setting_name()` key is missing is enabled. */
  lemma MissingKeyEnables(u: Unit, s: Dict)
    requires SettingName(u) !in s
    ensures IsEnabled(u, s) == Bool(true) && Enabled(u, s)
  {
  }

  /** The value stored under the `get_setting_name()` key is what `is_enabled` returns. */
  lemma StoredValueDecides(u: Unit, s: Dict, v: Json)
    ensures IsEnabled(u, s[SettingName(u) := v]) == v
  {
  }

  /** No key but the `get_setting_name()` one matters to `is_enabled`. */
  lemma OnlySettingNameMatters(u: Unit, s: Dict, t: Dict)
    requires SettingName(u) in s <==> SettingName(u) in t
    requires SettingName(u) in s ==> s[SettingName(u)] == t[SettingName(u)]
    ensures IsEnabled(u, s) == IsEnabled(u, t)
  {
  }

  /** A disabled unit returns its payload unchanged, in both phases; an enabled one runs
      its `_process_*` method. */
  lemma ProcessGate(u: Unit, phase: Phase, payload: Dict, settings: Dict)
    ensures !Enabled(u, settings) ==> Process(u, phase, payload, settings) == Ok(payload)
    ensures Enabled(u, settings) ==> Process(u, phase, payload, settings) == Transform(u, phase, payload, settings)
  {
  }

  /** The inherited `_process_*` methods are identities. */
  lemma DefaultsAreIdentities(className: string, description: string, hook: Option<Dict -> Dict>, phase: Phase, payload: Dict, settings: Dict)
    ensures Transform(Custom(className, description, None, None, hook), phase, payload, settings) == Ok(payload)
    ensures Transform(TranslationUnit, ResponsePhase, payload, settings) == Ok(payload)
  {
  }

  lemma ModuleAtEnd(a: string, s: string)
    requires s == a + "module"
    ensures OccursAt("module", s, |a|)
  {
  }

  lemma FirstModuleAtEnd(a: string, s: string)
    requires OccursAt("module", s, |a|)
    requires forall i :: 0 <= i < |a| ==> !OccursAt("module", s, i)
    ensures IndexOf(s, "module") == Some(|a|)
  {
  }

  lemma RemoveModuleAtEnd(a: string, s: string)
    requires s == a + "module"
    requires IndexOf(s, "module") == Some(|a|)
    ensures Replace(s, "module", "") == a
  {
    assert s[|a| + 6..] == [];
    assert s[..|a|] == a;
  }

  /** Removing "module" from a name that ends with its only occurrence. */
  lemma StripModuleSuffix(a: string, s: string)
    requires s == a + "module"
    requires forall i :: 0 <= i < |a| ==> !OccursAt("module", s, i)
    ensures Replace(s, "module", "") == a
  {
    ModuleAtEnd(a, s);
    FirstModuleAtEnd(a, s);
    RemoveModuleAtEnd(a, s);
  }

  /** `lowered` spells `c` lower-cased, letter by letter. */
  lemma LowerSpelled(c: string, lowered: string)
    requires |c| == |lowered| && forall i :: 0 <= i < |c| ==> LowerChar(c[i]) == lowered[i]
    ensures Lower(c) == lowered
  {
  }

  /** No "module" starts before index `n` when the letter at position `k` of "module"
      is missing from the matching stretch of `s`. */
  lemma NoEarlyModule(s: string, n: nat, k: nat)
    requires k < 6 && n + k <= |s| && "module"[k] !in s[k..n + k]
    ensures forall i :: 0 <= i < n ==> !OccursAt("module", s, i)
  {
    forall i | 0 <= i < n
      ensures !OccursAt("module", s, i)
    {
      assert s[k..n + k][i] == s[i + k];
    }
  }

  /** The name of a class called `<Name>Module`: removing "module" from its lower-cased
      class name leaves `name`, when the letter at position `k` of "module" does not occur
      in the stretch of `lowered` where an earlier "module" would have to put it. */
  lemma StripName(name: string, lowered: string, k: nat)
    requires lowered == name + "module"
    requires k < 6 && "module"[k] !in lowered[k..|name| + k]
    ensures Replace(lowered, "module", "") == name
  {
    NoEarlyModule(lowered, |name|, k);
    StripModuleSuffix(name, lowered);
  }

  lemma SpellContentModeration(c: string, lowered: string)
    requires c == "ContentModerationModule" && lowered == "contentmoderationmodule"
    ensures Lower(c) == lowered
  {
    LowerSpelled(c, lowered);
  }

  lemma NameOfContentModeration(u: Unit)
    requires u == ContentModerationUnit
    ensures Name(u) == "contentmoderation"
  {
    StripName("contentmoderation", "contentmoderationmodule", 3);
    SpellContentModeration(ClassName(u), "contentmoderationmodule");
  }

  lemma SpellPirateMode(c: string, lowered: string)
    requires c == "PirateModeModule" && lowered == "piratemodemodule"
    ensures Lower(c) == lowered
  {
    LowerSpelled(c, lowered);
  }

  lemma NameOfPirateMode(u: Unit)
    requires u == PirateModeUnit
    ensures Name(u) == "piratemode"
  {
    StripName("piratemode", "piratemodemodule", 3);
    SpellPirateMode(ClassName(u), "piratemodemodule");
  }

  lemma SpellResponseFiltering(c: string, lowered: string)
    requires c == "ResponseFilteringModule" && lowered == "responsefilteringmodule"
    ensures Lower(c) == lowered
  {
    LowerSpelled(c, lowered);
  }

  lemma NameOfResponseFiltering(u: Unit)
    requires u == ResponseFilteringUnit
    ensures Name(u) == "responsefiltering"
  {
    StripName("responsefiltering", "responsefilteringmodule", 3);
    SpellResponseFiltering(ClassName(u), "responsefilteringmodule");
  }

  lemma SpellTranslation(c: string, lowered: string)
    requires c == "TranslationModule" && lowered == "translationmodule"
    ensures Lower(c) == lowered
  {
    LowerSpelled(c, lowered);
  }

  lemma NameOfTranslation(u: Unit)
    requires u == TranslationUnit
    ensures Name(u) == "translation"
  {
    StripName("translation", "translationmodule", 3);
    SpellTranslation(ClassName(u), "translationmodule");
  }

  lemma SpellRequestLogging(c: string, lowered: string)
    requires c == "RequestLoggingModule" && lowered == "requestloggingmodule"
    ensures Lower(c) == lowered
  {
    LowerSpelled(c, lowered);
  }

  lemma NameOfRequestLogging(u: Unit)
    requires u == RequestLoggingUnit
    ensures Name(u) == "requestlogging"
  {
    StripName("requestlogging", "requestloggingmodule", 2);
    SpellRequestLogging(ClassName(u), "requestloggingmodule");
  }
}
