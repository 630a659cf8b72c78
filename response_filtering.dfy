/** The response-filtering unit (class ResponseFilteringModule). Its request phase reads
    three settings: a system-prompt prefix put in front of every system message, a
    temperature override and a max-tokens limit. A setting whose text does not parse is
    skipped, as the source's `except ValueError: pass` does. Its response phase returns
    the response as it is. */
module ResponseFiltering {
  import opened Optional
  import opened Text
  import opened Values

  /** `int(r)` for a float: truncation toward zero. */
  function Trunc(r: real): (n: int)
    ensures r >= 0.0 ==> 0 <= n && n as real <= r < n as real + 1.0
    ensures r < 0.0 ==> n <= 0 && n as real - 1.0 < r <= n as real
  {
    if r >= 0.0 then r.Floor else 0 - (0.0 - r).Floor
  }

  /** `float(j)`: Some(value), None where Python raises ValueError (a str that does not
      parse), or TypeError (a list, a dict, None), which the source does not catch. */
  function ToFloat(j: Json): Result<Option<real>>
  {
    match j
    case Bool(b) => Ok(Some(if b then 1.0 else 0.0))
    case Int(i) => Ok(Some(i as real))
    case Num(r) => Ok(Some(r))
    case Str(s) => Ok(ParseDecimal(s))
    case _ => Raised(TypeError)
  }

  /** `int(j)`, with the same three outcomes. */
  function ToInt(j: Json): Result<Option<int>>
  {
    match j
    case Bool(b) => Ok(Some(if b then 1 else 0))
    case Int(i) => Ok(Some(i))
    case Num(r) => Ok(Some(Trunc(r)))
    case Str(s) => Ok(ParseInt(s))
    case _ => Raised(TypeError)
  }

  /** One message of the prefix loop: `message.get("role")` needs a dict, and
      `message['content']` raises KeyError on a system message without content. */
  function PrefixIfSystem(prefix: string, m: Json): Result<Json>
  {
    if !m.Obj? then Raised(AttributeError)
    else if !HasRole(m, "system") then Ok(m)
    else if "content" !in m.fields then Raised(KeyError("content"))
    else Ok(Obj(m.fields["content" := Str(prefix + "\n" + PyStr(m.fields["content"]))]))
  }

  function PrefixOne(prefix: string): Json -> Result<Json>
  {
    m => PrefixIfSystem(prefix, m)
  }

  /** The first block: runs only for a truthy prefix setting. */
  function PrefixSystem(req: Dict, prefix: Json): Result<Dict>
  {
    if !Truthy(prefix) then Ok(req)
    else match Iterate(Get(req, "messages", Arr([])))
      case Raised(e) => Raised(e)
      case Ok(Strings(ks)) => if ks == {} then Ok(req) else Raised(AttributeError)
      case Ok(Items(items)) =>
        match MapAll(PrefixOne(PyStr(prefix)), items)
        case Raised(e) => Raised(e)
        case Ok(ms) => Ok(if "messages" in req then req["messages" := Arr(ms)] else req)
  }

  /** The second block: `request_data["temperature"] = float(temp_override)`. */
  function OverrideTemperature(req: Dict, t: Json): Result<Dict>
  {
    if !Truthy(t) then Ok(req)
    else match ToFloat(t)
      case Raised(e) => Raised(e)
      case Ok(None) => Ok(req)
      case Ok(Some(x)) => Ok(req["temperature" := Num(x)])
  }

  /** The third block: `request_data["max_tokens"] = int(max_tokens)`. */
  function LimitTokens(req: Dict, n: Json): Result<Dict>
  {
    if !Truthy(n) then Ok(req)
    else match ToInt(n)
      case Raised(e) => Raised(e)
      case Ok(None) => Ok(req)
      case Ok(Some(k)) => Ok(req["max_tokens" := Int(k)])
  }

  /** `_process_request`: the three blocks in order; an exception ends the phase. */
  function FilterRequest(req: Dict, settings: Dict): Result<Dict>
  {
    match PrefixSystem(req, Get(settings, "system_prompt_prefix", Str("")))
    case Raised(e) => Raised(e)
    case Ok(a) =>
      match OverrideTemperature(a, Get(settings, "temperature_override", Str("")))
      case Raised(e) => Raised(e)
      case Ok(b) => LimitTokens(b, Get(settings, "max_tokens_limit", Str("")))
  }

  /** `_process_response`: the response format setting is read and nothing is done. */
  function FilterResponse(resp: Dict, settings: Dict): (r: Result<Dict>)
    ensures r == Ok(resp)
  {
    var _ := Get(settings, "response_format", Str("json"));
    Ok(resp)
  }

  /** One message of the prefix loop. */
  method PrefixMessage(prefix: string, message: Json) returns (r: Result<Json>)
    ensures r == PrefixIfSystem(prefix, message)
  {
    if !message.Obj? {
      return Raised(AttributeError);
    }
    r := Ok(message);
    if Get(message.fields, "role", Null) == Str("system") {
      if "content" !in message.fields {
        return Raised(KeyError("content"));
      }
      r := Ok(Obj(message.fields["content" := Str(prefix + "\n" + PyStr(message.fields["content"]))]));
    }
  }

  /** The loop over the messages, rewriting each in place. */
  method PrefixItems(p: string, items: seq<Json>) returns (r: Result<seq<Json>>)
    ensures r == MapAll(PrefixOne(p), items)
  {
    var out := items;
    var i := 0;
    while i < |items|
      invariant 0 <= i <= |items| && |out| == |items| && out[i..] == items[i..]
      invariant forall k :: 0 <= k < i ==> PrefixOne(p)(items[k]) == Ok(out[k])
    {
      assert out[i] == out[i..][0] == items[i];
      var y := PrefixMessage(p, out[i]);
      if y.Raised? {
        MapAllFirstError(PrefixOne(p), items, i);
        return Raised(y.error);
      }
      out := out[i := y.value];
      i := i + 1;
    }
    MapAllAllOk(PrefixOne(p), items, out);
    r := Ok(out);
  }


  /** The first block as the source runs it: the loop over the messages. */
  method PrefixLoop(req: Dict, systemPrefix: Json) returns (r: Result<Dict>)
    ensures r == PrefixSystem(req, systemPrefix)
  {
    if !Truthy(systemPrefix) {
      return Ok(req);
    }
    var elements := Iterate(Get(req, "messages", Arr([])));
    if elements.Raised? {
      return Raised(elements.error);
    }
    if elements.value.Strings? {
      return if elements.value.strs == {} then Ok(req) else Raised(AttributeError);
    }
    var out := PrefixItems(PyStr(systemPrefix), elements.value.items);
    if out.Raised? {
      return Raised(out.error);
    }
    r := Ok(if "messages" in req then req["messages" := Arr(out.value)] else req);
  }

  /** The request phase as the source runs it: the prefix loop, then the two `try`
      blocks, each of which skips a value that does not parse. */
  method ProcessRequest(req: Dict, settings: Dict) returns (r: Result<Dict>)
    ensures r == FilterRequest(req, settings)
  {
    var prefixed := PrefixLoop(req, Get(settings, "system_prompt_prefix", Str("")));
    if prefixed.Raised? {
      return prefixed;
    }
    var data := prefixed.value;
    var tempOverride := Get(settings, "temperature_override", Str(""));
    if Truthy(tempOverride) {
      var x := ToFloat(tempOverride);
      if x.Raised? {
        return Raised(x.error);
      }
      if x.value.Some? {
        data := data["temperature" := Num(x.value.value)];
      }
    }
    var maxTokens := Get(settings, "max_tokens_limit", Str(""));
    if Truthy(maxTokens) {
      var n := ToInt(maxTokens);
      if n.Raised? {
        return Raised(n.error);
      }
      if n.value.Some? {
        data := data["max_tokens" := Int(n.value.value)];
      }
    }
    r := Ok(data);
  }

  // ---- properties ----

  /** Only system messages change, each to the prefix, a newline and its old content;
      the list keeps its length and order. */
  lemma PrefixSystemMessages(req: Dict, prefix: Json, out: Dict)
    requires PrefixSystem(req, prefix) == Ok(out)
    ensures out.Keys == req.Keys
    ensures forall k :: k in req && k != "messages" ==> out[k] == req[k]
    ensures "messages" in req && req["messages"].Arr? ==>
      var ms, ns := req["messages"].items, out["messages"].items;
      && out["messages"].Arr? && |ns| == |ms|
      && forall i :: 0 <= i < |ms| ==>
           if Truthy(prefix) && HasRole(ms[i], "system") then
             && "content" in ms[i].fields
             && ns[i] == Obj(ms[i].fields["content" := Str(PyStr(prefix) + "\n" + PyStr(ms[i].fields["content"]))])
           else ns[i] == ms[i]
  {
    if Truthy(prefix) && "messages" in req && req["messages"].Arr? {
      var ms := req["messages"].items;
      var ns := MapAll(PrefixOne(PyStr(prefix)), ms).value;
      forall i | 0 <= i < |ms|
        ensures PrefixIfSystem(PyStr(prefix), ms[i]) == Ok(ns[i])
      {
        assert PrefixOne(PyStr(prefix))(ms[i]) == Ok(ns[i]);
      }
    }
  }

  /** A limit whose text parses as an int becomes that int under "max_tokens". */
  lemma LimitTokensParses(req: Dict, settings: Dict, out: Dict, t: string, n: int)
    requires FilterRequest(req, settings) == Ok(out)
    requires Get(settings, "max_tokens_limit", Str("")) == Str(t) && ParseInt(t) == Some(n)
    ensures "max_tokens" in out && out["max_tokens"] == Int(n)
  {
  }

  /** In particular a limit stored as `str(n)` gives back `n`. */
  lemma LimitTokensRoundTrip(req: Dict, settings: Dict, out: Dict, n: int)
    requires FilterRequest(req, settings) == Ok(out)
    requires Get(settings, "max_tokens_limit", Str("")) == Str(IntToString(n))
    ensures "max_tokens" in out && out["max_tokens"] == Int(n)
  {
    IntToStringRoundTrip(n);
    LimitTokensParses(req, settings, out, IntToString(n), n);
  }

  /** A temperature that is unset, empty or does not parse leaves "temperature" as it
      was, present or absent. */
  lemma UnparsableTemperatureSkipped(req: Dict, settings: Dict, out: Dict)
    requires FilterRequest(req, settings) == Ok(out)
    requires var t := Get(settings, "temperature_override", Str(""));
      !Truthy(t) || (t.Str? && ParseDecimal(t.s).None?)
    ensures "temperature" in out <==> "temperature" in req
    ensures "temperature" in req ==> out["temperature"] == req["temperature"]
  {
  }

  /** A limit that is unset, empty or does not parse as an int leaves "max_tokens" as it
      was, present or absent. */
  lemma UnparsableLimitSkipped(req: Dict, settings: Dict, out: Dict)
    requires FilterRequest(req, settings) == Ok(out)
    requires var n := Get(settings, "max_tokens_limit", Str(""));
      !Truthy(n) || (n.Str? && ParseInt(n.s).None?)
    ensures "max_tokens" in out <==> "max_tokens" in req
    ensures "max_tokens" in req ==> out["max_tokens"] == req["max_tokens"]
  {
  }

  /** The request phase adds at most "temperature" and "max_tokens" and changes no key
      other than those and "messages". */
  lemma FilterRequestKeys(req: Dict, settings: Dict, out: Dict)
    requires FilterRequest(req, settings) == Ok(out)
    ensures req.Keys <= out.Keys <= req.Keys + {"temperature", "max_tokens"}
    ensures forall k :: k in req && k !in {"messages", "temperature", "max_tokens"} ==> out[k] == req[k]
  {
    var a := PrefixSystem(req, Get(settings, "system_prompt_prefix", Str(""))).value;
    PrefixSystemMessages(req, Get(settings, "system_prompt_prefix", Str("")), a);
  }

  /** With no prefix set the messages are left alone. */
  lemma NoPrefixKeepsMessages(req: Dict, settings: Dict, out: Dict)
    requires FilterRequest(req, settings) == Ok(out)
    requires !Truthy(Get(settings, "system_prompt_prefix", Str("")))
    ensures ("messages" in out <==> "messages" in req)
    ensures "messages" in req ==> out["messages"] == req["messages"]
  {
  }
}
