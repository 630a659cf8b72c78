/** The translation unit (class TranslationModule). Its request phase replaces the
    content of every user message with a fixed question; it has no response phase of its
    own, so the base class returns the response as it is. */
module Translation {
  import opened Values

  const Question: string := "What's a cactus?"

  /** One message of the loop: `message.get("role")` needs a dict. */
  function TranslateMessage(m: Json): Result<Json>
  {
    if !m.Obj? then Raised(AttributeError)
    else if HasRole(m, "user") then Ok(Obj(m.fields["content" := Str(Question)]))
    else Ok(m)
  }

  /** `_process_request`: every message of `request_data.get("messages", [])`. */
  function TranslateRequest(req: Dict): Result<Dict>
  {
    match Iterate(Get(req, "messages", Arr([])))
    case Raised(e) => Raised(e)
    case Ok(Strings(ks)) => if ks == {} then Ok(req) else Raised(AttributeError)
    case Ok(Items(items)) =>
      match MapAll(TranslateMessage, items)
      case Raised(e) => Raised(e)
      case Ok(ms) => Ok(if "messages" in req then req["messages" := Arr(ms)] else req)
  }

  /** One message of the loop. */
  method TranslateOne(message: Json) returns (r: Result<Json>)
    ensures r == TranslateMessage(message)
  {
    if !message.Obj? {
      return Raised(AttributeError);
    }
    r := Ok(message);
    if Get(message.fields, "role", Null) == Str("user") {
      r := Ok(Obj(message.fields["content" := Str(Question)]));
    }
  }

  /** The loop over the messages, rewriting each in place. */
  method TranslateItems(items: seq<Json>) returns (r: Result<seq<Json>>)
    ensures r == MapAll(TranslateMessage, items)
  {
    var out := items;
    var i := 0;
    while i < |items|
      invariant 0 <= i <= |items| && |out| == |items| && out[i..] == items[i..]
      invariant forall k :: 0 <= k < i ==> TranslateMessage(items[k]) == Ok(out[k])
    {
      assert out[i] == out[i..][0] == items[i];
      var y := TranslateOne(out[i]);
      if y.Raised? {
        MapAllFirstError(TranslateMessage, items, i);
        return Raised(y.error);
      }
      out := out[i := y.value];
      i := i + 1;
    }
    MapAllAllOk(TranslateMessage, items, out);
    r := Ok(out);
  }


  /** The request phase as the source runs it: a loop over the messages. */
  method ProcessRequest(req: Dict) returns (r: Result<Dict>)
    ensures r == TranslateRequest(req)
  {
    var elements := Iterate(Get(req, "messages", Arr([])));
    if elements.Raised? {
      return Raised(elements.error);
    }
    if elements.value.Strings? {
      return if elements.value.strs == {} then Ok(req) else Raised(AttributeError);
    }
    var out := TranslateItems(elements.value.items);
    if out.Raised? {
      return Raised(out.error);
    }
    r := Ok(if "messages" in req then req["messages" := Arr(out.value)] else req);
  }

  // ---- properties ----

  /** Afterwards every user message asks the fixed question and keeps its other fields,
      every other message is as it was, and no key other than "messages" changes. */
  lemma TranslateRequestShape(req: Dict, out: Dict)
    requires TranslateRequest(req) == Ok(out)
    ensures out.Keys == req.Keys
    ensures forall k :: k in req && k != "messages" ==> out[k] == req[k]
    ensures "messages" in req && req["messages"].Arr? ==>
      var ms, ns := req["messages"].items, out["messages"].items;
      && out["messages"].Arr? && |ns| == |ms|
      && forall i :: 0 <= i < |ms| ==>
           && ms[i].Obj? && ns[i].Obj? && ns[i].fields.Keys == ms[i].fields.Keys + (if HasRole(ms[i], "user") then {"content"} else {})
           && (HasRole(ns[i], "user") <==> HasRole(ms[i], "user"))
           && (HasRole(ms[i], "user") ==> ns[i].fields["content"] == Str(Question))
           && (HasRole(ms[i], "user") ==> ns[i] == Obj(ms[i].fields["content" := Str(Question)]))
           && (!HasRole(ms[i], "user") ==> ns[i] == ms[i])
  {
  }

  /** Translating twice gives what translating once gave. */
  lemma TranslateRequestIdempotent(req: Dict, out: Dict)
    requires TranslateRequest(req) == Ok(out)
    ensures TranslateRequest(out) == Ok(out)
  {
    TranslateRequestShape(req, out);
    var ms := Get(req, "messages", Arr([]));
    if ms.Arr? {
      var ns := Get(out, "messages", Arr([])).items;
      forall i | 0 <= i < |ns|
        ensures TranslateMessage(ns[i]) == Ok(ns[i])
      {
        if HasRole(ns[i], "user") {
          assert ns[i].fields["content" := Str(Question)] == ns[i].fields;
        }
      }
      var again := MapAll(TranslateMessage, ns);
      assert again.Ok? && again.value == ns;
      if "messages" in out {
        assert out["messages" := Arr(ns)] == out;
      }
    }
  }
}
