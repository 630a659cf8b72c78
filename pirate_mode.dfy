/** The pirate-mode unit (class PirateModeModule). Its request phase prefixes the last
    user message with an instruction, and its response phase appends a note to every
    choice's content. */
module PirateMode {
  import opened Optional
  import opened Values

  const Instruction: string := "Respond like a pirate. "
  const Note: string := "\n\n[Told to respond like a pirate]"

  /** The backward scan for the last user message among the first `n` messages. It
      stops at the first message from the end whose role is "user"; every message it
      looks at must be a dict, because `.get` raises AttributeError on anything else. */
  function LastUserBelow(ms: seq<Json>, n: nat): (r: Result<Option<nat>>)
    requires n <= |ms|
    ensures r.Ok? && r.value.Some? ==>
      && r.value.value < n && HasRole(ms[r.value.value], "user")
      && forall j :: r.value.value < j < n ==> ms[j].Obj? && !HasRole(ms[j], "user")
    ensures r.Ok? && r.value.None? ==> forall j :: 0 <= j < n ==> ms[j].Obj? && !HasRole(ms[j], "user")
    ensures r.Raised? ==>
      && r.error == AttributeError
      && exists j :: 0 <= j < n && !ms[j].Obj? && forall k :: j < k < n ==> ms[k].Obj? && !HasRole(ms[k], "user")
  {
    if n == 0 then Ok(None)
    else if !ms[n - 1].Obj? then Raised(AttributeError)
    else if HasRole(ms[n - 1], "user") then Ok(Some(n - 1))
    else LastUserBelow(ms, n - 1)
  }

  function LastUser(ms: seq<Json>): Result<Option<nat>>
  {
    LastUserBelow(ms, |ms|)
  }

  /** `messages[i]['content'] = f"Respond like a pirate. {original_content}"`. */
  function Prefixed(m: Json): Json
    requires m.Obj?
  {
    Obj(m.fields["content" := Str(Instruction + PyStr(Get(m.fields, "content", Str(""))))])
  }

  /** `_process_request`: only a non-empty list under "messages" is looked at. */
  function PirateRequest(req: Dict): Result<Dict>
  {
    if "messages" !in req then Ok(req)
    else
      var ms := req["messages"];
      if !(Truthy(ms) && ms.Arr?) then Ok(req)
      else match LastUser(ms.items)
        case Raised(e) => Raised(e)
        case Ok(None) => Ok(req)
        case Ok(Some(i)) => Ok(req["messages" := Arr(ms.items[i := Prefixed(ms.items[i])])])
  }

  /** One choice of the response loop. */
  function MarkChoice(c: Json): Result<Json>
  {
    match ChoiceContent(c)
    case Raised(e) => Raised(e)
    case Ok(None) => Ok(c)
    case Ok(Some(v)) => Ok(SetChoiceContent(c, Str(PyStr(v) + Note)))
  }

  /** `_process_response`: every choice under "choices", when that key is present. */
  function PirateResponse(resp: Dict): Result<Dict>
  {
    if "choices" !in resp then Ok(resp)
    else match Iterate(resp["choices"])
      case Raised(e) => Raised(e)
      case Ok(Strings(ks)) => if SomeKeyMentionsMessage(ks) then Raised(TypeError) else Ok(resp)
      case Ok(Items(items)) =>
        match MapAll(MarkChoice, items)
        case Raised(e) => Raised(e)
        case Ok(cs) => Ok(resp["choices" := Arr(cs)])
  }

  /** The request phase as the source runs it: `for i in range(len(messages) - 1, -1, -1)`
      with a `break` after the first user message. */
  method ProcessRequest(req: Dict) returns (r: Result<Dict>)
    ensures r == PirateRequest(req)
  {
    if "messages" !in req {
      return Ok(req);
    }
    var messages := req["messages"];
    if !(Truthy(messages) && messages.Arr?) {
      return Ok(req);
    }
    var items := messages.items;
    var i := |items|;
    while i > 0
      invariant 0 <= i <= |items|
      invariant LastUser(items) == LastUserBelow(items, i)
    {
      var m := items[i - 1];
      if !m.Obj? {
        return Raised(AttributeError);
      }
      if Get(m.fields, "role", Null) == Str("user") {
        return Ok(req["messages" := Arr(items[i - 1 := Prefixed(m)])]);
      }
      i := i - 1;
    }
    r := Ok(req);
  }

  /** One choice of the response loop. */
  method MarkOne(choice: Json) returns (r: Result<Json>)
    ensures r == MarkChoice(choice)
  {
    var found := ChoiceContent(choice);
    if found.Raised? {
      return Raised(found.error);
    }
    r := Ok(choice);
    if found.value.Some? {
      r := Ok(SetChoiceContent(choice, Str(PyStr(found.value.value) + Note)));
    }
  }

  /** The loop over the choices, marking each content. */
  method MarkItems(items: seq<Json>) returns (r: Result<seq<Json>>)
    ensures r == MapAll(MarkChoice, items)
  {
    var out := items;
    var i := 0;
    while i < |items|
      invariant 0 <= i <= |items| && |out| == |items| && out[i..] == items[i..]
      invariant forall k :: 0 <= k < i ==> MarkChoice(items[k]) == Ok(out[k])
    {
      assert out[i] == out[i..][0] == items[i];
      var y := MarkOne(out[i]);
      if y.Raised? {
        MapAllFirstError(MarkChoice, items, i);
        return Raised(y.error);
      }
      out := out[i := y.value];
      i := i + 1;
    }
    MapAllAllOk(MarkChoice, items, out);
    r := Ok(out);
  }


  /** The response phase as the source runs it: a loop over the choices. */
  method ProcessResponse(resp: Dict) returns (r: Result<Dict>)
    ensures r == PirateResponse(resp)
  {
    if "choices" !in resp {
      return Ok(resp);
    }
    var elements := Iterate(resp["choices"]);
    if elements.Raised? {
      return Raised(elements.error);
    }
    if elements.value.Strings? {
      return if SomeKeyMentionsMessage(elements.value.strs) then Raised(TypeError) else Ok(resp);
    }
    var out := MarkItems(elements.value.items);
    if out.Raised? {
      return Raised(out.error);
    }
    r := Ok(resp["choices" := Arr(out.value)]);
  }

  // ---- properties ----

  /** The request phase changes at most one message: the last user message, whose
      content gets the instruction in front. Every other key and message is kept. */
  lemma PirateRequestChangesLastUser(req: Dict, out: Dict)
    requires PirateRequest(req) == Ok(out)
    ensures "messages" !in req || !req["messages"].Arr? || req["messages"].items == [] ==> out == req
    ensures out.Keys == req.Keys
    ensures forall k :: k in req && k != "messages" ==> out[k] == req[k]
    ensures "messages" in req && req["messages"].Arr? ==>
      var ms, ns := req["messages"].items, out["messages"].items;
      && out["messages"].Arr? && |ns| == |ms|
      && (forall j :: 0 <= j < |ms| && ns[j] != ms[j] ==>
            && HasRole(ms[j], "user") && (forall k :: j < k < |ms| ==> !HasRole(ms[k], "user"))
            && ns[j] == Prefixed(ms[j]))
      && (forall j :: 0 <= j < |ms| && HasRole(ms[j], "user") && (forall k :: j < k < |ms| ==> !HasRole(ms[k], "user")) ==>
            ns[j] == Prefixed(ms[j]))
  {
    if "messages" in req && req["messages"].Arr? {
      var ms := req["messages"].items;
      match LastUser(ms)
      case Ok(Some(i)) =>
        forall j | 0 <= j < |ms| && HasRole(ms[j], "user") && (forall k :: j < k < |ms| ==> !HasRole(ms[k], "user"))
          ensures j == i
        {
        }
      case _ =>
    }
  }

  /** A last user message without content becomes the instruction alone, as
      `messages[i].get('content', '')` reads an empty text. */
  lemma UserWithoutContent(req: Dict, out: Dict, i: nat)
    requires PirateRequest(req) == Ok(out)
    requires "messages" in req && req["messages"].Arr? && LastUser(req["messages"].items) == Ok(Some(i))
    requires "content" !in req["messages"].items[i].fields
    ensures out["messages"].items[i].fields["content"] == Str(Instruction)
  {
    assert Instruction + PyStr(Str("")) == Instruction;
  }

  /** The scan only looks at which messages are dicts and which have role "user". */
  lemma {:induction false} LastUserSameRoles(ms: seq<Json>, ns: seq<Json>, n: nat)
    requires n <= |ms| == |ns|
    requires forall j :: 0 <= j < n ==> (ms[j].Obj? <==> ns[j].Obj?) && (HasRole(ms[j], "user") <==> HasRole(ns[j], "user"))
    ensures LastUserBelow(ms, n) == LastUserBelow(ns, n)
  {
    if n > 0 {
      LastUserSameRoles(ms, ns, n - 1);
    }
  }

  /** The instruction is not idempotent: a second pass finds the same message and puts
      the instruction in front once more. */
  lemma PirateRequestTwice(req: Dict, out: Dict, i: nat)
    requires PirateRequest(req) == Ok(out)
    requires "messages" in req && req["messages"].Arr? && LastUser(req["messages"].items) == Ok(Some(i))
    ensures PirateRequest(out).Ok?
    ensures
      var ms, again := req["messages"].items, PirateRequest(out).value["messages"].items;
      again[i] == Obj(ms[i].fields["content" := Str(Instruction + Instruction + PyStr(Get(ms[i].fields, "content", Str(""))))])
  {
    var ms := req["messages"].items;
    var ns := out["messages"].items;
    assert ns == ms[i := Prefixed(ms[i])];
    assert HasRole(Prefixed(ms[i]), "user") by {
      assert Prefixed(ms[i]).fields["role"] == ms[i].fields["role"];
    }
    LastUserSameRoles(ms, ns, |ms|);
    var c := Instruction + PyStr(Get(ms[i].fields, "content", Str("")));
    assert Instruction + c == Instruction + Instruction + PyStr(Get(ms[i].fields, "content", Str("")));
    assert ns[i].fields["content" := Str(Instruction + c)] == ms[i].fields["content" := Str(Instruction + c)];
  }

  /** Every choice with a content gets the note appended to the text of its old content,
      and nothing else in it changes; choices without one, and every other key, are kept. */
  lemma PirateResponseMarks(resp: Dict, out: Dict)
    requires PirateResponse(resp) == Ok(out)
    ensures out.Keys == resp.Keys
    ensures forall k :: k in resp && k != "choices" ==> out[k] == resp[k]
    ensures "choices" in resp && resp["choices"].Arr? ==>
      var cs, ds := resp["choices"].items, out["choices"].items;
      && out["choices"].Arr? && |ds| == |cs|
      && forall i :: 0 <= i < |cs| ==>
           match ChoiceContent(cs[i])
           case Ok(Some(v)) =>
             && ds[i].Obj? && ds[i].fields.Keys == cs[i].fields.Keys
             && ds[i].fields["message"].Obj?
             && ds[i].fields["message"].fields["content"] == Str(PyStr(v) + Note)
             && ds[i].fields["message"].fields.Keys == cs[i].fields["message"].fields.Keys
             && ds[i] == SetChoiceContent(cs[i], Str(PyStr(v) + Note))
           case _ => ds[i] == cs[i]
  {
  }

  /** The appended note always ends the content, and the old text comes first. */
  lemma MarkedContentEndsWithNote(c: Json, d: Json)
    requires MarkChoice(c) == Ok(d) && ChoiceContent(c).value.Some?
    ensures
      var s := d.fields["message"].fields["content"].s;
      && |s| >= |Note| && s[|s| - |Note|..] == Note
      && s[..|s| - |Note|] == PyStr(ChoiceContent(c).value.value)
  {
  }
}
