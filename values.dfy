/** Decoded JSON as the gateway handles it (request bodies, upstream replies, settings)
    and the Python built-ins the units apply to it: truthiness, `dict.get`, the `in`
    test, iteration and `str()`. An exception raised by any of them is a `Raised`
    result, which aborts the phase that met it. */
module Values {
  import opened Optional
  import opened Text

  datatype Json =
    | Null
    | Bool(b: bool)
    | Int(i: int)
    | Num(r: real)
    | Str(s: string)
    | Arr(items: seq<Json>)
    | Obj(fields: map<string, Json>)

  /** A Python dict with string keys: a payload or a settings snapshot. */
  type Dict = map<string, Json>

  /** The exceptions the core can raise, and the two failures the handlers report. */
  datatype PyError =
    | AttributeError
    | TypeError
    | KeyError(key: string)
    | ClientNotConfigured
    | UpstreamFailure(message: string)

  datatype Result<T> = Ok(value: T) | Raised(error: PyError)

  /** Python's `bool(j)`. */
  predicate Truthy(j: Json)
  {
    match j
    case Null => false
    case Bool(b) => b
    case Int(i) => i != 0
    case Num(r) => r != 0.0
    case Str(s) => s != []
    case Arr(a) => a != []
    case Obj(f) => f != map[]
  }

  /** `d.get(key, default)`. */
  function Get(d: Dict, key: string, default: Json): Json
  {
    if key in d then d[key] else default
  }

  /** Python's `key in container` for a string key: a key test on a dict, an element
      test on a list, a substring test on a str; TypeError on anything else. */
  function Contains(container: Json, key: string): (r: Result<bool>)
    ensures container.Obj? ==> r == Ok(key in container.fields)
    ensures r.Raised? <==> !(container.Obj? || container.Arr? || container.Str?)
  {
    match container
    case Obj(f) => Ok(key in f)
    case Arr(a) => Ok(Str(key) in a)
    case Str(s) => Ok(Occurs(key, s))
    case _ => Raised(TypeError)
  }

  /** What a `for x in j` loop visits: the items of a list, or string elements (the keys
      of a dict, the characters of a str). No unit can change a string element: each
      one either raises or is skipped, so their order does not matter. */
  datatype Elements = Items(items: seq<Json>) | Strings(strs: set<string>)

  /** `iter(j)`: TypeError for None, bools and numbers. */
  function Iterate(j: Json): (r: Result<Elements>)
    ensures j.Arr? ==> r == Ok(Items(j.items))
    ensures j.Obj? ==> r == Ok(Strings(j.fields.Keys))
    ensures r.Ok? && r.value.Strings? ==> (r.value.strs == {} <==> !Truthy(j))
  {
    match j
    case Arr(a) => Ok(Items(a))
    case Obj(f) => Ok(Strings(f.Keys))
    case Str(s) =>
      CharsNonEmpty(s);
      Ok(Strings(set c | c in s :: [c]))
    case _ => Raised(TypeError)
  }

  lemma CharsNonEmpty(s: string)
    ensures (set c | c in s :: [c]) == {} <==> s == []
  {
    var cs := set c | c in s :: [c];
    if s != [] {
      assert s[0] in s;
      assert [s[0]] in cs;
    }
  }

  /** `str(j)` as an f-string renders it: exact for strings, None, booleans and ints.
      Floats, lists and dicts get a fixed stand-in text. */
  function PyStr(j: Json): string
  {
    match j
    case Null => "None"
    case Bool(b) => if b then "True" else "False"
    case Int(i) => IntToString(i)
    case Num(_) => "<float>"
    case Str(s) => s
    case Arr(_) => "<list>"
    case Obj(_) => "<dict>"
  }

  /** Applies `f` to each element in order and stops at the first exception, as a
      `for` loop that rewrites a list in place does. */
  function MapAll(f: Json -> Result<Json>, xs: seq<Json>): (r: Result<seq<Json>>)
    ensures r.Ok? ==> |r.value| == |xs| && forall i :: 0 <= i < |xs| ==> f(xs[i]) == Ok(r.value[i])
    ensures (forall i :: 0 <= i < |xs| ==> f(xs[i]).Ok?) ==> r.Ok?
    ensures r.Raised? ==> exists i :: 0 <= i < |xs| && f(xs[i]) == Raised(r.error)
    decreases |xs|
  {
    if xs == [] then Ok([])
    else match f(xs[0])
      case Raised(e) => Raised(e)
      case Ok(y) =>
        match MapAll(f, xs[1..])
        case Raised(e) => Raised(e)
        case Ok(ys) => Ok([y] + ys)
  }

  /** `MapAll` succeeds with `out` when `f` maps every element to its partner in `out`. */
  lemma {:induction false} MapAllAllOk(f: Json -> Result<Json>, xs: seq<Json>, out: seq<Json>)
    requires |out| == |xs| && forall k :: 0 <= k < |xs| ==> f(xs[k]) == Ok(out[k])
    ensures MapAll(f, xs) == Ok(out)
    decreases |xs|
  {
    if xs != [] {
      MapAllAllOk(f, xs[1..], out[1..]);
      assert out == [out[0]] + out[1..];
    }
  }

  /** `MapAll` stops at the first element `f` raises on. */
  lemma {:induction false} MapAllFirstError(f: Json -> Result<Json>, xs: seq<Json>, i: nat)
    requires i < |xs| && f(xs[i]).Raised?
    requires forall k :: 0 <= k < i ==> f(xs[k]).Ok?
    ensures MapAll(f, xs) == Raised(f(xs[i]).error)
    decreases i
  {
    if i > 0 {
      MapAllFirstError(f, xs[1..], i - 1);
    }
  }

  /** Evaluates `"message" in c and "content" in c["message"]` and, when it holds,
      reads `c["message"]["content"]`: Some(content) when both keys are there, None
      when the test is false. A str or list that passes a test cannot be indexed by a
      str key (TypeError). */
  function ChoiceContent(c: Json): (r: Result<Option<Json>>)
    ensures r.Ok? && r.value.Some? ==>
      && c.Obj? && "message" in c.fields && c.fields["message"].Obj?
      && "content" in c.fields["message"].fields
      && r.value.value == c.fields["message"].fields["content"]
    ensures c.Obj? && "message" !in c.fields ==> r == Ok(None)
    ensures (c.Obj? && "message" in c.fields && c.fields["message"].Obj?
      && "content" in c.fields["message"].fields) ==> r == Ok(Some(c.fields["message"].fields["content"]))
  {
    match Contains(c, "message")
    case Raised(e) => Raised(e)
    case Ok(false) => Ok(None)
    case Ok(true) =>
      if !c.Obj? then Raised(TypeError)
      else
        var m := c.fields["message"];
        match Contains(m, "content")
        case Raised(e) => Raised(e)
        case Ok(false) => Ok(None)
        case Ok(true) =>
          if !m.Obj? then Raised(TypeError) else Ok(Some(m.fields["content"]))
  }

  /** Over string elements, the choice loops raise TypeError exactly when some element
      holds "message": only then does `"message" in choice` pass, and a str cannot be
      indexed by a str. */
  predicate SomeKeyMentionsMessage(ks: set<string>)
  {
    exists k | k in ks :: Occurs("message", k)
  }

  /** `c["message"]["content"] = v` on a choice that has both keys. */
  function SetChoiceContent(c: Json, v: Json): Json
    requires c.Obj? && "message" in c.fields && c.fields["message"].Obj?
  {
    Obj(c.fields["message" := Obj(c.fields["message"].fields["content" := v])])
  }

  /** `message.get("role") == role` on a message dict. */
  predicate HasRole(m: Json, role: string)
  {
    m.Obj? && Get(m.fields, "role", Null) == Str(role)
  }
}
