/** The content-moderation unit (class ContentModerationModule). Its request phase
    looks for three banned words in each message's lower-cased content and replaces
    each word it finds with a marker. The replacement itself is case-sensitive, so
    "HACK" is found but stays in place. Its response phase rewrites each choice's
    content with the same value. */
module ContentModeration {
  import opened Text
  import opened Values
  import opened Optional

  const BannedWords: seq<string> := ["hack", "exploit", "malware"]
  const Marker: string := "[FILTERED]"

  lemma BannedWordsShape()
    ensures |BannedWords| == 3
    ensures forall k :: 0 <= k < 3 ==> |BannedWords[k]| > 0 && IsLowerWord(BannedWords[k])
    ensures forall k :: 0 <= k < 3 ==> Marker[0] !in BannedWords[k] && Marker[|Marker| - 1] !in BannedWords[k]
    ensures forall k :: 0 <= k < 3 ==> !Occurs(BannedWords[k], Marker)
  {
    assert Marker[0] == '[' && Marker[|Marker| - 1] == ']';
    AbsentChar("hack", Marker, 0);
    AbsentChar("exploit", Marker, 0);
    AbsentChar("malware", Marker, 0);
  }

  /** The inner loop: each word still to visit is replaced in `s` when the lower-cased
      original content `lowered` holds it. */
  function FilterWords(lowered: string, s: string, words: seq<string>): string
    requires forall k :: 0 <= k < |words| ==> |words[k]| > 0
    decreases |words|
  {
    if words == [] then s
    else
      var next := if Occurs(words[0], lowered) then Replace(s, words[0], Marker) else s;
      FilterWords(lowered, next, words[1..])
  }

  /** The content after the inner loop, starting from content `s`. */
  function Filter(s: string): string
  {
    BannedWordsShape();
    FilterWords(Lower(s), s, BannedWords)
  }

  /** Some banned word occurs in the lower-cased content: the message gets rewritten. */
  predicate Detected(s: string)
  {
    exists k | 0 <= k < |BannedWords| :: Occurs(BannedWords[k], Lower(s))
  }

  /** No banned word occurs, case-sensitively. */
  predicate Clean(s: string)
  {
    forall k | 0 <= k < |BannedWords| :: !Occurs(BannedWords[k], s)
  }

  /** One iteration of the outer loop: a message must be a dict whose content, when
      present, is a str (`.get` and `.lower()` raise AttributeError otherwise). */
  function ModerateMessage(m: Json): Result<Json>
  {
    match m
    case Obj(f) =>
      var c := Get(f, "content", Str(""));
      if !c.Str? then Raised(AttributeError)
      else if Detected(c.s) then Ok(Obj(f["content" := Str(Filter(c.s))]))
      else Ok(m)
    case _ => Raised(AttributeError)
  }

  /** `_process_request`: every message of `request["messages"]` (default `[]`) in turn. */
  function ModerateRequest(req: Dict): Result<Dict>
  {
    match Iterate(Get(req, "messages", Arr([])))
    case Raised(e) => Raised(e)
    case Ok(Strings(ks)) => if ks == {} then Ok(req) else Raised(AttributeError)
    case Ok(Items(items)) =>
      match MapAll(ModerateMessage, items)
      case Raised(e) => Raised(e)
      case Ok(ms) => Ok(if "messages" in req then req["messages" := Arr(ms)] else req)
  }

  /** One iteration of the response loop: the content is written back unchanged. */
  function KeepChoice(c: Json): Result<Json>
  {
    match ChoiceContent(c)
    case Raised(e) => Raised(e)
    case Ok(None) => Ok(c)
    case Ok(Some(v)) => Ok(SetChoiceContent(c, v))
  }

  /** `_process_response`: every choice of `response["choices"]` (default `[]`). */
  function ModerateResponse(resp: Dict): Result<Dict>
  {
    match Iterate(Get(resp, "choices", Arr([])))
    case Raised(e) => Raised(e)
    case Ok(Strings(ks)) => if SomeKeyMentionsMessage(ks) then Raised(TypeError) else Ok(resp)
    case Ok(Items(items)) =>
      match MapAll(KeepChoice, items)
      case Raised(e) => Raised(e)
      case Ok(cs) => Ok(if "choices" in resp then resp["choices" := Arr(cs)] else resp)
  }

  /** The banned-word loop on one content: every detected word is replaced in turn;
      `hit` says whether any was detected, that is whether the message is written. */
  method FilterLoop(lowered: string, content: string) returns (out: string, hit: bool)
    ensures out == FilterWords(lowered, content, BannedWords)
    ensures hit <==> exists k | 0 <= k < |BannedWords| :: Occurs(BannedWords[k], lowered)
    ensures !hit ==> out == content
  {
    BannedWordsShape();
    out, hit := content, false;
    var j := 0;
    while j < |BannedWords|
      invariant 0 <= j <= |BannedWords|
      invariant FilterWords(lowered, out, BannedWords[j..]) == FilterWords(lowered, content, BannedWords)
      invariant hit <==> exists k | 0 <= k < j :: Occurs(BannedWords[k], lowered)
      invariant !hit ==> out == content
    {
      var word := BannedWords[j];
      assert BannedWords[j..][1..] == BannedWords[j + 1..];
      if Occurs(word, lowered) {
        out := Replace(out, word, Marker);
        hit := true;
      }
      j := j + 1;
    }
    assert BannedWords[j..] == [];
  }

  /** One message of the request loop: its content is lower-cased once, and the message
      is written when a banned word was detected. */
  method ModerateOne(message: Json) returns (r: Result<Json>)
    ensures r == ModerateMessage(message)
  {
    if !message.Obj? {
      return Raised(AttributeError);
    }
    var c := Get(message.fields, "content", Str(""));
    if !c.Str? {
      return Raised(AttributeError);
    }
    var content, hit := FilterLoop(Lower(c.s), c.s);
    if hit {
      return Ok(Obj(message.fields["content" := Str(content)]));
    }
    r := Ok(message);
  }


  /** The loop over the messages, rewriting each in place. */
  method ModerateItems(items: seq<Json>) returns (r: Result<seq<Json>>)
    ensures r == MapAll(ModerateMessage, items)
  {
    var out := items;
    var i := 0;
    while i < |items|
      invariant 0 <= i <= |items| && |out| == |items| && out[i..] == items[i..]
      invariant forall k :: 0 <= k < i ==> ModerateMessage(items[k]) == Ok(out[k])
    {
      assert out[i] == out[i..][0] == items[i];
      var y := ModerateOne(out[i]);
      if y.Raised? {
        MapAllFirstError(ModerateMessage, items, i);
        return Raised(y.error);
      }
      out := out[i := y.value];
      i := i + 1;
    }
    MapAllAllOk(ModerateMessage, items, out);
    r := Ok(out);
  }


  /** The request phase as the source runs it: a loop over the messages, each rewritten
      in place by the inner loop of `ModerateOne`. */
  method ProcessRequest(req: Dict) returns (r: Result<Dict>)
    ensures r == ModerateRequest(req)
  {
    var elements := Iterate(Get(req, "messages", Arr([])));
    if elements.Raised? {
      return Raised(elements.error);
    }
    if elements.value.Strings? {
      return if elements.value.strs == {} then Ok(req) else Raised(AttributeError);
    }
    var out := ModerateItems(elements.value.items);
    if out.Raised? {
      return Raised(out.error);
    }
    r := Ok(if "messages" in req then req["messages" := Arr(out.value)] else req);
  }

  /** One choice of the response loop. */
  method KeepOne(choice: Json) returns (r: Result<Json>)
    ensures r == KeepChoice(choice)
  {
    var found := ChoiceContent(choice);
    if found.Raised? {
      return Raised(found.error);
    }
    r := Ok(choice);
    if found.value.Some? {
      r := Ok(SetChoiceContent(choice, found.value.value));
    }
  }

  /** The loop over the choices, writing each content back. */
  method KeepItems(items: seq<Json>) returns (r: Result<seq<Json>>)
    ensures r == MapAll(KeepChoice, items)
  {
    var out := items;
    var i := 0;
    while i < |items|
      invariant 0 <= i <= |items| && |out| == |items| && out[i..] == items[i..]
      invariant forall k :: 0 <= k < i ==> KeepChoice(items[k]) == Ok(out[k])
    {
      assert out[i] == out[i..][0] == items[i];
      var y := KeepOne(out[i]);
      if y.Raised? {
        MapAllFirstError(KeepChoice, items, i);
        return Raised(y.error);
      }
      out := out[i := y.value];
      i := i + 1;
    }
    MapAllAllOk(KeepChoice, items, out);
    r := Ok(out);
  }


  /** The response phase as the source runs it: a loop over the choices. */
  method ProcessResponse(resp: Dict) returns (r: Result<Dict>)
    ensures r == ModerateResponse(resp)
  {
    var elements := Iterate(Get(resp, "choices", Arr([])));
    if elements.Raised? {
      return Raised(elements.error);
    }
    if elements.value.Strings? {
      return if SomeKeyMentionsMessage(elements.value.strs) then Raised(TypeError) else Ok(resp);
    }
    var out := KeepItems(elements.value.items);
    if out.Raised? {
      return Raised(out.error);
    }
    r := Ok(if "choices" in resp then resp["choices" := Arr(out.value)] else resp);
  }

  // ---- properties of the filter ----

  /** A word the lower-cased content does not hold is not in the content either, nor in
      anything earlier words' replacements made of it. */
  lemma {:induction false} FilterWordsIsReplace(lowered: string, s: string, original: string, words: seq<string>)
    requires forall k :: 0 <= k < |words| ==> |words[k]| > 0 && IsLowerWord(words[k])
    requires forall k :: 0 <= k < |words| ==> Marker[0] !in words[k] && Marker[|Marker| - 1] !in words[k]
    requires forall k :: 0 <= k < |words| ==> !Occurs(words[k], Marker)
    requires lowered == Lower(original)
    requires forall k :: 0 <= k < |words| && !Occurs(words[k], original) ==> !Occurs(words[k], s)
    ensures FilterWords(lowered, s, words) == ReplaceWords(s, words)
    decreases |words|
  {
    if words != [] {
      var w := words[0];
      if !Occurs(w, lowered) {
        if Occurs(w, original) {
          OccursInLower(w, original);
        }
        assert !Occurs(w, s);
        assert Replace(s, w, Marker) == s;
      }
      var next := Replace(s, w, Marker);
      forall k | 0 <= k < |words[1..]| && !Occurs(words[1..][k], original)
        ensures !Occurs(words[1..][k], next)
      {
        assert words[1..][k] == words[k + 1];
        ReplaceKeepsAbsent(s, w, Marker, words[k + 1]);
      }
      FilterWordsIsReplace(lowered, next, original, words[1..]);
    }
  }

  /** Unconditional replacement of each word in turn. */
  function ReplaceWords(s: string, words: seq<string>): string
    requires forall k :: 0 <= k < |words| ==> |words[k]| > 0
    decreases |words|
  {
    if words == [] then s else ReplaceWords(Replace(s, words[0], Marker), words[1..])
  }

  /** The detection test guards nothing: moderation is plain case-sensitive replacement
      of "hack", then "exploit", then "malware". */
  lemma FilterIsPlainReplace(s: string)
    ensures Filter(s) == Replace(Replace(Replace(s, "hack", Marker), "exploit", Marker), "malware", Marker)
  {
    BannedWordsShape();
    FilterWordsIsReplace(Lower(s), s, s, BannedWords);
    var a := Replace(s, "hack", Marker);
    var b := Replace(a, "exploit", Marker);
    var c := Replace(b, "malware", Marker);
    assert BannedWords[1..] == ["exploit", "malware"] && ["exploit", "malware"][1..] == ["malware"];
    assert ReplaceWords(b, ["malware"]) == c by {
      assert ["malware"][1..] == [];
    }
    assert ReplaceWords(a, ["exploit", "malware"]) == c;
  }

  /** Replacing each word in turn leaves none of them behind. */
  lemma {:induction false} ReplaceWordsRemoves(s: string, words: seq<string>, v: string)
    requires forall k :: 0 <= k < |words| ==> |words[k]| > 0
    requires |v| > 0 && Marker[0] !in v && Marker[|Marker| - 1] !in v && !Occurs(v, Marker)
    requires v in words || !Occurs(v, s)
    ensures !Occurs(v, ReplaceWords(s, words))
    decreases |words|
  {
    if words != [] {
      var next := Replace(s, words[0], Marker);
      if words[0] == v {
        ReplaceRemoves(s, v, Marker);
      } else if !Occurs(v, s) {
        ReplaceKeepsAbsent(s, words[0], Marker, v);
      }
      assert v in words[1..] || !Occurs(v, next);
      ReplaceWordsRemoves(next, words[1..], v);
    }
  }

  /** After the request phase no message content holds "hack", "exploit" or "malware". */
  lemma FilterRemovesBanned(s: string)
    ensures Clean(Filter(s))
  {
    BannedWordsShape();
    FilterWordsIsReplace(Lower(s), s, s, BannedWords);
    forall k | 0 <= k < |BannedWords|
      ensures !Occurs(BannedWords[k], Filter(s))
    {
      ReplaceWordsRemoves(s, BannedWords, BannedWords[k]);
    }
  }

  /** Content that holds no banned word, case-sensitively, is left as it is, even where
      the lower-cased test finds one. */
  lemma FilterKeepsClean(s: string)
    requires Clean(s)
    ensures Filter(s) == s
  {
    FilterIsPlainReplace(s);
    assert !Occurs(BannedWords[0], s) && !Occurs(BannedWords[1], s) && !Occurs(BannedWords[2], s);
    assert Replace(s, "hack", Marker) == s;
    assert Replace(s, "exploit", Marker) == s;
    assert Replace(s, "malware", Marker) == s;
  }

  /** The case bug: an upper-case "HACK" is detected, and left unchanged. */
  lemma UpperCaseIsDetectedButKept()
    ensures Detected("HACK")
    ensures Filter("HACK") == "HACK"
  {
    BannedWordsShape();
    assert Lower("HACK") == "hack";
    assert OccursAt("hack", Lower("HACK"), 0);
    AbsentChar("hack", "HACK", 0);
    AbsentChar("exploit", "HACK", 0);
    AbsentChar("malware", "HACK", 0);
    FilterKeepsClean("HACK");
  }

  /** "hack" first occurs at index 14 of the example. */
  lemma HackIndexInExample(s: string)
    requires s == "tell me about hack tools"
    ensures IndexOf(s, "hack") == Some(14)
  {
    var w := "hack";
    assert OccursAt(w, s, 14);
    forall j | 0 <= j < 14
      ensures s[j] != 'h'
    {
    }
    assert w[0] == 'h';
  }

  /** The first step of the example below. */
  lemma HackReplacedInExample(s: string)
    requires s == "tell me about hack tools"
    ensures Replace(s, "hack", Marker) == "tell me about [FILTERED] tools"
  {
    HackSplitInExample(s);
    ToolsHasNoHack(s[18..]);
    ExampleJoin(s);
  }

  lemma HackSplitInExample(s: string)
    requires s == "tell me about hack tools"
    ensures Replace(s, "hack", Marker) == s[..14] + Marker + Replace(s[18..], "hack", Marker)
  {
    HackIndexInExample(s);
  }

  lemma ExampleJoin(s: string)
    requires s == "tell me about hack tools"
    ensures s[..14] + Marker + s[18..] == "tell me about [FILTERED] tools"
  {
  }

  lemma ToolsHasNoHack(rest: string)
    requires rest == " tools"
    ensures Replace(rest, "hack", Marker) == rest
  {
    AbsentChar("hack", rest, 0);
  }

  lemma ExampleHasNoOtherWord(t: string)
    requires t == "tell me about [FILTERED] tools"
    ensures Replace(t, "exploit", Marker) == t && Replace(t, "malware", Marker) == t
  {
    assert 'x' !in t && 'w' !in t;
    AbsentChar("exploit", t, 1);
    AbsentChar("malware", t, 3);
  }

  /** "tell me about hack tools" becomes "tell me about [FILTERED] tools". */
  lemma FilterExample(s: string)
    requires s == "tell me about hack tools"
    ensures Filter(s) == "tell me about [FILTERED] tools"
  {
    var t := "tell me about [FILTERED] tools";
    FilterIsPlainReplace(s);
    HackReplacedInExample(s);
    ExampleHasNoOtherWord(t);
  }

  // ---- properties of the two phases ----

  /** A message whose content holds no banned word, in any case, is left as it is. */
  lemma ModerateMessageKeeps(m: Json)
    requires m.Obj? && Get(m.fields, "content", Str("")).Str?
    requires !Detected(Get(m.fields, "content", Str("")).s)
    ensures ModerateMessage(m) == Ok(m)
  {
  }

  /** What moderating one message changes: only its content, and only to the filtered
      text; a message without content is left alone. */
  lemma ModerateMessageShape(m: Json, y: Json)
    requires ModerateMessage(m) == Ok(y)
    ensures m.Obj? && y.Obj? && y.fields.Keys == m.fields.Keys
    ensures forall k :: k in m.fields && k != "content" ==> y.fields[k] == m.fields[k]
    ensures "content" in m.fields ==> m.fields["content"].Str? && y.fields["content"] == Str(Filter(m.fields["content"].s))
    ensures "content" !in m.fields ==> y == m
    ensures HasRole(y, "user") <==> HasRole(m, "user")
  {
    var c := Get(m.fields, "content", Str(""));
    if "content" !in m.fields {
      BannedWordsShape();
      assert Lower(c.s) == [];
      assert !Detected(c.s);
    }
    if !Detected(c.s) {
      FilterIsPlainReplace(c.s);
      var lowered := Lower(c.s);
      forall k | 0 <= k < |BannedWords|
        ensures !Occurs(BannedWords[k], c.s)
      {
        BannedWordsShape();
        if Occurs(BannedWords[k], c.s) {
          OccursInLower(BannedWords[k], c.s);
        }
      }
      FilterKeepsClean(c.s);
    }
  }

  /** The request phase keeps every key, the message count, their order and their
      roles, and changes a message only by filtering its content; a "messages" value
      that is not a list, and so iterates to nothing here, leaves the request as it was. */
  lemma ModerateRequestShape(req: Dict, out: Dict)
    requires ModerateRequest(req) == Ok(out)
    ensures out.Keys == req.Keys
    ensures forall k :: k in req && k != "messages" ==> out[k] == req[k]
    ensures "messages" in req && req["messages"].Arr? ==>
      && out["messages"].Arr? && |out["messages"].items| == |req["messages"].items|
      && forall i :: 0 <= i < |req["messages"].items| ==>
           ModerateMessage(req["messages"].items[i]) == Ok(out["messages"].items[i])
    ensures "messages" in req && !req["messages"].Arr? ==> out == req
  {
  }

  /** Moderating a message twice gives what moderating it once gave. */
  lemma ModerateMessageIdempotent(m: Json, y: Json)
    requires ModerateMessage(m) == Ok(y)
    ensures ModerateMessage(y) == Ok(y)
  {
    ModerateMessageShape(m, y);
    if "content" in m.fields {
      var s := Filter(m.fields["content"].s);
      FilterRemovesBanned(m.fields["content"].s);
      FilterKeepsClean(s);
      if Detected(s) {
        assert y.fields["content" := Str(Filter(s))] == y.fields;
      }
    }
  }

  /** Running the request phase on its own output changes nothing more. */
  lemma ModerateRequestIdempotent(req: Dict, out: Dict)
    requires ModerateRequest(req) == Ok(out)
    ensures ModerateRequest(out) == Ok(out)
  {
    ModerateRequestShape(req, out);
    var ms := Get(req, "messages", Arr([]));
    if ms.Arr? {
      var ys := Get(out, "messages", Arr([])).items;
      forall i | 0 <= i < |ys|
        ensures ModerateMessage(ys[i]) == Ok(ys[i])
      {
        ModerateMessageIdempotent(ms.items[i], ys[i]);
      }
      var again := MapAll(ModerateMessage, ys);
      assert again.Ok?;
      assert again.value == ys;
      if "messages" in out {
        assert out["messages" := Arr(ys)] == out;
      }
    }
  }

  /** The response phase either raises or returns its input unchanged. */
  lemma ModerateResponseIdentity(resp: Dict, out: Dict)
    requires ModerateResponse(resp) == Ok(out)
    ensures out == resp
  {
    var cs := Get(resp, "choices", Arr([]));
    if cs.Arr? {
      var ys := MapAll(KeepChoice, cs.items).value;
      forall i | 0 <= i < |ys|
        ensures ys[i] == cs.items[i]
      {
        var c := cs.items[i];
        match ChoiceContent(c)
        case Ok(Some(v)) =>
          assert c.fields["message"].fields["content" := v] == c.fields["message"].fields;
          assert c.fields["message" := c.fields["message"]] == c.fields;
        case _ =>
      }
      assert ys == cs.items;
      if "choices" in resp {
        assert resp["choices" := Arr(ys)] == resp;
      }
    }
  }
}
