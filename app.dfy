/** The two completion handlers, `chat_completions` and `completions`. Each copies the
    stored settings, runs the request phase over the units with the settings-merge hook,
    then either streams the upstream chunks as server-sent events (with no response
    phase) or runs the response phase on the upstream reply. The upstream client is a
    pair of function values; the two handlers differ only in the endpoint they call. */
module App {
  import opened Optional
  import opened Values
  import opened Base
  import Manager

  datatype Endpoint = ChatCompletions | Completions

  /** The upstream client: one reply for a plain call, the serialised chunks for a
      streamed one. A call that raises is a `Raised` result. */
  datatype Upstream = Upstream(
    complete: (Endpoint, Dict) -> Result<Dict>,
    stream: (Endpoint, Dict) -> Result<seq<string>>)

  /** What a handler returns: a JSON body with its status, or an event stream. */
  datatype Reply = JsonReply(status: int, body: Dict) | EventStream(frames: seq<string>)

  /** The payload and the call-local settings as a phase leaves them. */
  datatype Run = Run(payload: Dict, settings: Dict)

  /** `except Exception as e: return jsonify({'error': str(e)}), 500`. */
  function Failure(e: PyError): Reply
  {
    JsonReply(500, map["error" := Str(ErrorText(e))])
  }

  /** `str(e)` for the errors the handlers meet; the texts of Python's own exceptions
      are stand-ins. */
  function ErrorText(e: PyError): string
  {
    match e
    case AttributeError => "AttributeError"
    case TypeError => "TypeError"
    case KeyError(k) => "'" + k + "'"
    case ClientNotConfigured => "OpenAI client not configured"
    case UpstreamFailure(m) => m
  }

  /** `if updated: settings.update(updated)`: an empty result changes nothing, a
      non-empty one is merged with its keys winning. */
  function Merge(settings: Dict, updated: Dict): (r: Dict)
    ensures r.Keys == settings.Keys + updated.Keys
    ensures forall k :: k in updated ==> r[k] == updated[k]
    ensures forall k :: k in settings && k !in updated ==> r[k] == settings[k]
  {
    if updated == map[] then settings else settings + updated
  }

  /** The settings after an enabled unit ran: its hook, when it has one, is merged in. */
  function AfterHook(u: Unit, settings: Dict): Dict
  {
    match Hook(u)
    case None => settings
    case Some(h) => Merge(settings, h(settings))
  }

  /** A phase for any `gate` and `step`: each unit's enablement is checked against the
      settings as the earlier units left them, an enabled unit's `step` processes the
      payload and then its hook may update the settings; an exception ends the phase. */
  function RunPhaseBy(units: seq<Unit>, gate: (Unit, Dict) -> bool, step: (Unit, Dict, Dict) -> Result<Dict>, payload: Dict, settings: Dict): Result<Run>
    decreases |units|
  {
    if units == [] then Ok(Run(payload, settings))
    else if !gate(units[0], settings) then RunPhaseBy(units[1..], gate, step, payload, settings)
    else match step(units[0], payload, settings)
      case Raised(e) => Raised(e)
      case Ok(next) => RunPhaseBy(units[1..], gate, step, next, AfterHook(units[0], settings))
  }

  /** A phase as `app.py` runs it, with each unit's `process_*` for `phase`. */
  function RunPhase(units: seq<Unit>, phase: Phase, payload: Dict, settings: Dict): Result<Run>
  {
    RunPhaseBy(units, Manager.Gate(), Manager.Step(phase), payload, settings)
  }

  /** One server-sent event. */
  function Frame(data: string): string
  {
    "data: " + data + "\n\n"
  }

  const Done: string := "data: [DONE]\n\n"

  /** What `generate()` yields: one frame per chunk, in order, then the end marker. */
  function Frames(chunks: seq<string>): (r: seq<string>)
    ensures |r| == |chunks| + 1
    ensures forall i :: 0 <= i < |chunks| ==> r[i] == Frame(chunks[i])
    ensures r[|chunks|] == Done
    decreases |chunks|
  {
    if chunks == [] then [Done] else [Frame(chunks[0])] + Frames(chunks[1..])
  }

  /** The body of a handler after the client check. */
  function Serve(units: seq<Unit>, endpoint: Endpoint, client: Upstream, settings: Dict, body: Dict): Reply
  {
    match RunPhase(units, RequestPhase, body, settings)
    case Raised(e) => Failure(e)
    case Ok(Run(request, current)) =>
      if Truthy(Get(request, "stream", Bool(false))) then
        match client.stream(endpoint, request)
        case Raised(e) => Failure(e)
        case Ok(chunks) => EventStream(Frames(chunks))
      else
        match client.complete(endpoint, request)
        case Raised(e) => Failure(e)
        case Ok(response) =>
          match RunPhase(units, ResponsePhase, response, current)
          case Raised(e) => Failure(e)
          case Ok(Run(processed, _)) => JsonReply(200, processed)
  }

  /** `chat_completions` (endpoint ChatCompletions) and `completions` (Completions):
      `settings` is the copy of the stored settings, `body` the request JSON. */
  function Handle(units: seq<Unit>, endpoint: Endpoint, client: Option<Upstream>, settings: Dict, body: Dict): Reply
  {
    match client
    case None => Failure(ClientNotConfigured)
    case Some(c) => Serve(units, endpoint, c, settings, body)
  }

  /** A phase as the handlers run it, for any `gate` and `step`: the loop that
      reassigns the payload and updates the call-local settings in place. */
  method RunPhaseLoopBy(units: seq<Unit>, gate: (Unit, Dict) -> bool, step: (Unit, Dict, Dict) -> Result<Dict>, payload: Dict, settings: Dict) returns (r: Result<Run>)
    ensures r == RunPhaseBy(units, gate, step, payload, settings)
  {
    var data := payload;
    var current := settings;
    var i := 0;
    assert units[0..] == units;
    while i < |units|
      invariant 0 <= i <= |units|
      invariant RunPhaseBy(units, gate, step, payload, settings) == RunPhaseBy(units[i..], gate, step, data, current)
    {
      assert units[i..][0] == units[i] && units[i..][1..] == units[i + 1..];
      var u := units[i];
      if gate(u, current) {
        var next := step(u, data, current);
        if next.Raised? {
          return Raised(next.error);
        }
        data := next.value;
        if Hook(u).Some? {
          var updated := Hook(u).value(current);
          if updated != map[] {
            current := current + updated;
          }
        }
      }
      i := i + 1;
    }
    r := Ok(Run(data, current));
  }

  /** One phase of a handler: the request loop (app.py:106-113) or the response loop
      (app.py:133-139). */
  method RunPhaseLoop(units: seq<Unit>, phase: Phase, payload: Dict, settings: Dict) returns (r: Result<Run>)
    ensures r == RunPhase(units, phase, payload, settings)
  {
    r := RunPhaseLoopBy(units, Manager.Gate(), Manager.Step(phase), payload, settings);
  }

  /** `generate()`: a loop that yields one frame per chunk and then the end marker. */
  method Generate(chunks: seq<string>) returns (frames: seq<string>)
    ensures frames == Frames(chunks)
  {
    frames := [];
    var i := 0;
    while i < |chunks|
      invariant 0 <= i <= |chunks| && |frames| == i
      invariant forall j :: 0 <= j < i ==> frames[j] == Frame(chunks[j])
    {
      frames := frames + [Frame(chunks[i])];
      i := i + 1;
    }
    frames := frames + [Done];
  }

  /** A handler as the source runs it. */
  method HandleRequest(units: seq<Unit>, endpoint: Endpoint, client: Option<Upstream>, settings: Dict, body: Dict) returns (reply: Reply)
    ensures reply == Handle(units, endpoint, client, settings, body)
  {
    if client.None? {
      return Failure(ClientNotConfigured);
    }
    var c := client.value;
    var request := RunPhaseLoop(units, RequestPhase, body, settings);
    if request.Raised? {
      return Failure(request.error);
    }
    var requestData := request.value.payload;
    var current := request.value.settings;
    if Truthy(Get(requestData, "stream", Bool(false))) {
      var stream := c.stream(endpoint, requestData);
      if stream.Raised? {
        return Failure(stream.error);
      }
      var frames := Generate(stream.value);
      return EventStream(frames);
    }
    var response := c.complete(endpoint, requestData);
    if response.Raised? {
      return Failure(response.error);
    }
    var processed := RunPhaseLoop(units, ResponsePhase, response.value, current);
    if processed.Raised? {
      return Failure(processed.error);
    }
    reply := JsonReply(200, processed.value.payload);
  }

  // ---- properties ----

  lemma {:induction false} NoHooksIsFoldBy(units: seq<Unit>, gate: (Unit, Dict) -> bool, step: (Unit, Dict, Dict) -> Result<Dict>, payload: Dict, settings: Dict)
    requires forall i :: 0 <= i < |units| ==> Hook(units[i]).None?
    ensures RunPhaseBy(units, gate, step, payload, settings) ==
      match Manager.FoldBy(units, gate, step, payload, settings)
      case Raised(e) => Raised(e)
      case Ok(out) => Ok(Run(out, settings))
    decreases |units|
  {
    if units != [] {
      assert forall i :: 0 <= i < |units[1..]| ==> units[1..][i] == units[i + 1];
      if !gate(units[0], settings) {
        NoHooksIsFoldBy(units[1..], gate, step, payload, settings);
      } else {
        assert Hook(units[0]).None?;
        assert AfterHook(units[0], settings) == settings;
        match step(units[0], payload, settings)
        case Raised(e) =>
        case Ok(next) => NoHooksIsFoldBy(units[1..], gate, step, next, settings);
      }
    }
  }

  /** With no unit carrying a hook, a phase is the manager's fold and the settings come
      back as they went in. */
  lemma NoHooksIsManagerFold(units: seq<Unit>, phase: Phase, payload: Dict, settings: Dict)
    requires forall i :: 0 <= i < |units| ==> Hook(units[i]).None?
    ensures RunPhase(units, phase, payload, settings).Ok? <==> Manager.Fold(units, phase, payload, settings).Ok?
    ensures RunPhase(units, phase, payload, settings).Raised? ==>
      RunPhase(units, phase, payload, settings).error == Manager.Fold(units, phase, payload, settings).error
    ensures RunPhase(units, phase, payload, settings).Ok? ==>
      RunPhase(units, phase, payload, settings).value == Run(Manager.Fold(units, phase, payload, settings).value, settings)
  {
    NoHooksIsFoldBy(units, Manager.Gate(), Manager.Step(phase), payload, settings);
  }

  lemma {:induction false} SettingsOnlyGrowBy(units: seq<Unit>, gate: (Unit, Dict) -> bool, step: (Unit, Dict, Dict) -> Result<Dict>, payload: Dict, settings: Dict)
    requires RunPhaseBy(units, gate, step, payload, settings).Ok?
    ensures settings.Keys <= RunPhaseBy(units, gate, step, payload, settings).value.settings.Keys
    ensures (forall i :: 0 <= i < |units| ==> Hook(units[i]).None?) ==>
      RunPhaseBy(units, gate, step, payload, settings).value.settings == settings
    decreases |units|
  {
    if units != [] {
      if !gate(units[0], settings) {
        SettingsOnlyGrowBy(units[1..], gate, step, payload, settings);
      } else {
        SettingsOnlyGrowBy(units[1..], gate, step, step(units[0], payload, settings).value, AfterHook(units[0], settings));
      }
    }
  }

  /** A phase only adds or overwrites settings: no key is removed, and without hooks no
      value changes. */
  lemma SettingsOnlyGrow(units: seq<Unit>, phase: Phase, payload: Dict, settings: Dict)
    requires RunPhase(units, phase, payload, settings).Ok?
    ensures settings.Keys <= RunPhase(units, phase, payload, settings).value.settings.Keys
    ensures (forall i :: 0 <= i < |units| ==> Hook(units[i]).None?) ==>
      RunPhase(units, phase, payload, settings).value.settings == settings
  {
    SettingsOnlyGrowBy(units, Manager.Gate(), Manager.Step(phase), payload, settings);
  }

  /** Running `us + vs` is running `us`, then `vs` from the payload and the settings
      `us` left; an exception in `us` ends the phase there. */
  lemma {:induction false} RunPhaseByAppend(us: seq<Unit>, vs: seq<Unit>, gate: (Unit, Dict) -> bool, step: (Unit, Dict, Dict) -> Result<Dict>, payload: Dict, settings: Dict)
    ensures RunPhaseBy(us + vs, gate, step, payload, settings) ==
      match RunPhaseBy(us, gate, step, payload, settings)
      case Raised(e) => Raised(e)
      case Ok(r) => RunPhaseBy(vs, gate, step, r.payload, r.settings)
    decreases |us|
  {
    if us == [] {
      assert us + vs == vs;
    } else {
      assert (us + vs)[0] == us[0] && (us + vs)[1..] == us[1..] + vs;
      if !gate(us[0], settings) {
        RunPhaseByAppend(us[1..], vs, gate, step, payload, settings);
      } else if step(us[0], payload, settings).Ok? {
        RunPhaseByAppend(us[1..], vs, gate, step, step(us[0], payload, settings).value, AfterHook(us[0], settings));
      }
    }
  }

  lemma RunPhaseAppend(us: seq<Unit>, vs: seq<Unit>, phase: Phase, payload: Dict, settings: Dict)
    ensures RunPhase(us + vs, phase, payload, settings) ==
      match RunPhase(us, phase, payload, settings)
      case Raised(e) => Raised(e)
      case Ok(r) => RunPhase(vs, phase, r.payload, r.settings)
  {
    RunPhaseByAppend(us, vs, Manager.Gate(), Manager.Step(phase), payload, settings);
  }

  /** The phase from unit `i` on, given what the units before it left. */
  lemma SplitAt(units: seq<Unit>, i: nat, gate: (Unit, Dict) -> bool, step: (Unit, Dict, Dict) -> Result<Dict>, payload: Dict, settings: Dict, mid: Run)
    requires i < |units| && RunPhaseBy(units[..i], gate, step, payload, settings) == Ok(mid)
    ensures RunPhaseBy(units, gate, step, payload, settings) == RunPhaseBy(units[i..], gate, step, mid.payload, mid.settings)
    ensures units[i..][0] == units[i] && units[i..][1..] == units[i + 1..]
  {
    assert units[..i] + units[i..] == units;
    RunPhaseByAppend(units[..i], units[i..], gate, step, payload, settings);
  }

  /** Once an enabled unit with a hook has run, every later unit of the phase sees the
      settings with the hook's result merged in. */
  lemma HookedUnitBy(units: seq<Unit>, i: nat, gate: (Unit, Dict) -> bool, step: (Unit, Dict, Dict) -> Result<Dict>, payload: Dict, settings: Dict, mid: Run, h: Dict -> Dict, next: Dict)
    requires i < |units| && RunPhaseBy(units[..i], gate, step, payload, settings) == Ok(mid)
    requires gate(units[i], mid.settings) && Hook(units[i]) == Some(h)
    requires step(units[i], mid.payload, mid.settings) == Ok(next)
    ensures RunPhaseBy(units, gate, step, payload, settings) ==
      RunPhaseBy(units[i + 1..], gate, step, next, Merge(mid.settings, h(mid.settings)))
  {
    SplitAt(units, i, gate, step, payload, settings, mid);
  }

  /** A unit that is disabled at its turn is skipped with its hook: the settings go on
      unchanged, and the phase is the one without that unit. */
  lemma DisabledHookNotAppliedBy(units: seq<Unit>, i: nat, gate: (Unit, Dict) -> bool, step: (Unit, Dict, Dict) -> Result<Dict>, payload: Dict, settings: Dict, mid: Run)
    requires i < |units| && RunPhaseBy(units[..i], gate, step, payload, settings) == Ok(mid)
    requires !gate(units[i], mid.settings)
    ensures RunPhaseBy(units, gate, step, payload, settings) ==
      RunPhaseBy(units[i + 1..], gate, step, mid.payload, mid.settings)
    ensures RunPhaseBy(units, gate, step, payload, settings) ==
      RunPhaseBy(units[..i] + units[i + 1..], gate, step, payload, settings)
  {
    SplitAt(units, i, gate, step, payload, settings, mid);
    RunPhaseByAppend(units[..i], units[i + 1..], gate, step, payload, settings);
  }

  /** A hook whose merged result disables a later unit `j` keeps it from running, as
      long as no unit between them has a hook of its own: the phase is the one without
      unit `j`. */
  lemma HookDisablesLaterUnitBy(units: seq<Unit>, i: nat, j: nat, gate: (Unit, Dict) -> bool, step: (Unit, Dict, Dict) -> Result<Dict>, payload: Dict, settings: Dict, mid: Run, h: Dict -> Dict, next: Dict)
    requires i < j < |units| && RunPhaseBy(units[..i], gate, step, payload, settings) == Ok(mid)
    requires gate(units[i], mid.settings) && Hook(units[i]) == Some(h)
    requires step(units[i], mid.payload, mid.settings) == Ok(next)
    requires forall k :: i < k < j ==> Hook(units[k]).None?
    requires !gate(units[j], Merge(mid.settings, h(mid.settings)))
    ensures RunPhaseBy(units, gate, step, payload, settings) ==
      RunPhaseBy(units[..j] + units[j + 1..], gate, step, payload, settings)
  {
    var merged := Merge(mid.settings, h(mid.settings));
    var before := units[..j];
    assert before[..i] == units[..i] && before[i] == units[i] && before[i + 1..] == units[i + 1..j];
    HookedUnitBy(before, i, gate, step, payload, settings, mid, h, next);
    RunPhaseByAppend(before, units[j..], gate, step, payload, settings);
    RunPhaseByAppend(before, units[j + 1..], gate, step, payload, settings);
    assert before + units[j..] == units;
    assert units[j..][0] == units[j] && units[j..][1..] == units[j + 1..];
    var between := units[i + 1..j];
    if RunPhaseBy(between, gate, step, next, merged).Ok? {
      assert forall k :: 0 <= k < |between| ==> between[k] == units[i + 1 + k];
      SettingsOnlyGrowBy(between, gate, step, next, merged);
    }
  }

  /** In a phase run by `app.py`: a unit `j` that the hook of an earlier enabled unit `i`
      switches off does not run, when no unit between them has a hook. */
  lemma HookDisablesLaterUnit(units: seq<Unit>, i: nat, j: nat, phase: Phase, payload: Dict, settings: Dict, mid: Run, h: Dict -> Dict)
    requires i < j < |units| && RunPhase(units[..i], phase, payload, settings) == Ok(mid)
    requires Enabled(units[i], mid.settings) && Hook(units[i]) == Some(h)
    requires Process(units[i], phase, mid.payload, mid.settings).Ok?
    requires forall k :: i < k < j ==> Hook(units[k]).None?
    requires !Enabled(units[j], Merge(mid.settings, h(mid.settings)))
    ensures RunPhase(units, phase, payload, settings) == RunPhase(units[..j] + units[j + 1..], phase, payload, settings)
  {
    var next := Process(units[i], phase, mid.payload, mid.settings).value;
    HookDisablesLaterUnitBy(units, i, j, Manager.Gate(), Manager.Step(phase), payload, settings, mid, h, next);
  }

  /** In a phase run by `app.py`: a unit disabled at its turn neither runs nor applies
      its hook. */
  lemma DisabledHookNotApplied(units: seq<Unit>, i: nat, phase: Phase, payload: Dict, settings: Dict, mid: Run)
    requires i < |units| && RunPhase(units[..i], phase, payload, settings) == Ok(mid)
    requires !Enabled(units[i], mid.settings)
    ensures RunPhase(units, phase, payload, settings) == RunPhase(units[i + 1..], phase, mid.payload, mid.settings)
    ensures RunPhase(units, phase, payload, settings) == RunPhase(units[..i] + units[i + 1..], phase, payload, settings)
  {
    DisabledHookNotAppliedBy(units, i, Manager.Gate(), Manager.Step(phase), payload, settings, mid);
  }

  /** The hooked unit's merged settings are what the units after it see. */
  lemma HookReachesLaterUnits(units: seq<Unit>, i: nat, phase: Phase, payload: Dict, settings: Dict, mid: Run, h: Dict -> Dict)
    requires i < |units| && RunPhase(units[..i], phase, payload, settings) == Ok(mid)
    requires Enabled(units[i], mid.settings) && Hook(units[i]) == Some(h)
    requires Process(units[i], phase, mid.payload, mid.settings).Ok?
    ensures RunPhase(units, phase, payload, settings) ==
      RunPhase(units[i + 1..], phase, Process(units[i], phase, mid.payload, mid.settings).value, Merge(mid.settings, h(mid.settings)))
  {
    HookedUnitBy(units, i, Manager.Gate(), Manager.Step(phase), payload, settings, mid, h, Process(units[i], phase, mid.payload, mid.settings).value);
  }

  /** A streamed request gets the frames of the upstream chunks and nothing else: the
      response phase does not run. */
  lemma StreamSkipsResponsePhase(units: seq<Unit>, endpoint: Endpoint, client: Upstream, settings: Dict, body: Dict, request: Dict, current: Dict, chunks: seq<string>)
    requires RunPhase(units, RequestPhase, body, settings) == Ok(Run(request, current))
    requires Truthy(Get(request, "stream", Bool(false)))
    requires client.stream(endpoint, request) == Ok(chunks)
    ensures Handle(units, endpoint, Some(client), settings, body) == EventStream(Frames(chunks))
  {
  }

  /** A plain request gets the response phase run with the settings as the request
      phase left them, and status 200 when nothing raised. */
  lemma PlainUsesRequestEndSettings(units: seq<Unit>, endpoint: Endpoint, client: Upstream, settings: Dict, body: Dict, request: Dict, current: Dict, response: Dict)
    requires RunPhase(units, RequestPhase, body, settings) == Ok(Run(request, current))
    requires !Truthy(Get(request, "stream", Bool(false)))
    requires client.complete(endpoint, request) == Ok(response)
    ensures RunPhase(units, ResponsePhase, response, current).Ok? ==>
      Handle(units, endpoint, Some(client), settings, body) == JsonReply(200, RunPhase(units, ResponsePhase, response, current).value.payload)
    ensures RunPhase(units, ResponsePhase, response, current).Raised? ==>
      Handle(units, endpoint, Some(client), settings, body) == Failure(RunPhase(units, ResponsePhase, response, current).error)
  {
  }

  /** Without a client the handler answers 500 before any unit runs: the reply does not
      depend on the units, the settings or the body. */
  lemma NoClientFailsFirst(units: seq<Unit>, others: seq<Unit>, endpoint: Endpoint, settings: Dict, body: Dict)
    ensures Handle(units, endpoint, None, settings, body) == Handle(others, endpoint, None, map[], map[])
    ensures Handle(units, endpoint, None, settings, body).status == 500
    ensures Handle(units, endpoint, None, settings, body).body == map["error" := Str("OpenAI client not configured")]
  {
  }

  /** The frames read back: every frame but the last carries its chunk between the
      "data: " prefix and the blank line, and the last is the end marker. */
  lemma FramesRoundTrip(chunks: seq<string>, i: nat)
    requires i < |chunks|
    ensures var f := Frames(chunks)[i];
      |f| == |chunks[i]| + 8 && f[..6] == "data: " && f[6..|f| - 2] == chunks[i] && f[|f| - 2..] == "\n\n"
  {
    var f := Frames(chunks)[i];
    assert f == "data: " + chunks[i] + "\n\n";
  }
}
