/** The request monitor: a bounded store of request records, most recent first, as a
    `deque(maxlen=max_records)` filled with `appendleft`. Records are found by id with a
    front-first scan, marked completed or failed in place, listed with an optional limit
    and cleared. The clock is a parameter (`now`), the lock is not modelled, and the
    SocketIO emitter is an event log that grows only while an emitter is attached. */
module Monitor {
  import opened Optional
  import opened Values

  /** `status`: "pending", "completed" or "error". */
  datatype Status = Pending | Completed | Errored

  function StatusText(s: Status): string
  {
    match s
    case Pending => "pending"
    case Completed => "completed"
    case Errored => "error"
  }

  /** `RequestRecord`; an unset response is Null, an unset duration or error is None. */
  datatype RequestRecord = RequestRecord(
    id: string,
    timestamp: real,
    ipAddress: string,
    httpMethod: string,
    endpoint: string,
    originalRequest: Json,
    processedRequest: Json,
    originalResponse: Json,
    processedResponse: Json,
    durationMs: Option<real>,
    error: Option<string>,
    status: Status)

  /** What `_notify_observers` emits: the event type and the record's data (none for
      `records_cleared`). */
  datatype Event = Event(kind: string, record: Option<RequestRecord>)

  /** `_sanitize_data`: an empty value is returned as it is, any other is deep-copied;
      either way the stored value equals the one given. */
  function Sanitize(data: Json): Json
  {
    data
  }

  /** The record `start_request` builds. */
  function NewRecord(id: string, ipAddress: string, httpMethod: string, endpoint: string,
                     originalRequest: Json, processedRequest: Json, now: real): RequestRecord
  {
    RequestRecord(id, now, ipAddress, httpMethod, endpoint, Sanitize(originalRequest), Sanitize(processedRequest),
                  Null, Null, None, None, Pending)
  }

  /** `appendleft` on a deque bounded by `cap`: the new record goes in front and, when the
      deque is full, the record at the back (the oldest) falls off. */
  function AppendLeft(rs: seq<RequestRecord>, r: RequestRecord, cap: nat): (out: seq<RequestRecord>)
    requires |rs| <= cap
    ensures |out| <= cap
    ensures |out| == if |rs| < cap then |rs| + 1 else |rs|
    ensures cap > 0 ==> out[0] == r
    ensures forall i :: 1 <= i < |out| ==> out[i] == rs[i - 1]
  {
    if |rs| < cap then [r] + rs
    else if cap == 0 then []
    else [r] + rs[..cap - 1]
  }

  /** The scan of `_find_record` from position `k`: the first record with the id. */
  function FindFrom(rs: seq<RequestRecord>, id: string, k: nat): (r: Option<nat>)
    requires k <= |rs|
    ensures r.Some? ==> k <= r.value < |rs| && rs[r.value].id == id && forall j :: k <= j < r.value ==> rs[j].id != id
    ensures r.None? ==> forall j :: k <= j < |rs| ==> rs[j].id != id
    decreases |rs| - k
  {
    if k == |rs| then None
    else if rs[k].id == id then Some(k)
    else FindFrom(rs, id, k + 1)
  }

  function Find(rs: seq<RequestRecord>, id: string): Option<nat>
  {
    FindFrom(rs, id, 0)
  }

  /** `get_record`: the record `_find_record` returns. */
  function Lookup(rs: seq<RequestRecord>, id: string): Option<RequestRecord>
  {
    match Find(rs, id)
    case None => None
    case Some(i) => Some(rs[i])
  }

  /** `(time.time() - start_time) * 1000`. */
  function Duration(startTime: real, now: real): real
  {
    (now - startTime) * 1000.0
  }

  /** The fields `complete_request` assigns; the error, if any, is left as it was. */
  function CompletedRecord(r: RequestRecord, originalResponse: Json, processedResponse: Json, duration: real): RequestRecord
  {
    r.(originalResponse := Sanitize(originalResponse), processedResponse := Sanitize(processedResponse),
       durationMs := Some(duration), status := Completed)
  }

  /** The fields `error_request` assigns; the responses, if any, are left as they were. */
  function FailedRecord(r: RequestRecord, error: string, duration: real): RequestRecord
  {
    r.(error := Some(error), durationMs := Some(duration), status := Errored)
  }

  function CompleteIn(rs: seq<RequestRecord>, id: string, originalResponse: Json, processedResponse: Json, duration: real): seq<RequestRecord>
  {
    match Find(rs, id)
    case None => rs
    case Some(i) => rs[i := CompletedRecord(rs[i], originalResponse, processedResponse, duration)]
  }

  function FailIn(rs: seq<RequestRecord>, id: string, error: string, duration: real): seq<RequestRecord>
  {
    match Find(rs, id)
    case None => rs
    case Some(i) => rs[i := FailedRecord(rs[i], error, duration)]
  }

  /** `if limit: records = records[:limit]`: None and 0 keep everything; a positive limit
      keeps that many from the front, a negative one drops that many from the back. */
  function Limit(rs: seq<RequestRecord>, limit: Option<int>): seq<RequestRecord>
  {
    match limit
    case None => rs
    case Some(n) =>
      if n == 0 then rs
      else if n > 0 then rs[..if n < |rs| then n else |rs|]
      else rs[..if |rs| + n > 0 then |rs| + n else 0]
  }

  /** `_notify_observers`: an event is emitted only while an emitter is attached. */
  function Notify(observed: bool, events: seq<Event>, kind: string, record: Option<RequestRecord>): seq<Event>
  {
    if observed then events + [Event(kind, record)] else events
  }

  /** The store after starting `started` in order on an empty store. */
  function Replay(started: seq<RequestRecord>, cap: nat): (rs: seq<RequestRecord>)
    ensures |rs| <= cap
    decreases |started|
  {
    if started == [] then []
    else AppendLeft(Replay(started[..|started| - 1], cap), started[|started| - 1], cap)
  }

  class RequestMonitor {
    const maxRecords: nat
    var records: seq<RequestRecord>
    var observed: bool
    var events: seq<Event>

    /** The deque never holds more than `max_records` records. */
    predicate Valid()
      reads this
    {
      |records| <= maxRecords
    }

    /** `__init__`: an empty store and no emitter. */
    constructor(maxRecords: nat)
      ensures Valid() && this.maxRecords == maxRecords
      ensures records == [] && !observed && events == []
    {
      this.maxRecords := maxRecords;
      records := [];
      observed := false;
      events := [];
    }

    /** `set_socketio`: `attached` says whether the emitter given is a real one. */
    method SetSocketio(attached: bool)
      modifies this
      ensures observed == attached
      ensures records == old(records) && events == old(events)
    {
      observed := attached;
    }

    /** `start_request`: a new pending record goes in front, evicting the oldest when the
        store is full. Duplicate ids are not rejected. */
    method StartRequest(id: string, ipAddress: string, httpMethod: string, endpoint: string,
                        originalRequest: Json, initialProcessedRequest: Json, now: real)
      requires Valid()
      modifies this
      ensures Valid() && observed == old(observed)
      ensures records == AppendLeft(old(records), NewRecord(id, ipAddress, httpMethod, endpoint, originalRequest, initialProcessedRequest, now), maxRecords)
      ensures events == Notify(observed, old(events), "request_started",
                               Some(NewRecord(id, ipAddress, httpMethod, endpoint, originalRequest, initialProcessedRequest, now)))
    {
      var record := NewRecord(id, ipAddress, httpMethod, endpoint, originalRequest, initialProcessedRequest, now);
      if |records| < maxRecords {
        records := [record] + records;
      } else if maxRecords > 0 {
        records := [record] + records[..maxRecords - 1];
      }
      events := Notify(observed, events, "request_started", Some(record));
    }

    /** `_find_record`: the loop over the records, front first. */
    method FindRecord(id: string) returns (r: Option<nat>)
      ensures r == Find(records, id)
    {
      var i := 0;
      while i < |records|
        invariant 0 <= i <= |records|
        invariant Find(records, id) == FindFrom(records, id, i)
      {
        if records[i].id == id {
          return Some(i);
        }
        i := i + 1;
      }
      r := None;
    }

    /** `complete_request`: the found record gets both responses, its duration and status
        "completed"; an unknown id changes nothing. */
    method CompleteRequest(id: string, originalResponse: Json, processedResponse: Json, startTime: real, now: real)
      requires Valid()
      modifies this
      ensures Valid() && observed == old(observed)
      ensures records == CompleteIn(old(records), id, originalResponse, processedResponse, Duration(startTime, now))
      ensures events == match Find(old(records), id)
        case None => old(events)
        case Some(i) => Notify(observed, old(events), "request_completed", Some(records[i]))
    {
      var found := FindRecord(id);
      if found.Some? {
        var i := found.value;
        var record := CompletedRecord(records[i], originalResponse, processedResponse, Duration(startTime, now));
        records := records[i := record];
        events := Notify(observed, events, "request_completed", Some(record));
      }
    }

    /** `error_request`: the found record gets the error text, its duration and status
        "error"; an unknown id changes nothing. */
    method ErrorRequest(id: string, error: string, startTime: real, now: real)
      requires Valid()
      modifies this
      ensures Valid() && observed == old(observed)
      ensures records == FailIn(old(records), id, error, Duration(startTime, now))
      ensures events == match Find(old(records), id)
        case None => old(events)
        case Some(i) => Notify(observed, old(events), "request_error", Some(records[i]))
    {
      var found := FindRecord(id);
      if found.Some? {
        var i := found.value;
        var record := FailedRecord(records[i], error, Duration(startTime, now));
        records := records[i := record];
        events := Notify(observed, events, "request_error", Some(record));
      }
    }

    /** `get_records(limit)`, most recent first. */
    method GetRecords(limit: Option<int>) returns (rs: seq<RequestRecord>)
      ensures rs == Limit(records, limit)
      ensures |rs| <= |records| && rs == records[..|rs|]
      ensures (limit.None? || limit == Some(0)) ==> rs == records
      ensures limit.Some? && limit.value > 0 ==> |rs| == if limit.value < |records| then limit.value else |records|
    {
      rs := records;
      if limit.Some? && limit.value != 0 {
        var n := limit.value;
        if n > 0 {
          rs := if n < |rs| then rs[..n] else rs;
        } else {
          rs := if |rs| + n > 0 then rs[..|rs| + n] else [];
        }
      }
    }

    /** `get_record`: the record `_find_record` finds, or None. */
    method GetRecord(id: string) returns (r: Option<RequestRecord>)
      ensures r == Lookup(records, id)
      ensures r.Some? ==> r.value in records && r.value.id == id
      ensures r.None? <==> forall j :: 0 <= j < |records| ==> records[j].id != id
    {
      var found := FindRecord(id);
      r := if found.Some? then Some(records[found.value]) else None;
    }

    /** `clear_records`. */
    method ClearRecords()
      requires Valid()
      modifies this
      ensures Valid() && observed == old(observed)
      ensures records == []
      ensures forall id :: Lookup(records, id).None?
      ensures events == Notify(observed, old(events), "records_cleared", None)
    {
      records := [];
      events := Notify(observed, events, "records_cleared", None);
    }
  }

  // ---- properties ----

  /** After `start_request`, the front record is the new one, pending, with no response,
      duration or error, and looking its id up finds it even when older records share
      the id. */
  lemma StartedRecordIsNewest(rs: seq<RequestRecord>, cap: nat, id: string, ipAddress: string, httpMethod: string,
                              endpoint: string, originalRequest: Json, processedRequest: Json, now: real)
    requires |rs| <= cap && cap > 0
    ensures var r := NewRecord(id, ipAddress, httpMethod, endpoint, originalRequest, processedRequest, now);
      var out := AppendLeft(rs, r, cap);
      && out[0].id == id && out[0].status == Pending
      && out[0].originalResponse == Null && out[0].processedResponse == Null
      && out[0].durationMs.None? && out[0].error.None?
      && Lookup(out, id) == Some(r)
  {
  }

  /** When the store is full, starting a request drops exactly the last (oldest) record:
      the rest keep their order behind the new one. */
  lemma FullStoreEvictsOldest(rs: seq<RequestRecord>, r: RequestRecord, cap: nat)
    requires |rs| == cap > 0
    ensures AppendLeft(rs, r, cap) == [r] + rs[..|rs| - 1]
    ensures multiset(AppendLeft(rs, r, cap)) + multiset{rs[|rs| - 1]} == multiset(rs) + multiset{r}
  {
    assert rs == rs[..|rs| - 1] + [rs[|rs| - 1]];
  }

  /** The store lists the started records newest first: the reverse of the order of the
      `start_request` calls, cut to the capacity (the evicted ones are the oldest). */
  lemma {:induction false} ReplayIsNewestFirst(started: seq<RequestRecord>, cap: nat)
    ensures |Replay(started, cap)| == if |started| < cap then |started| else cap
    ensures forall i :: 0 <= i < |Replay(started, cap)| ==> Replay(started, cap)[i] == started[|started| - 1 - i]
    decreases |started|
  {
    if started != [] {
      var n := |started|;
      var init := started[..n - 1];
      ReplayIsNewestFirst(init, cap);
      var prev := Replay(init, cap);
      var out := Replay(started, cap);
      assert out == AppendLeft(prev, started[n - 1], cap);
      forall i | 0 <= i < |out|
        ensures out[i] == started[n - 1 - i]
      {
        if i > 0 {
          assert out[i] == prev[i - 1] == init[n - 1 - i];
        }
      }
    }
  }


  /** Completing or failing an unknown id leaves the store as it was. */
  lemma UnknownIdUnchanged(rs: seq<RequestRecord>, id: string, originalResponse: Json, processedResponse: Json, error: string, duration: real)
    requires forall j :: 0 <= j < |rs| ==> rs[j].id != id
    ensures CompleteIn(rs, id, originalResponse, processedResponse, duration) == rs
    ensures FailIn(rs, id, error, duration) == rs
  {
  }

  /** Completing changes only the first record with the id: it gets both responses, the
      duration and status "completed", and keeps every other field, its error included. */
  lemma CompleteChangesOnlyTarget(rs: seq<RequestRecord>, id: string, originalResponse: Json, processedResponse: Json, duration: real, i: nat)
    requires Find(rs, id) == Some(i)
    ensures var out := CompleteIn(rs, id, originalResponse, processedResponse, duration);
      && |out| == |rs|
      && (forall j :: 0 <= j < |rs| && j != i ==> out[j] == rs[j])
      && out[i].status == Completed && out[i].durationMs == Some(duration)
      && out[i].originalResponse == originalResponse && out[i].processedResponse == processedResponse
      && out[i].id == rs[i].id && out[i].error == rs[i].error && out[i].timestamp == rs[i].timestamp
  {
  }

  /** Failing changes only the first record with the id: it gets the error text, the
      duration and status "error", and keeps every other field, its responses included. */
  lemma FailChangesOnlyTarget(rs: seq<RequestRecord>, id: string, error: string, duration: real, i: nat)
    requires Find(rs, id) == Some(i)
    ensures var out := FailIn(rs, id, error, duration);
      && |out| == |rs|
      && (forall j :: 0 <= j < |rs| && j != i ==> out[j] == rs[j])
      && out[i].status == Errored && out[i].durationMs == Some(duration) && out[i].error == Some(error)
      && out[i].id == rs[i].id && out[i].originalResponse == rs[i].originalResponse
      && out[i].processedResponse == rs[i].processedResponse
  {
  }

  /** Replacing a record by one with the same id does not move the scan. */
  lemma {:induction false} FindKeepsPlace(rs: seq<RequestRecord>, id: string, k: nat, i: nat, r: RequestRecord)
    requires k <= |rs| && i < |rs| && r.id == rs[i].id
    ensures FindFrom(rs[i := r], id, k) == FindFrom(rs, id, k)
    decreases |rs| - k
  {
    if k < |rs| {
      FindKeepsPlace(rs, id, k + 1, i, r);
    }
  }

  /** No pending check is made, so the last call wins: an error after a completion
      leaves status "error" with the responses kept, and a completion after an error
      leaves status "completed" with the error text kept. */
  lemma LastCallWins(rs: seq<RequestRecord>, id: string, originalResponse: Json, processedResponse: Json, error: string, d1: real, d2: real, i: nat)
    requires Find(rs, id) == Some(i)
    ensures var out := FailIn(CompleteIn(rs, id, originalResponse, processedResponse, d1), id, error, d2);
      out[i].status == Errored && out[i].error == Some(error) && out[i].durationMs == Some(d2)
      && out[i].originalResponse == originalResponse
    ensures var out := CompleteIn(FailIn(rs, id, error, d1), id, originalResponse, processedResponse, d2);
      out[i].status == Completed && out[i].error == Some(error) && out[i].durationMs == Some(d2)
  {
    FindKeepsPlace(rs, id, 0, i, CompletedRecord(rs[i], originalResponse, processedResponse, d1));
    FindKeepsPlace(rs, id, 0, i, FailedRecord(rs[i], error, d1));
  }

  /** `get_records(limit)` always lists a front part of the store; a positive limit
      lists `min(limit, n)` records, None or 0 lists all, a negative one drops that many
      from the back. */
  lemma LimitIsFrontPart(rs: seq<RequestRecord>, limit: Option<int>)
    ensures var out := Limit(rs, limit);
      && |out| <= |rs| && out == rs[..|out|]
      && (limit.None? || limit == Some(0) ==> out == rs)
      && (limit.Some? && limit.value > 0 ==> |out| == if limit.value < |rs| then limit.value else |rs|)
      && (limit.Some? && limit.value < 0 ==> |out| == if |rs| + limit.value > 0 then |rs| + limit.value else 0)
  {
  }
}
