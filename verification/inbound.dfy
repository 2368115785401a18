/**
 * The inbound webhook handler (supabase/functions/github-webhook/index.ts):
 * guards on the request, project lookup by inbound URL, event-type
 * normalisation, trigger matching and the per-trigger logging fan-out.
 *
 * The data store's answers that do not follow from its tables (a failed query,
 * the outcome of each log insert) are given to the handler as `StoreFaults`.
 */
module Inbound {
  import opened Json
  import opened Http
  import opened Rows
  import opened Database
  import opened Normalize

  /** One delivery: the `id` query parameter, the parsed body and the `X-GitHub-Event` header. */
  datatype Delivery = Delivery(id: Option<string>, body: RequestBody, githubEvent: Option<string>)

  /**
   * What one `event_logs` insert does: the row is stored; the store answers with an
   * error value, which the handler never inspects, and nothing is stored; or the
   * call raises an exception with a message.
   */
  datatype InsertOutcome = Stored | Refused | Raised(message: string)

  /** The insert in the `try` block of one trigger, and the one in its `catch` block. */
  datatype WriteAttempts = WriteAttempts(primary: InsertOutcome, fallback: InsertOutcome)

  datatype StoreFaults = StoreFaults(lookupFails: bool, eventsQueryFails: bool, writes: seq<WriteAttempts>)

  /** The attempts of the i-th matched trigger; triggers past the end of `writes` store normally. */
  function AttemptsAt(writes: seq<WriteAttempts>, i: nat): WriteAttempts {
    if i < |writes| then writes[i] else WriteAttempts(Stored, Stored)
  }

  const MissingIdMessage: string := "Missing webhook ID"
  const InvalidPayloadMessage: string := "Invalid GitHub webhook payload"
  const ProjectNotFoundMessage: string := "Project not found"
  const EventsQueryMessage: string := "Error fetching events"
  const NoMatchMessage: string := "No matching event configurations found"
  const ProcessedMessage: string := "Webhook processed"
  const HandlerFallbackMessage: string := "Failed to process webhook"

  function JsonReply(status: int, body: Body): Response {
    Response(status, [JsonContentType], body)
  }

  // ----- Guards -----

  /** `!id`: the query parameter is absent or empty. */
  predicate MissingId(req: Delivery) {
    req.id.None? || req.id.value == ""
  }

  /** `!payload || !githubEvent`, for a body that did parse. */
  predicate InvalidDelivery(req: Delivery)
    requires req.body.Parsed?
  {
    !Truthy(req.body.value) || req.githubEvent.None? || req.githubEvent.value == ""
  }

  /** The request passed every guard before the data-store client is created. */
  predicate Admitted(req: Delivery) {
    !MissingId(req) && req.body.Parsed? && !InvalidDelivery(req)
  }

  /** The request was admitted and the data-store client was created: the lookup runs. */
  predicate Connected(env: Env, req: Delivery) {
    Admitted(req) && ClientError(env).None?
  }

  // ----- Trigger matching -----

  /** `.eq("project_id", projectId).eq("event_type", eventType).eq("is_active", true)` on one row. */
  predicate Selected(e: EventRow, projectId: string, eventType: string) {
    e.project_id == projectId && e.event_type == eventType && e.is_active
  }

  /** The matched triggers, in table order: exactly the selected rows. */
  function MatchingEvents(events: seq<EventRow>, projectId: string, eventType: string): (m: seq<EventRow>)
    ensures |m| <= |events|
    ensures forall e :: e in m <==> e in events && Selected(e, projectId, eventType)
    decreases |events|
  {
    if events == [] then []
    else
      var rest := MatchingEvents(events[1..], projectId, eventType);
      assert forall e :: e in events <==> e == events[0] || e in events[1..];
      if Selected(events[0], projectId, eventType) then [events[0]] + rest else rest
  }

  /** Matching keeps table order: it distributes over concatenation of tables. */
  lemma {:induction false} MatchingEventsAppend(a: seq<EventRow>, b: seq<EventRow>, projectId: string, eventType: string)
    ensures MatchingEvents(a + b, projectId, eventType)
         == MatchingEvents(a, projectId, eventType) + MatchingEvents(b, projectId, eventType)
    decreases |a|
  {
    if a != [] {
      assert (a + b)[0] == a[0] && (a + b)[1..] == a[1..] + b;
      MatchingEventsAppend(a[1..], b, projectId, eventType);
      var ma, mb := MatchingEvents(a[1..], projectId, eventType), MatchingEvents(b, projectId, eventType);
      if Selected(a[0], projectId, eventType) {
        assert MatchingEvents(a + b, projectId, eventType) == [a[0]] + (ma + mb);
        assert [a[0]] + (ma + mb) == ([a[0]] + ma) + mb;
      }
    } else {
      assert a + b == b;
    }
  }

  /** A project without trigger rows matches nothing, which is not an error. */
  lemma MatchingNoTriggers(events: seq<EventRow>, projectId: string, eventType: string)
    requires forall e :: e in events ==> e.project_id != projectId
    ensures MatchingEvents(events, projectId, eventType) == []
  {
  }

  // ----- Per-trigger fan-out -----

  /** What one trigger's task settles to: its result object, or the exception that escapes it. */
  datatype Settled = Fulfilled(result: DispatchResult) | RejectedWith(message: string)

  /** The task of one trigger (index.ts:101-133): the value it settles to. */
  function Settle(ev: EventRow, w: WriteAttempts): (s: Settled)
    ensures s.Fulfilled? ==> s.result.event_id == ev.id
    ensures s.Fulfilled? ==> (s.result.success <==> !w.primary.Raised?)
    ensures s.Fulfilled? && !s.result.success ==> s.result.error == Some(w.primary.message)
    ensures s.RejectedWith? <==> w.primary.Raised? && w.fallback.Raised?
  {
    match w.primary
    case Stored => Fulfilled(DispatchResult(ev.id, true, None))
    case Refused => Fulfilled(DispatchResult(ev.id, true, None))
    case Raised(m) =>
      if w.fallback.Raised? then RejectedWith(w.fallback.message)
      else Fulfilled(DispatchResult(ev.id, false, Some(m)))
  }

  /**
   * The row the task of one trigger inserts, if its insert is stored: a refused
   * first insert is never inspected and leaves no row, and a raised one leaves a
   * row only when the fallback insert is stored.
   */
  function TaskWrites(ev: EventRow, payload: Json, w: WriteAttempts): (rows: seq<LogEntry>)
    ensures |rows| <= 1
    ensures rows == [] <==> w.primary.Refused? || (w.primary.Raised? && !w.fallback.Stored?)
    ensures forall r :: r in rows ==> r.event_id == ev.id && r.payload == payload
    ensures rows != [] && !w.primary.Raised? ==> rows == [LogEntry(ev.id, payload, StatusSuccess, None)]
    ensures rows != [] && w.primary.Raised? ==>
      rows == [LogEntry(ev.id, payload, StatusError, Some(w.primary.message))]
  {
    match w.primary
    case Stored => [LogEntry(ev.id, payload, StatusSuccess, None)]
    case Refused => []
    case Raised(m) =>
      if w.fallback.Stored? then [LogEntry(ev.id, payload, StatusError, Some(m))] else []
  }

  /**
   * An insert the store refuses comes back as an error value that the task never
   * inspects: the trigger is reported as a success and no log row is written.
   */
  lemma RefusedInsertIsSilentSuccess(ev: EventRow, payload: Json, fallback: InsertOutcome)
    ensures Settle(ev, WriteAttempts(Refused, fallback)) == Fulfilled(DispatchResult(ev.id, true, None))
    ensures TaskWrites(ev, payload, WriteAttempts(Refused, fallback)) == []
  {
  }

  /** When both inserts raise, the task rejects with the second message and writes no row. */
  lemma TwoRaisesWriteNothing(ev: EventRow, payload: Json, m1: string, m2: string)
    ensures Settle(ev, WriteAttempts(Raised(m1), Raised(m2))) == RejectedWith(m2)
    ensures TaskWrites(ev, payload, WriteAttempts(Raised(m1), Raised(m2))) == []
  {
  }

  /**
   * What every task settles to, in trigger order.  The i-th entry depends on the
   * i-th trigger and its own insert outcomes only.
   */
  function Settlements(evs: seq<EventRow>, writes: seq<WriteAttempts>): (ss: seq<Settled>)
    ensures |ss| == |evs|
    ensures forall i :: 0 <= i < |evs| ==> ss[i] == Settle(evs[i], AttemptsAt(writes, i))
    decreases |evs|
  {
    if evs == [] then []
    else Settlements(evs[..|evs| - 1], writes) + [Settle(evs[|evs| - 1], AttemptsAt(writes, |evs| - 1))]
  }

  /** The rows the fan-out appends, trigger by trigger. */
  function FanOutWrites(evs: seq<EventRow>, payload: Json, writes: seq<WriteAttempts>): seq<LogEntry>
    decreases |evs|
  {
    if evs == [] then []
    else
      FanOutWrites(evs[..|evs| - 1], payload, writes)
      + TaskWrites(evs[|evs| - 1], payload, AttemptsAt(writes, |evs| - 1))
  }

  /** `Promise.all`: every result in order, or the first rejection. */
  datatype Gathered = AllFulfilled(results: seq<DispatchResult>) | FirstRejection(message: string)

  function Gather(ss: seq<Settled>): (g: Gathered)
    ensures g.AllFulfilled? ==> |g.results| == |ss| && forall i :: 0 <= i < |ss| ==> ss[i] == Fulfilled(g.results[i])
    ensures g.FirstRejection? ==> exists i :: 0 <= i < |ss| && ss[i] == RejectedWith(g.message)
    ensures g.AllFulfilled? <==> forall i :: 0 <= i < |ss| ==> ss[i].Fulfilled?
    decreases |ss|
  {
    if ss == [] then AllFulfilled([])
    else
      match ss[0]
      case RejectedWith(m) => FirstRejection(m)
      case Fulfilled(r) =>
        var rest := Gather(ss[1..]);
        assert forall i :: 1 <= i < |ss| ==> ss[i] == ss[1..][i - 1];
        match rest
        case AllFulfilled(rs) => AllFulfilled([r] + rs)
        case FirstRejection(m) => FirstRejection(m)
  }

  /** The response once every task has settled (index.ts:136-145, or the outer catch). */
  function FanOutResponse(ss: seq<Settled>): Response {
    match Gather(ss)
    case AllFulfilled(results) => JsonReply(200, ProcessedBody(ProcessedMessage, results))
    case FirstRejection(m) => JsonReply(500, ErrorBody(ErrorText(m, HandlerFallbackMessage)))
  }

  /** Each trigger's inserts never both go through: at most one row per trigger. */
  lemma {:induction false} FanOutWritesBounded(evs: seq<EventRow>, payload: Json, writes: seq<WriteAttempts>)
    ensures |FanOutWrites(evs, payload, writes)| <= |evs|
    ensures forall r :: r in FanOutWrites(evs, payload, writes) ==> r.payload == payload
    ensures forall r :: r in FanOutWrites(evs, payload, writes) ==> exists e :: e in evs && r.event_id == e.id
    decreases |evs|
  {
    if evs != [] {
      var n := |evs| - 1;
      FanOutWritesBounded(evs[..n], payload, writes);
      var tail := TaskWrites(evs[n], payload, AttemptsAt(writes, n));
      forall r | r in FanOutWrites(evs, payload, writes)
        ensures r.payload == payload && exists e :: e in evs && r.event_id == e.id
      {
        if r in FanOutWrites(evs[..n], payload, writes) {
          var e :| e in evs[..n] && r.event_id == e.id;
          assert e in evs;
        } else {
          assert r in tail;
          assert evs[n] in evs;
        }
      }
    }
  }

  /** Every insert of trigger i goes through on the first try or in its catch block. */
  predicate InsertsLand(writes: seq<WriteAttempts>, n: nat) {
    forall i :: 0 <= i < n ==>
      AttemptsAt(writes, i).primary.Stored?
      || (AttemptsAt(writes, i).primary.Raised? && AttemptsAt(writes, i).fallback.Stored?)
  }

  /** The row the task of a trigger inserts when that insert lands. */
  function ExpectedRow(ev: EventRow, payload: Json, w: WriteAttempts): (row: LogEntry)
    ensures row.event_id == ev.id && row.payload == payload
    ensures row.status == StatusSuccess <==> !w.primary.Raised?
    ensures row.status == StatusError <==> w.primary.Raised?
    ensures w.primary.Raised? ==> row.error_message == Some(w.primary.message)
  {
    if w.primary.Raised? then LogEntry(ev.id, payload, StatusError, Some(w.primary.message))
    else LogEntry(ev.id, payload, StatusSuccess, None)
  }

  /** One expected row per matched trigger. */
  function ExpectedRows(evs: seq<EventRow>, payload: Json, writes: seq<WriteAttempts>): (rows: seq<LogEntry>)
    ensures |rows| == |evs|
    ensures forall i :: 0 <= i < |evs| ==> rows[i] == ExpectedRow(evs[i], payload, AttemptsAt(writes, i))
    decreases |evs|
  {
    if evs == [] then []
    else ExpectedRows(evs[..|evs| - 1], payload, writes) + [ExpectedRow(evs[|evs| - 1], payload, AttemptsAt(writes, |evs| - 1))]
  }

  /**
   * When every insert lands, the log gains exactly one row per matched trigger, in
   * whatever order the inserts land: as a multiset, the new rows are the expected
   * rows, one per trigger.
   */
  lemma {:induction false} OneLogRowPerTrigger(evs: seq<EventRow>, payload: Json, writes: seq<WriteAttempts>)
    requires InsertsLand(writes, |evs|)
    ensures multiset(FanOutWrites(evs, payload, writes)) == multiset(ExpectedRows(evs, payload, writes))
    decreases |evs|
  {
    if evs != [] {
      var n := |evs| - 1;
      assert InsertsLand(writes, n);
      OneLogRowPerTrigger(evs[..n], payload, writes);
      var w := AttemptsAt(writes, n);
      var row := ExpectedRow(evs[n], payload, w);
      assert TaskWrites(evs[n], payload, w) == [row];
      assert FanOutWrites(evs, payload, writes) == FanOutWrites(evs[..n], payload, writes) + [row];
      assert ExpectedRows(evs, payload, writes) == ExpectedRows(evs[..n], payload, writes) + [row];
    }
  }

  /**
   * The row a trigger's landed insert writes agrees with the trigger's result:
   * status "success" for a success, status "error" with the same message for a failure.
   */
  lemma LogRowAgreesWithResult(ev: EventRow, payload: Json, w: WriteAttempts)
    requires w.primary.Stored? || (w.primary.Raised? && w.fallback.Stored?)
    ensures TaskWrites(ev, payload, w) == [ExpectedRow(ev, payload, w)]
    ensures var row := ExpectedRow(ev, payload, w);
      var s := Settle(ev, w);
      && s.Fulfilled?
      && (row.status == StatusSuccess <==> s.result.success)
      && (row.status == StatusError <==> !s.result.success)
      && row.error_message == s.result.error
  {
  }

  /**
   * With every task fulfilled, the handler reports one result per matched trigger,
   * in trigger order, each naming that trigger; a failed trigger carries the
   * message of the exception its own insert raised.
   */
  lemma ResultsFollowTriggers(evs: seq<EventRow>, writes: seq<WriteAttempts>)
    requires Gather(Settlements(evs, writes)).AllFulfilled?
    ensures var results := Gather(Settlements(evs, writes)).results;
      && |results| == |evs|
      && forall i :: 0 <= i < |evs| ==>
        && results[i].event_id == evs[i].id
        && (results[i].success <==> !AttemptsAt(writes, i).primary.Raised?)
        && (!results[i].success ==> results[i].error == Some(AttemptsAt(writes, i).primary.message))
  {
  }

  /**
   * Failure isolation: the result of trigger i is the same whatever happens to the
   * inserts of every other trigger.
   */
  lemma Isolation(evs: seq<EventRow>, writes: seq<WriteAttempts>, writes': seq<WriteAttempts>, i: nat)
    requires i < |evs|
    requires AttemptsAt(writes, i) == AttemptsAt(writes', i)
    ensures Settlements(evs, writes)[i] == Settlements(evs, writes')[i]
  {
  }

  /** A task rejects only when both of its inserts raise. */
  lemma RejectionNeedsTwoRaises(evs: seq<EventRow>, writes: seq<WriteAttempts>)
    requires Gather(Settlements(evs, writes)).FirstRejection?
    ensures exists i :: 0 <= i < |evs| && AttemptsAt(writes, i).primary.Raised? && AttemptsAt(writes, i).fallback.Raised?
  {
  }

  // ----- The handler -----

  /**
   * The task of one matched trigger (index.ts:101-133): "would execute" the
   * trigger's file, which is only a console line, log a success row, or, when that
   * raises, log an error row; an exception in the catch block escapes.
   */
  method RunTask(db: Store, ev: EventRow, payload: Json, w: WriteAttempts) returns (outcome: Settled)
    modifies db
    ensures outcome == Settle(ev, w)
    ensures db.logs == old(db.logs) + TaskWrites(ev, payload, w)
    ensures db.projects == old(db.projects) && db.events == old(db.events)
  {
    match w.primary {
      case Stored =>
        db.InsertLog(LogEntry(ev.id, payload, StatusSuccess, None));
        outcome := Fulfilled(DispatchResult(ev.id, true, None));
      case Refused =>
        outcome := Fulfilled(DispatchResult(ev.id, true, None));
      case Raised(m) =>
        match w.fallback {
          case Stored =>
            db.InsertLog(LogEntry(ev.id, payload, StatusError, Some(m)));
            outcome := Fulfilled(DispatchResult(ev.id, false, Some(m)));
          case Refused =>
            outcome := Fulfilled(DispatchResult(ev.id, false, Some(m)));
          case Raised(m') =>
            outcome := RejectedWith(m');
        }
    }
  }

  /**
   * The fan-out over the matched triggers (index.ts:100-134), one task after the
   * other: each task appends at most its own log row and settles on its own.  The
   * rows already in the log stay in front; the new rows are stated as a multiset,
   * since the concurrent inserts of the source land in any order.
   */
  method FanOut(db: Store, matched: seq<EventRow>, payload: Json, writes: seq<WriteAttempts>)
    returns (settled: seq<Settled>)
    modifies db
    ensures settled == Settlements(matched, writes)
    ensures |db.logs| >= |old(db.logs)| && db.logs[..|old(db.logs)|] == old(db.logs)
    ensures multiset(db.logs[|old(db.logs)|..]) == multiset(FanOutWrites(matched, payload, writes))
    ensures db.projects == old(db.projects) && db.events == old(db.events)
  {
    settled := [];
    ghost var written: seq<LogEntry> := [];
    var i := 0;
    while i < |matched|
      invariant 0 <= i <= |matched|
      invariant settled == Settlements(matched[..i], writes)
      invariant written == FanOutWrites(matched[..i], payload, writes)
      invariant db.logs == old(db.logs) + written
      invariant db.projects == old(db.projects) && db.events == old(db.events)
    {
      var outcome := RunTask(db, matched[i], payload, AttemptsAt(writes, i));
      FanOutStep(matched, payload, writes, i);
      AppendAssociates(old(db.logs), written, TaskWrites(matched[i], payload, AttemptsAt(writes, i)));
      settled := settled + [outcome];
      written := written + TaskWrites(matched[i], payload, AttemptsAt(writes, i));
      i := i + 1;
    }
    assert matched[..i] == matched;
    AppendedSuffix(old(db.logs), written);
  }

  /** Concatenation of log rows associates. */
  lemma AppendAssociates(a: seq<LogEntry>, b: seq<LogEntry>, c: seq<LogEntry>)
    ensures (a + b) + c == a + (b + c)
  {
  }

  /** A sequence extended at the end keeps its prefix, and the suffix is what was added. */
  lemma AppendedSuffix(before: seq<LogEntry>, added: seq<LogEntry>)
    ensures (before + added)[..|before|] == before && (before + added)[|before|..] == added
  {
  }

  /** One more trigger adds its own settlement and its own rows at the end. */
  lemma FanOutStep(evs: seq<EventRow>, payload: Json, writes: seq<WriteAttempts>, i: nat)
    requires i < |evs|
    ensures Settlements(evs[..i + 1], writes) == Settlements(evs[..i], writes) + [Settle(evs[i], AttemptsAt(writes, i))]
    ensures FanOutWrites(evs[..i + 1], payload, writes)
         == FanOutWrites(evs[..i], payload, writes) + TaskWrites(evs[i], payload, AttemptsAt(writes, i))
  {
    assert evs[..i + 1][..i] == evs[..i];
  }

  /**
   * The inbound handler.  It never changes the projects or events tables; its only
   * write is appending rows to `event_logs`, and only after a project was found and
   * at least one trigger matched.
   */
  method HandleDelivery(db: Store, env: Env, req: Delivery, faults: StoreFaults) returns (resp: Response)
    modifies db
    ensures db.projects == old(db.projects) && db.events == old(db.events)
    ensures MissingId(req) ==>
      resp == JsonReply(400, ErrorBody(MissingIdMessage)) && db.logs == old(db.logs)
    ensures !MissingId(req) && req.body.Malformed? ==>
      resp == JsonReply(500, ErrorBody(ErrorText(req.body.message, HandlerFallbackMessage)))
      && db.logs == old(db.logs)
    ensures !MissingId(req) && req.body.Parsed? && InvalidDelivery(req) ==>
      resp == JsonReply(400, ErrorBody(InvalidPayloadMessage)) && db.logs == old(db.logs)
    ensures Admitted(req) && ClientError(env).Some? ==>
      resp == JsonReply(500, ErrorBody(ClientError(env).value)) && db.logs == old(db.logs)
    ensures Connected(env, req) && faults.lookupFails ==>
      resp == JsonReply(404, ErrorBody(ProjectNotFoundMessage)) && db.logs == old(db.logs)
    ensures Connected(env, req) && FindProject(old(db.projects), WebhookUrl(env, req.id.value)).None? ==>
      resp == JsonReply(404, ErrorBody(ProjectNotFoundMessage)) && db.logs == old(db.logs)
    ensures Connected(env, req) && !faults.lookupFails &&
            FindProject(old(db.projects), WebhookUrl(env, req.id.value)).Some? ==>
      var project := FindProject(old(db.projects), WebhookUrl(env, req.id.value)).value;
      var payload := req.body.value;
      var eventType := CanonicalEventType(req.githubEvent.value, payload);
      && (eventType.None? ==>
            resp == JsonReply(500, ErrorBody(EngineTypeError)) && db.logs == old(db.logs))
      && (eventType.Some? ==>
            var matched := MatchingEvents(old(db.events), project.id, eventType.value);
            && (faults.eventsQueryFails ==>
                  resp == JsonReply(500, ErrorBody(EventsQueryMessage)) && db.logs == old(db.logs))
            && (!faults.eventsQueryFails && matched == [] ==>
                  resp == JsonReply(200, MessageBody(NoMatchMessage)) && db.logs == old(db.logs))
            && (!faults.eventsQueryFails && matched != [] ==>
                  && |db.logs| >= |old(db.logs)| && db.logs[..|old(db.logs)|] == old(db.logs)
                  && multiset(db.logs[|old(db.logs)|..]) == multiset(FanOutWrites(matched, payload, faults.writes))
                  && resp == FanOutResponse(Settlements(matched, faults.writes))))
  {
    if MissingId(req) {
      return JsonReply(400, ErrorBody(MissingIdMessage));
    }
    var id := req.id.value;

    if req.body.Malformed? {
      // `await req.json()` throws; the outer catch answers.
      return JsonReply(500, ErrorBody(ErrorText(req.body.message, HandlerFallbackMessage)));
    }
    var payload := req.body.value;

    if InvalidDelivery(req) {
      return JsonReply(400, ErrorBody(InvalidPayloadMessage));
    }
    var githubEvent := req.githubEvent.value;

    var clientError := ClientError(env);
    if clientError.Some? {
      // `createClient` raises; the outer catch answers with its message.
      return JsonReply(500, ErrorBody(ErrorText(clientError.value, HandlerFallbackMessage)));
    }

    var found := FindProject(db.projects, WebhookUrl(env, id));
    if faults.lookupFails || found.None? {
      return JsonReply(404, ErrorBody(ProjectNotFoundMessage));
    }
    var project := found.value;

    var eventType := CanonicalEventType(githubEvent, payload);
    if eventType.None? {
      // Rendering `payload.action` or `payload.ref_type` raised; the outer catch answers.
      return JsonReply(500, ErrorBody(EngineTypeError));
    }

    if faults.eventsQueryFails {
      return JsonReply(500, ErrorBody(EventsQueryMessage));
    }
    var matched := MatchingEvents(db.events, project.id, eventType.value);
    if |matched| == 0 {
      return JsonReply(200, MessageBody(NoMatchMessage));
    }

    var settled := FanOut(db, matched, payload, faults.writes);
    resp := FanOutResponse(settled);
  }
}
