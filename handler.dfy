/**
 * The request handler: a GET answers with a status snapshot; a POST is
 * validated (a user id is required), rate-limited per user id, and then
 * dispatched on its `type` to exactly one registry operation.
 */
module Handler {
  import opened ChatTypes
  import RateLimit
  import Actions

  /** A request as the handler sees it after transport; a missing body field is `None`. */
  datatype Request =
    | Get
    | Post(userId: Option<string>, kind: Option<string>, data: Option<Data>)

  /** All module-level state: the registry and the rate-limit table. */
  datatype Server = Server(pool: Pool, requests: RateLimit.Table)

  datatype Reply = Reply(server: Server, response: Response)

  const UserIdRequired: string := "userId required"
  const SlowDown: string := "Too many requests. Please slow down."

  /** `Math.ceil(RATE_LIMIT_WINDOW / 1000)`, in seconds. */
  const RetryAfter: int := (RateLimit.WindowMillis + 999) / 1000

  /** `!userId`: absent, or the empty string. */
  predicate MissingId(userId: Option<string>) {
    userId.None? || userId.value == ""
  }

  /** How JavaScript spells the action type inside a string. */
  function KindText(kind: Option<string>): (text: string) {
    if kind.Some? then kind.value else "undefined"
  }

  const KnownKinds: set<string> :=
    {"join", "findPartner", "signal", "getSignals", "chatMessage", "getMessages",
     "disconnect", "getEvents", "batchUpdate", "debug"}

  predicate IsKnownKind(kind: Option<string>) {
    kind.Some? && kind.value in KnownKinds
  }

  /** The `switch (type)` of a POST whose user id and rate limit have passed. */
  function Dispatch(p: Pool, id: string, kind: Option<string>, data: Option<Data>, now: int): (out: Actions.Outcome)
    ensures !IsKnownKind(kind) ==> out == Actions.Outcome(p, BadRequest("Unknown action: " + KindText(kind)))
  {
    match kind
    case Some("join") => Actions.Join(p, id, now)
    case Some("findPartner") => Actions.FindPartner(p, id)
    case Some("signal") => Actions.Signal(p, id, data, now)
    case Some("getSignals") => Actions.GetSignals(p, id)
    case Some("chatMessage") => Actions.ChatMessage(p, id, data, now)
    case Some("getMessages") => Actions.GetMessages(p, id)
    case Some("disconnect") => Actions.Disconnect(p, id, now)
    case Some("getEvents") => Actions.GetEvents(p, id)
    case Some("batchUpdate") => Actions.BatchUpdate(p, id)
    case Some("debug") => Actions.Outcome(p, Debug(Actions.DebugReport(p, id)))
    case _ => Actions.Outcome(p, BadRequest("Unknown action: " + KindText(kind)))
  }

  /** One call of the handler at time `now`. */
  function Handle(s: Server, req: Request, now: int): (rep: Reply)
    ensures req.Get? ==> rep == Reply(s, Actions.StatusReport(s.pool, now))
    ensures req.Post? && MissingId(req.userId) ==> rep == Reply(s, BadRequest(UserIdRequired))
    ensures req.Post? && !MissingId(req.userId) && !RateLimit.Check(s.requests, req.userId.value, now).allowed ==>
              rep == Reply(s, TooManyRequests(SlowDown, 10))
    ensures req.Post? && !MissingId(req.userId) && RateLimit.Check(s.requests, req.userId.value, now).allowed ==>
              && rep.server.requests == RateLimit.Check(s.requests, req.userId.value, now).table
              && Actions.Outcome(rep.server.pool, rep.response) ==
                 Dispatch(s.pool, req.userId.value, req.kind, req.data, now)
  {
    match req
    case Get => Reply(s, Actions.StatusReport(s.pool, now))
    case Post(userId, kind, data) =>
      if MissingId(userId) then
        Reply(s, BadRequest(UserIdRequired))
      else
        var id := userId.value;
        var d := RateLimit.Check(s.requests, id, now);
        if !d.allowed then
          Reply(Server(s.pool, d.table), TooManyRequests(SlowDown, RetryAfter))
        else
          var out := Dispatch(s.pool, id, kind, data, now);
          Reply(Server(out.pool, d.table), out.response)
  }

  /** The handler answers 400 exactly for a missing user id or, past the rate limit, an unknown type. */
  lemma BadRequestIff(s: Server, req: Request, now: int)
    ensures HttpStatus(Handle(s, req, now).response) == 400 <==>
              req.Post? &&
              (MissingId(req.userId) ||
               (RateLimit.Check(s.requests, req.userId.value, now).allowed && !IsKnownKind(req.kind)))
  {
    if req.Post? && !MissingId(req.userId) && RateLimit.Check(s.requests, req.userId.value, now).allowed
       && IsKnownKind(req.kind) {
      var out := Dispatch(s.pool, req.userId.value, req.kind, req.data, now);
      assert !out.response.BadRequest?;
    }
  }

  /** A request without a user id is refused with 400 before anything is touched. */
  lemma MissingUserIdChangesNothing(s: Server, kind: Option<string>, data: Option<Data>, now: int)
    ensures Handle(s, Post(None, kind, data), now) == Reply(s, BadRequest(UserIdRequired))
    ensures Handle(s, Post(Some(""), kind, data), now) == Reply(s, BadRequest(UserIdRequired))
  {
  }

  /** A refused request answers 429 and leaves the registry and the rate-limit table as they were. */
  lemma RateLimitedChangesNothing(s: Server, id: string, kind: Option<string>, data: Option<Data>, now: int)
    requires id != ""
    requires !RateLimit.Check(s.requests, id, now).allowed
    ensures Handle(s, Post(Some(id), kind, data), now) == Reply(s, TooManyRequests(SlowDown, 10))
  {
  }

  /** An unknown type answers 400 and leaves the registry as it was; only the rate-limit table moves. */
  lemma UnknownKindChangesOnlyCounter(s: Server, id: string, kind: Option<string>, data: Option<Data>, now: int)
    requires id != "" && !IsKnownKind(kind)
    requires RateLimit.Check(s.requests, id, now).allowed
    ensures Handle(s, Post(Some(id), kind, data), now) ==
              Reply(Server(s.pool, RateLimit.Check(s.requests, id, now).table),
                    BadRequest("Unknown action: " + KindText(kind)))
  {
  }

  /** GET and `debug` read the registry and never change it. */
  lemma ReportsAreReadOnly(s: Server, id: string, data: Option<Data>, now: int)
    ensures Handle(s, Get, now).server == s
    ensures Handle(s, Post(Some(id), Some("debug"), data), now).server.pool == s.pool
  {
  }

  /** Every request keeps every rate-limit window within 1..50 requests. */
  lemma HandleKeepsCountersBounded(s: Server, req: Request, now: int)
    requires RateLimit.Bounded(s.requests)
    ensures RateLimit.Bounded(Handle(s, req, now).server.requests)
  {
    if req.Post? && !MissingId(req.userId) {
      RateLimit.CheckKeepsBounded(s.requests, req.userId.value, now);
    }
  }
}
