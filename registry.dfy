/**
 * The handler's module-level state as one object: the `users` map, the
 * `waitingUser` slot and the `userRequests` rate-limit table, updated in place
 * by one method per action. Each method is proved to do what the matching
 * function of `Actions`, `RateLimit` or `Handler` describes, so every property
 * proved of those functions holds of the object.
 */
module ChatServer {
  import opened ChatTypes
  import RateLimit
  import Actions
  import Handler

  class Registry {
    var users: map<string, Session>
    var waiting: Option<string>
    var requests: RateLimit.Table

    /** The registry part of the state. */
    function View(): Pool
      reads this
    {
      Pool(users, waiting)
    }

    /** All of the state. */
    function State(): Handler.Server
      reads this
    {
      Handler.Server(View(), requests)
    }

    constructor ()
      ensures users == map[] && waiting == None && requests == map[]
    {
      users := map[];
      waiting := None;
      requests := map[];
    }

    method CheckRateLimit(userId: string, now: int) returns (allowed: bool)
      modifies this`requests
      ensures RateLimit.Check(old(requests), userId, now) == RateLimit.Decision(allowed, requests)
    {
      if userId !in requests {
        requests := requests[userId := RateLimit.Window(1, now)];
        return true;
      }
      var stats := requests[userId];
      if now - stats.windowStart > RateLimit.WindowMillis {
        requests := requests[userId := RateLimit.Window(1, now)];
        return true;
      }
      if stats.count >= RateLimit.MaxPerWindow {
        return false;
      }
      requests := requests[userId := stats.(count := stats.count + 1)];
      return true;
    }

    method Join(userId: string, now: int) returns (r: Response)
      modifies this`users
      ensures Actions.Join(old(View()), userId, now) == Actions.Outcome(View(), r)
    {
      users := users[userId := Actions.NewSession(now)];
      r := Ok;
    }

    method FindPartner(userId: string) returns (r: Response)
      modifies this`users, this`waiting
      ensures Actions.FindPartner(old(View()), userId) == Actions.Outcome(View(), r)
    {
      if waiting.Some? && waiting.value != userId && waiting.value in users {
        if userId !in users {
          return InternalError(SetOnUndefined("partner"));
        }
        var w := waiting.value;
        users := users[userId := users[userId].(partner := Some(w))];
        users := users[w := users[w].(partner := Some(userId))];
        waiting := None;
        r := PartnerFound(w);
      } else {
        waiting := Some(userId);
        r := Waiting;
      }
    }

    method Signal(userId: string, data: Option<Data>, now: int) returns (r: Response)
      modifies this`users
      ensures Actions.Signal(old(View()), userId, data, now) == Actions.Outcome(View(), r)
    {
      if userId in users && users[userId].partner.Some? {
        var q := users[userId].partner.value;
        if q in users {
          if data.None? {
            return InternalError(ReadOfUndefined("signal"));
          }
          var partner := users[q];
          users := users[q := partner.(signals := partner.signals + [SignalItem(userId, data.value.signal, now)])];
        }
      }
      r := Ok;
    }

    method GetSignals(userId: string) returns (r: Response)
      modifies this`users
      ensures Actions.GetSignals(old(View()), userId) == Actions.Outcome(View(), r)
    {
      if userId in users {
        var signals := users[userId].signals;
        users := users[userId := users[userId].(signals := [])];
        r := Signals(signals);
      } else {
        r := Signals([]);
      }
    }

    method ChatMessage(userId: string, data: Option<Data>, now: int) returns (r: Response)
      modifies this`users
      ensures Actions.ChatMessage(old(View()), userId, data, now) == Actions.Outcome(View(), r)
    {
      if data.None? {
        return InternalError(ReadOfUndefined("message"));
      }
      if userId in users && users[userId].partner.Some? {
        var q := users[userId].partner.value;
        if q in users {
          var partner := users[q];
          users := users[q := partner.(messages := partner.messages + [MessageItem(userId, data.value.message, now)])];
          r := MessageQueued;
        } else {
          r := Failed("Partner not found");
        }
      } else {
        r := Failed("No partner or user not found");
      }
    }

    method GetMessages(userId: string) returns (r: Response)
      modifies this`users
      ensures Actions.GetMessages(old(View()), userId) == Actions.Outcome(View(), r)
    {
      if userId in users && |users[userId].messages| > 0 {
        var messages := users[userId].messages;
        users := users[userId := users[userId].(messages := [])];
        r := Messages(messages);
      } else {
        r := Messages([]);
      }
    }

    method Disconnect(userId: string, now: int) returns (r: Response)
      modifies this`users, this`waiting
      ensures Actions.Disconnect(old(View()), userId, now) == Actions.Outcome(View(), r)
    {
      if userId in users && users[userId].partner.Some? {
        var q := users[userId].partner.value;
        if q in users {
          var partner := users[q];
          users := users[q := partner.(partner := None, events := partner.events + [EventItem(PartnerDisconnected, now)])];
        }
      }
      if waiting == Some(userId) {
        waiting := None;
      }
      users := users - {userId};
      r := Ok;
    }

    method GetEvents(userId: string) returns (r: Response)
      modifies this`users
      ensures Actions.GetEvents(old(View()), userId) == Actions.Outcome(View(), r)
    {
      if userId in users {
        var events := users[userId].events;
        users := users[userId := users[userId].(events := [])];
        r := Events(events);
      } else {
        r := Events([]);
      }
    }

    method BatchUpdate(userId: string) returns (r: Response)
      modifies this`users
      ensures Actions.BatchUpdate(old(View()), userId) == Actions.Outcome(View(), r)
    {
      var signals, messages, events := [], [], [];
      if userId in users {
        var user := users[userId];
        signals := user.signals;
        user := user.(signals := []);
        if |user.messages| > 0 {
          messages := user.messages;
          user := user.(messages := []);
        }
        events := user.events;
        user := user.(events := []);
        users := users[userId := user];
      }
      r := Batch(signals, messages, events);
    }

    method DebugReport(userId: string) returns (info: DebugInfo)
      ensures info == Actions.DebugReport(View(), userId)
    {
      var partner, partnerExists, messageCount, signalCount := None, false, 0, 0;
      var userExists := userId in users;
      if userExists {
        var user := users[userId];
        partner := user.partner;
        partnerExists := user.partner.Some? && user.partner.value in users;
        messageCount := |user.messages|;
        signalCount := |user.signals|;
      }
      info := DebugInfo(userId, userExists, partner, partnerExists, messageCount, signalCount, |users|, waiting);
    }

    method StatusReport(now: int) returns (r: Response)
      ensures r == Actions.StatusReport(View(), now)
    {
      r := Status(|users|, if waiting.Some? then "yes" else "no", now);
    }

    /** One call of the request handler. */
    method Handle(req: Handler.Request, now: int) returns (r: Response)
      modifies this
      ensures Handler.Handle(old(State()), req, now) == Handler.Reply(State(), r)
    {
      match req
      case Get =>
        r := StatusReport(now);
      case Post(userId, kind, data) =>
        if Handler.MissingId(userId) {
          return BadRequest(Handler.UserIdRequired);
        }
        var id := userId.value;
        var allowed := CheckRateLimit(id, now);
        if !allowed {
          return TooManyRequests(Handler.SlowDown, Handler.RetryAfter);
        }
        match kind
        case Some("join") => r := Join(id, now);
        case Some("findPartner") => r := FindPartner(id);
        case Some("signal") => r := Signal(id, data, now);
        case Some("getSignals") => r := GetSignals(id);
        case Some("chatMessage") => r := ChatMessage(id, data, now);
        case Some("getMessages") => r := GetMessages(id);
        case Some("disconnect") => r := Disconnect(id, now);
        case Some("getEvents") => r := GetEvents(id);
        case Some("batchUpdate") => r := BatchUpdate(id);
        case Some("debug") =>
          var info := DebugReport(id);
          r := Debug(info);
        case _ => r := BadRequest("Unknown action: " + Handler.KindText(kind));
    }
  }
}
