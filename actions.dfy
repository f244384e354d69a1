/**
 * The registry operations of the chat handler, one per action type, as
 * functions from the registry before the action to the registry after it and
 * the response. Each operation runs to completion without interleaving, so a
 * function of the old registry describes it exactly.
 */
module Actions {
  import opened ChatTypes

  datatype Outcome = Outcome(pool: Pool, response: Response)

  /** The session `join` creates: no partner and no queued items. */
  function NewSession(now: int): (s: Session) {
    Session(None, now, [], [], [])
  }

  /** The pairing guard: someone other than `id` is waiting and still registered. */
  predicate CanPair(p: Pool, id: string) {
    p.waiting.Some? && p.waiting.value != id && p.waiting.value in p.users
  }

  /** `id` is registered, has a partner, and that partner is still registered. */
  predicate HasLivePartner(p: Pool, id: string) {
    id in p.users && p.users[id].partner.Some? && p.users[id].partner.value in p.users
  }

  function PartnerOf(p: Pool, id: string): (q: string)
    requires HasLivePartner(p, id)
  {
    p.users[id].partner.value
  }

  /** `join`: create the session of `id`, replacing (and losing) any earlier one. */
  function Join(p: Pool, id: string, now: int): (out: Outcome)
    ensures out.response == Ok && out.pool.waiting == p.waiting
    ensures out.pool.users.Keys == p.users.Keys + {id}
    ensures out.pool.users[id].partner == None && out.pool.users[id].lastSeen == now
    ensures out.pool.users[id].signals == [] && out.pool.users[id].messages == [] && out.pool.users[id].events == []
    ensures forall u :: u in p.users && u != id ==> out.pool.users[u] == p.users[u]
  {
    Outcome(Pool(p.users[id := NewSession(now)], p.waiting), Ok)
  }

  /**
   * `findPartner`: pair `id` with the waiter if there is a registered waiter
   * other than `id`; otherwise `id` becomes the waiter. Pairing a caller that
   * never joined writes a field of `undefined` and faults before any change.
   */
  function FindPartner(p: Pool, id: string): (out: Outcome)
    ensures out.response.PartnerFound? <==> CanPair(p, id) && id in p.users
    ensures out.response.PartnerFound? ==>
              var w := p.waiting.value;
              && out.response.partner == w && w != id
              && out.pool.waiting == None
              && out.pool.users.Keys == p.users.Keys
              && out.pool.users[id] == p.users[id].(partner := Some(w))
              && out.pool.users[w] == p.users[w].(partner := Some(id))
              && forall u :: u in p.users && u != id && u != w ==> out.pool.users[u] == p.users[u]
    ensures !CanPair(p, id) ==> out.response == Waiting && out.pool == Pool(p.users, Some(id))
    ensures CanPair(p, id) && id !in p.users ==>
              out.response == InternalError(SetOnUndefined("partner")) && out.pool == p
    // no one is ever paired with themselves by this action
    ensures forall u :: u in out.pool.users && out.pool.users[u].partner == Some(u) ==>
              u in p.users && p.users[u].partner == Some(u)
  {
    if CanPair(p, id) then
      if id !in p.users then
        Outcome(p, InternalError(SetOnUndefined("partner")))
      else
        var w := p.waiting.value;
        var paired := p.users[id := p.users[id].(partner := Some(w))];
        var both := paired[w := paired[w].(partner := Some(id))];
        Outcome(Pool(both, None), PartnerFound(w))
    else
      Outcome(Pool(p.users, Some(id)), Waiting)
  }

  /**
   * `signal`: queue one signal for the live partner of `id`. The answer is
   * success whether or not anything was delivered; with a live partner and no
   * `data` object, reading `data.signal` faults before the push.
   */
  function Signal(p: Pool, id: string, data: Option<Data>, now: int): (out: Outcome)
    ensures out.response == if HasLivePartner(p, id) && data.None?
                            then InternalError(ReadOfUndefined("signal")) else Ok
    ensures out.pool.waiting == p.waiting && out.pool.users.Keys == p.users.Keys
    ensures HasLivePartner(p, id) && data.Some? ==>
              var q := PartnerOf(p, id);
              && out.pool.users[q] == p.users[q].(signals := p.users[q].signals + [SignalItem(id, data.value.signal, now)])
              && forall u :: u in p.users && u != q ==> out.pool.users[u] == p.users[u]
    ensures !(HasLivePartner(p, id) && data.Some?) ==> out.pool == p
  {
    if HasLivePartner(p, id) then
      var q := PartnerOf(p, id);
      match data
      case None => Outcome(p, InternalError(ReadOfUndefined("signal")))
      case Some(d) =>
        var s := p.users[q];
        Outcome(Pool(p.users[q := s.(signals := s.signals + [SignalItem(id, d.signal, now)])], p.waiting), Ok)
    else
      Outcome(p, Ok)
  }

  /** `getSignals`: hand over every queued signal of `id`, oldest first, and empty the queue. */
  function GetSignals(p: Pool, id: string): (out: Outcome)
    ensures out.response == Signals(if id in p.users then p.users[id].signals else [])
    ensures out.pool.waiting == p.waiting && out.pool.users.Keys == p.users.Keys
    ensures id in p.users ==> out.pool.users[id] == p.users[id].(signals := [])
    ensures forall u :: u in p.users && u != id ==> out.pool.users[u] == p.users[u]
  {
    if id in p.users then
      var s := p.users[id];
      Outcome(Pool(p.users[id := s.(signals := [])], p.waiting), Signals(s.signals))
    else
      Outcome(p, Signals([]))
  }

  /**
   * `chatMessage`: queue one message for the live partner of `id`. Logging
   * `data.message` comes first, so a request without `data` always faults.
   */
  function ChatMessage(p: Pool, id: string, data: Option<Data>, now: int): (out: Outcome)
    ensures data.None? ==> out == Outcome(p, InternalError(ReadOfUndefined("message")))
    ensures out.response == MessageQueued <==> data.Some? && HasLivePartner(p, id)
    ensures data.Some? && !(id in p.users && p.users[id].partner.Some?) ==>
              out == Outcome(p, Failed("No partner or user not found"))
    ensures data.Some? && id in p.users && p.users[id].partner.Some? && p.users[id].partner.value !in p.users ==>
              out == Outcome(p, Failed("Partner not found"))
    ensures out.pool.waiting == p.waiting && out.pool.users.Keys == p.users.Keys
    ensures out.response == MessageQueued ==>
              var q := PartnerOf(p, id);
              && out.pool.users[q] == p.users[q].(messages := p.users[q].messages + [MessageItem(id, data.value.message, now)])
              && forall u :: u in p.users && u != q ==> out.pool.users[u] == p.users[u]
  {
    match data
    case None => Outcome(p, InternalError(ReadOfUndefined("message")))
    case Some(d) =>
      if id in p.users && p.users[id].partner.Some? then
        var q := p.users[id].partner.value;
        if q in p.users then
          var s := p.users[q];
          Outcome(Pool(p.users[q := s.(messages := s.messages + [MessageItem(id, d.message, now)])], p.waiting), MessageQueued)
        else
          Outcome(p, Failed("Partner not found"))
      else
        Outcome(p, Failed("No partner or user not found"))
  }

  /**
   * `getMessages`: hand over every queued message of `id`, oldest first, and
   * empty the queue. The source only rewrites a non-empty queue; an empty one
   * stays empty, which is the same.
   */
  function GetMessages(p: Pool, id: string): (out: Outcome)
    ensures out.response == Messages(if id in p.users then p.users[id].messages else [])
    ensures out.pool.waiting == p.waiting && out.pool.users.Keys == p.users.Keys
    ensures id in p.users ==> out.pool.users[id] == p.users[id].(messages := [])
    ensures forall u :: u in p.users && u != id ==> out.pool.users[u] == p.users[u]
  {
    if id in p.users && |p.users[id].messages| > 0 then
      var s := p.users[id];
      Outcome(Pool(p.users[id := s.(messages := [])], p.waiting), Messages(s.messages))
    else
      Outcome(p, Messages([]))
  }

  /**
   * `disconnect`: remove `id`; a live partner loses its partner link and is
   * sent one `partnerDisconnected` event; the waiting slot is cleared exactly
   * when it names `id`. Every other session stays as it was.
   */
  function Disconnect(p: Pool, id: string, now: int): (out: Outcome)
    ensures out.response == Ok
    ensures out.pool.users.Keys == p.users.Keys - {id}
    ensures out.pool.waiting == if p.waiting == Some(id) then None else p.waiting
    ensures HasLivePartner(p, id) && PartnerOf(p, id) != id ==>
              var q := PartnerOf(p, id);
              out.pool.users[q] == p.users[q].(partner := None, events := p.users[q].events + [EventItem(PartnerDisconnected, now)])
    ensures forall u :: u in out.pool.users && !(HasLivePartner(p, id) && u == PartnerOf(p, id)) ==>
              out.pool.users[u] == p.users[u]
  {
    var notified :=
      if HasLivePartner(p, id) then
        var q := PartnerOf(p, id);
        var s := p.users[q];
        p.users[q := s.(partner := None, events := s.events + [EventItem(PartnerDisconnected, now)])]
      else p.users;
    var waiting := if p.waiting == Some(id) then None else p.waiting;
    Outcome(Pool(notified - {id}, waiting), Ok)
  }

  /** `getEvents`: hand over every queued event of `id`, oldest first, and empty the queue. */
  function GetEvents(p: Pool, id: string): (out: Outcome)
    ensures out.response == Events(if id in p.users then p.users[id].events else [])
    ensures out.pool.waiting == p.waiting && out.pool.users.Keys == p.users.Keys
    ensures id in p.users ==> out.pool.users[id] == p.users[id].(events := [])
    ensures forall u :: u in p.users && u != id ==> out.pool.users[u] == p.users[u]
  {
    if id in p.users then
      var s := p.users[id];
      Outcome(Pool(p.users[id := s.(events := [])], p.waiting), Events(s.events))
    else
      Outcome(p, Events([]))
  }

  /** `batchUpdate`: drain the signals, messages and events of `id` in one answer. */
  function BatchUpdate(p: Pool, id: string): (out: Outcome)
    ensures out.response == if id in p.users
                            then Batch(p.users[id].signals, p.users[id].messages, p.users[id].events)
                            else Batch([], [], [])
    ensures out.pool.waiting == p.waiting && out.pool.users.Keys == p.users.Keys
    ensures id in p.users ==> out.pool.users[id] == p.users[id].(signals := [], messages := [], events := [])
    ensures forall u :: u in p.users && u != id ==> out.pool.users[u] == p.users[u]
  {
    if id in p.users then
      var s := p.users[id];
      var signals := s.signals;
      var afterSignals := s.(signals := []);
      var messages := if |afterSignals.messages| > 0 then afterSignals.messages else [];
      var afterMessages := if |afterSignals.messages| > 0 then afterSignals.(messages := []) else afterSignals;
      var events := afterMessages.events;
      var drained := afterMessages.(events := []);
      Outcome(Pool(p.users[id := drained], p.waiting), Batch(signals, messages, events))
    else
      Outcome(p, Batch([], [], []))
  }

  /** `debug`: a read-only report on `id`, its partner and the registry. */
  function DebugReport(p: Pool, id: string): (info: DebugInfo)
    ensures info.userId == id
    ensures info.userExists <==> id in p.users
    ensures info.partner == if id in p.users then p.users[id].partner else None
    ensures info.partnerExists <==> HasLivePartner(p, id)
    ensures info.messageCount == if id in p.users then |p.users[id].messages| else 0
    ensures info.signalCount == if id in p.users then |p.users[id].signals| else 0
    ensures info.totalUsers == |p.users|
    ensures info.waitingUser == p.waiting
  {
    if id in p.users then
      var s := p.users[id];
      DebugInfo(id, true, s.partner, HasLivePartner(p, id),
                |s.messages|, |s.signals|, |p.users|, p.waiting)
    else
      DebugInfo(id, false, None, false, 0, 0, |p.users|, p.waiting)
  }

  /** The answer to GET: how many users are registered and whether someone waits. */
  function StatusReport(p: Pool, now: int): (r: Response)
    ensures r.Status? && r.users == |p.users| && r.timestamp == now
    ensures r.waitingUser == "yes" <==> p.waiting.Some?
    ensures r.waitingUser == "no" <==> p.waiting.None?
  {
    Status(|p.users|, if p.waiting.Some? then "yes" else "no", now)
  }
}
