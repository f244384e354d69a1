/**
 * How the mailbox operations fit together: what one user queues, the other
 * drains, in order, exactly once; `batchUpdate` is the three drains at once;
 * `debug` counts what the next drain will hand over.
 */
module Mailboxes {
  import opened ChatTypes
  import opened Actions

  /** A drain hands over the whole queue once: the second drain right after it finds nothing. */
  lemma SignalsDrainOnce(p: Pool, id: string)
    ensures var first := GetSignals(p, id);
            var second := GetSignals(first.pool, id);
            && second.response == Signals([])
            && second.pool == first.pool
            && first.response.signals + second.response.signals ==
               (if id in p.users then p.users[id].signals else [])
  {
  }

  lemma MessagesDrainOnce(p: Pool, id: string)
    ensures var first := GetMessages(p, id);
            var second := GetMessages(first.pool, id);
            && second.response == Messages([])
            && second.pool == first.pool
            && first.response.messages + second.response.messages ==
               (if id in p.users then p.users[id].messages else [])
  {
  }

  lemma EventsDrainOnce(p: Pool, id: string)
    ensures var first := GetEvents(p, id);
            var second := GetEvents(first.pool, id);
            && second.response == Events([])
            && second.pool == first.pool
            && first.response.events + second.response.events ==
               (if id in p.users then p.users[id].events else [])
  {
  }

  /** A signal sent to a live partner is the last item the partner's next drain hands over. */
  lemma SignalReachesPartner(p: Pool, id: string, d: Data, now: int)
    requires HasLivePartner(p, id)
    ensures var q := PartnerOf(p, id);
            GetSignals(Signal(p, id, Some(d), now).pool, q).response ==
              Signals(p.users[q].signals + [SignalItem(id, d.signal, now)])
  {
  }

  /** A chat line sent to a live partner is the last item the partner's next drain hands over. */
  lemma MessageReachesPartner(p: Pool, id: string, d: Data, now: int)
    requires HasLivePartner(p, id)
    ensures var q := PartnerOf(p, id);
            GetMessages(ChatMessage(p, id, Some(d), now).pool, q).response ==
              Messages(p.users[q].messages + [MessageItem(id, d.message, now)])
  {
  }

  /** A refused chat line leaves every mailbox as it was. */
  lemma RefusedMessageQueuesNothing(p: Pool, id: string, data: Option<Data>, now: int, u: string)
    requires ChatMessage(p, id, data, now).response != MessageQueued
    ensures GetMessages(ChatMessage(p, id, data, now).pool, u) == GetMessages(p, u)
  {
  }

  /** The partner left behind finds exactly one `partnerDisconnected` event at the end of its events. */
  lemma DisconnectNotifiesPartner(p: Pool, id: string, now: int)
    requires HasLivePartner(p, id) && PartnerOf(p, id) != id
    ensures var q := PartnerOf(p, id);
            var after := Disconnect(p, id, now).pool;
            && q in after.users && after.users[q].partner == None
            && GetEvents(after, q).response ==
                 Events(p.users[q].events + [EventItem(PartnerDisconnected, now)])
  {
  }

  /** After `disconnect`, the user is unknown: every drain answers `[]` and changes nothing. */
  lemma DisconnectedUserIsUnknown(p: Pool, id: string, now: int)
    ensures var after := Disconnect(p, id, now).pool;
            && GetSignals(after, id) == Outcome(after, Signals([]))
            && GetMessages(after, id) == Outcome(after, Messages([]))
            && GetEvents(after, id) == Outcome(after, Events([]))
            && BatchUpdate(after, id) == Outcome(after, Batch([], [], []))
  {
  }

  /** `join` starts from empty mailboxes, whatever was queued for the user before. */
  lemma JoinEmptiesMailboxes(p: Pool, id: string, now: int)
    ensures var after := Join(p, id, now).pool;
            && GetSignals(after, id).response == Signals([])
            && GetMessages(after, id).response == Messages([])
            && GetEvents(after, id).response == Events([])
  {
  }

  /** `batchUpdate` answers and leaves the registry exactly as `getSignals`, `getMessages`, `getEvents` in a row. */
  lemma BatchIsThreeDrains(p: Pool, id: string)
    ensures var s := GetSignals(p, id);
            var m := GetMessages(s.pool, id);
            var e := GetEvents(m.pool, id);
            BatchUpdate(p, id) ==
              Outcome(e.pool, Batch(s.response.signals, m.response.messages, e.response.events))
  {
    if id in p.users {
      var u := p.users[id];
      var s := GetSignals(p, id);
      var m := GetMessages(s.pool, id);
      var e := GetEvents(m.pool, id);
      assert e.pool.users == p.users[id := u.(signals := [], messages := [], events := [])];
    }
  }

  /** `debug` counts exactly what the next drains of signals and messages would hand over. */
  lemma DebugCountsWhatDrainsReturn(p: Pool, id: string)
    ensures DebugReport(p, id).signalCount == |GetSignals(p, id).response.signals|
    ensures DebugReport(p, id).messageCount == |GetMessages(p, id).response.messages|
    ensures DebugReport(p, id).userExists <==> id in p.users
    ensures DebugReport(p, id).partnerExists <==> HasLivePartner(p, id)
    ensures DebugReport(p, id).totalUsers == |p.users|
    ensures DebugReport(p, id).waitingUser == p.waiting
  {
  }

  /** GET reports the same registry size and waiter as `debug`. */
  lemma StatusAgreesWithDebug(p: Pool, id: string, now: int)
    ensures StatusReport(p, now).users == DebugReport(p, id).totalUsers
    ensures StatusReport(p, now).waitingUser == "yes" <==> DebugReport(p, id).waitingUser.Some?
  {
  }
}
