/**
 * Two complete conversations with the registry, from an empty one, as
 * concrete runs whose every answer is stated.
 */
module Scenarios {
  import opened ChatTypes
  import opened Actions
  import RateLimit
  import opened Handler

  function Call(s: Server, id: string, kind: string, data: Option<Data>, now: int): (rep: Reply) {
    Handle(s, Post(Some(id), Some(kind), data), now)
  }

  /**
   * A and B join and ask for a partner in turn; A sends an SDP offer; B's
   * first `getSignals` hands it over once, the second finds nothing.
   */
  lemma OfferIsDeliveredOnce(o1: Outcome, o2: Outcome, o3: Outcome, o4: Outcome, o5: Outcome, o6: Outcome, o7: Outcome)
    requires o1 == Join(Pool(map[], None), "A", 1)
    requires o2 == Join(o1.pool, "B", 2)
    requires o3 == FindPartner(o2.pool, "A")
    requires o4 == FindPartner(o3.pool, "B")
    requires o5 == Signal(o4.pool, "A", Some(Data(Some("sdp-offer"), None)), 5)
    requires o6 == GetSignals(o5.pool, "B")
    requires o7 == GetSignals(o6.pool, "B")
    ensures o1.response == Ok && o2.response == Ok
    ensures o3.response == Waiting
    ensures o4.response == PartnerFound("A")
    ensures o5.response == Ok
    ensures o6.response == Signals([SignalItem("A", Some("sdp-offer"), 5)])
    ensures o7.response == Signals([])
  {
    assert o2.pool.users.Keys == {"A", "B"};
    assert o3.pool.waiting == Some("A");
    assert o4.pool.users["A"].partner == Some("B");
    assert o4.pool.users["B"].signals == [];
  }

  /** A lone user's chat line is refused, and nothing is queued for it. */
  lemma LoneMessageIsRefused(o1: Outcome, o2: Outcome, o3: Outcome)
    requires o1 == Join(Pool(map[], None), "A", 1)
    requires o2 == ChatMessage(o1.pool, "A", Some(Data(None, Some("hi"))), 2)
    requires o3 == GetMessages(o2.pool, "A")
    ensures o2.response == Failed("No partner or user not found")
    ensures o3.response == Messages([])
  {
  }

  /** The four types this conversation uses are dispatched to their registry operations. */
  lemma DispatchesTo(p: Pool, id: string, data: Option<Data>, now: int)
    ensures Dispatch(p, id, Some("join"), data, now) == Join(p, id, now)
    ensures Dispatch(p, id, Some("findPartner"), data, now) == FindPartner(p, id)
    ensures Dispatch(p, id, Some("signal"), data, now) == Signal(p, id, data, now)
    ensures Dispatch(p, id, Some("getSignals"), data, now) == GetSignals(p, id)
  {
  }

  /** A request that passes the user-id check and the rate limit answers as its registry operation. */
  lemma AllowedCall(s: Server, id: string, kind: string, data: Option<Data>, now: int, t: RateLimit.Table, o: Outcome)
    requires id != ""
    requires RateLimit.Check(s.requests, id, now) == RateLimit.Decision(true, t)
    requires Dispatch(s.pool, id, Some(kind), data, now) == o
    ensures Call(s, id, kind, data, now) == Reply(Server(o.pool, t), o.response)
  {
  }

  /** The rate-limit table along the conversation: A sends three requests, B four, all allowed. */
  lemma ConversationIsNotThrottled()
    ensures var t1 := map["A" := RateLimit.Window(1, 1)];
            var t2 := t1["B" := RateLimit.Window(1, 2)];
            var t3 := t2["A" := RateLimit.Window(2, 1)];
            var t4 := t3["B" := RateLimit.Window(2, 2)];
            var t5 := t4["A" := RateLimit.Window(3, 1)];
            var t6 := t5["B" := RateLimit.Window(3, 2)];
            var t7 := t6["B" := RateLimit.Window(4, 2)];
            && RateLimit.Check(map[], "A", 1) == RateLimit.Decision(true, t1)
            && RateLimit.Check(t1, "B", 2) == RateLimit.Decision(true, t2)
            && RateLimit.Check(t2, "A", 3) == RateLimit.Decision(true, t3)
            && RateLimit.Check(t3, "B", 4) == RateLimit.Decision(true, t4)
            && RateLimit.Check(t4, "A", 5) == RateLimit.Decision(true, t5)
            && RateLimit.Check(t5, "B", 6) == RateLimit.Decision(true, t6)
            && RateLimit.Check(t6, "B", 7) == RateLimit.Decision(true, t7)
  {
  }

  /**
   * The same conversation through the handler, from an empty server: each
   * request passes the user-id check and the rate limit, is dispatched on its
   * type, and gets the same answers.
   */
  lemma OfferThroughHandler(r1: Reply, r2: Reply, r3: Reply, r4: Reply, r5: Reply, r6: Reply, r7: Reply)
    requires r1 == Call(Server(Pool(map[], None), map[]), "A", "join", None, 1)
    requires r2 == Call(r1.server, "B", "join", None, 2)
    requires r3 == Call(r2.server, "A", "findPartner", None, 3)
    requires r4 == Call(r3.server, "B", "findPartner", None, 4)
    requires r5 == Call(r4.server, "A", "signal", Some(Data(Some("sdp-offer"), None)), 5)
    requires r6 == Call(r5.server, "B", "getSignals", None, 6)
    requires r7 == Call(r6.server, "B", "getSignals", None, 7)
    ensures r1.response == Ok && r2.response == Ok
    ensures r3.response == Waiting
    ensures r4.response == PartnerFound("A")
    ensures r5.response == Ok
    ensures r6.response == Signals([SignalItem("A", Some("sdp-offer"), 5)])
    ensures r7.response == Signals([])
  {
    var sdp := Some(Data(Some("sdp-offer"), None));
    var t1 := map["A" := RateLimit.Window(1, 1)];
    var t2 := t1["B" := RateLimit.Window(1, 2)];
    var t3 := t2["A" := RateLimit.Window(2, 1)];
    var t4 := t3["B" := RateLimit.Window(2, 2)];
    var t5 := t4["A" := RateLimit.Window(3, 1)];
    var t6 := t5["B" := RateLimit.Window(3, 2)];
    var t7 := t6["B" := RateLimit.Window(4, 2)];
    ConversationIsNotThrottled();
    var o1 := Join(Pool(map[], None), "A", 1);
    var o2 := Join(o1.pool, "B", 2);
    var o3 := FindPartner(o2.pool, "A");
    var o4 := FindPartner(o3.pool, "B");
    var o5 := Signal(o4.pool, "A", sdp, 5);
    var o6 := GetSignals(o5.pool, "B");
    var o7 := GetSignals(o6.pool, "B");
    DispatchesTo(Pool(map[], None), "A", None, 1);
    AllowedCall(Server(Pool(map[], None), map[]), "A", "join", None, 1, t1, o1);
    DispatchesTo(o1.pool, "B", None, 2);
    AllowedCall(r1.server, "B", "join", None, 2, t2, o2);
    DispatchesTo(o2.pool, "A", None, 3);
    AllowedCall(r2.server, "A", "findPartner", None, 3, t3, o3);
    DispatchesTo(o3.pool, "B", None, 4);
    AllowedCall(r3.server, "B", "findPartner", None, 4, t4, o4);
    DispatchesTo(o4.pool, "A", sdp, 5);
    AllowedCall(r4.server, "A", "signal", sdp, 5, t5, o5);
    DispatchesTo(o5.pool, "B", None, 6);
    AllowedCall(r5.server, "B", "getSignals", None, 6, t6, o6);
    DispatchesTo(o6.pool, "B", None, 7);
    AllowedCall(r6.server, "B", "getSignals", None, 7, t7, o7);
    OfferIsDeliveredOnce(o1, o2, o3, o4, o5, o6, o7);
  }
}
