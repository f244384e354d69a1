/**
 * Partner links and the waiting slot across sequences of requests.
 *
 * The handler keeps partner links symmetric only when `join` and
 * `findPartner` come from users who have no partner: `findPartner` from a
 * partnered user makes it the waiter while its old partner still points at
 * it, and the next pairing rewrites only the waiter's side.
 * `PartneredCallerBreaksSymmetry` exhibits that run;
 * `RunKeepsConsistent` proves symmetry for every run that avoids it.
 */
module Pairing {
  import opened ChatTypes
  import RateLimit
  import opened Actions
  import opened Handler

  /** Every partner link is to someone else, who is registered and links back. */
  ghost predicate PartnersSymmetric(p: Pool) {
    forall a :: a in p.users && p.users[a].partner.Some? ==>
      p.users[a].partner.value != a &&
      p.users[a].partner.value in p.users &&
      p.users[p.users[a].partner.value].partner == Some(a)
  }

  /** A registered waiter has no partner. */
  ghost predicate WaiterUnpartnered(p: Pool) {
    p.waiting.Some? && p.waiting.value in p.users ==> p.users[p.waiting.value].partner.None?
  }

  ghost predicate Consistent(p: Pool) {
    PartnersSymmetric(p) && WaiterUnpartnered(p)
  }

  predicate Unpartnered(p: Pool, id: string) {
    id !in p.users || p.users[id].partner.None?
  }

  /** The caller obligation: `join` and `findPartner` come only from users without a partner. */
  predicate Eligible(s: Server, req: Request) {
    (req.Post? && !MissingId(req.userId) && (req.kind == Some("join") || req.kind == Some("findPartner")))
      ==> Unpartnered(s.pool, req.userId.value)
  }

  /** Two registries with the same users, partner links and waiter. */
  ghost predicate SameLinks(p: Pool, q: Pool) {
    && p.waiting == q.waiting
    && p.users.Keys == q.users.Keys
    && forall u :: u in p.users ==> q.users[u].partner == p.users[u].partner
  }

  lemma SameLinksKeepConsistent(p: Pool, q: Pool)
    requires Consistent(p) && SameLinks(p, q)
    ensures Consistent(q)
  {
  }

  lemma JoinKeepsConsistent(p: Pool, id: string, now: int)
    requires Consistent(p) && Unpartnered(p, id)
    ensures Consistent(Join(p, id, now).pool)
  {
  }

  lemma FindPartnerKeepsConsistent(p: Pool, id: string)
    requires Consistent(p) && Unpartnered(p, id)
    ensures Consistent(FindPartner(p, id).pool)
  {
    var out := FindPartner(p, id);
    if out.response.PartnerFound? {
      var w := p.waiting.value;
      var q := out.pool;
      forall a | a in q.users && q.users[a].partner.Some?
        ensures q.users[a].partner.value != a && q.users[a].partner.value in q.users
        ensures q.users[q.users[a].partner.value].partner == Some(a)
      {
        if a != id && a != w {
          var b := p.users[a].partner.value;
          assert b != id && b != w;
        }
      }
    }
  }

  lemma DisconnectKeepsConsistent(p: Pool, id: string, now: int)
    requires Consistent(p)
    ensures Consistent(Disconnect(p, id, now).pool)
  {
    var q := Disconnect(p, id, now).pool;
    forall a | a in q.users && q.users[a].partner.Some?
      ensures q.users[a].partner.value != a && q.users[a].partner.value in q.users
      ensures q.users[q.users[a].partner.value].partner == Some(a)
    {
      assert !(HasLivePartner(p, id) && a == PartnerOf(p, id));
      var b := p.users[a].partner.value;
      assert b != id;
    }
  }

  /** Any single request from an eligible caller keeps the registry consistent. */
  lemma HandleKeepsConsistent(s: Server, req: Request, now: int)
    requires Consistent(s.pool) && Eligible(s, req)
    ensures Consistent(Handle(s, req, now).server.pool)
  {
    if req.Post? && !MissingId(req.userId) && RateLimit.Check(s.requests, req.userId.value, now).allowed {
      var p, id, data := s.pool, req.userId.value, req.data;
      match req.kind
      case Some("join") => JoinKeepsConsistent(p, id, now);
      case Some("findPartner") => FindPartnerKeepsConsistent(p, id);
      case Some("signal") => SameLinksKeepConsistent(p, Signal(p, id, data, now).pool);
      case Some("getSignals") => SameLinksKeepConsistent(p, GetSignals(p, id).pool);
      case Some("chatMessage") => SameLinksKeepConsistent(p, ChatMessage(p, id, data, now).pool);
      case Some("getMessages") => SameLinksKeepConsistent(p, GetMessages(p, id).pool);
      case Some("disconnect") => DisconnectKeepsConsistent(p, id, now);
      case Some("getEvents") => SameLinksKeepConsistent(p, GetEvents(p, id).pool);
      case Some("batchUpdate") => SameLinksKeepConsistent(p, BatchUpdate(p, id).pool);
      case _ =>
    }
  }

  datatype Step = Step(req: Request, now: int)

  /** The server after the requests `steps`, handled one after another. */
  function Run(s: Server, steps: seq<Step>): (last: Server)
    decreases |steps|
  {
    if steps == [] then s
    else Run(Handle(s, steps[0].req, steps[0].now).server, steps[1..])
  }

  /** Every request of the run is eligible in the state it meets. */
  ghost predicate EligibleRun(s: Server, steps: seq<Step>)
    decreases |steps|
  {
    steps == [] ||
    (Eligible(s, steps[0].req) && EligibleRun(Handle(s, steps[0].req, steps[0].now).server, steps[1..]))
  }

  /** Partner symmetry and a free waiter hold after every run of eligible requests. */
  lemma {:induction false} RunKeepsConsistent(s: Server, steps: seq<Step>)
    requires Consistent(s.pool) && EligibleRun(s, steps)
    ensures Consistent(Run(s, steps).pool)
    decreases |steps|
  {
    if steps != [] {
      HandleKeepsConsistent(s, steps[0].req, steps[0].now);
      RunKeepsConsistent(Handle(s, steps[0].req, steps[0].now).server, steps[1..]);
    }
  }

  /** No run, eligible or not, lets any window count more than 50 requests. */
  lemma {:induction false} RunKeepsCountersBounded(s: Server, steps: seq<Step>)
    requires RateLimit.Bounded(s.requests)
    ensures RateLimit.Bounded(Run(s, steps).requests)
    decreases |steps|
  {
    if steps != [] {
      HandleKeepsCountersBounded(s, steps[0].req, steps[0].now);
      RunKeepsCountersBounded(Handle(s, steps[0].req, steps[0].now).server, steps[1..]);
    }
  }

  function Paired(partner: string): (s: Session) {
    Session(Some(partner), 0, [], [], [])
  }

  /**
   * A and B are partners; A calls `findPartner` again and becomes the waiter;
   * C's `findPartner` then pairs C with A, and B is left pointing at A.
   */
  lemma PartneredCallerBreaksSymmetry()
    ensures var s0 := Server(Pool(map["A" := Paired("B"), "B" := Paired("A"), "C" := NewSession(0)], None), map[]);
            var s1 := Handle(s0, Post(Some("A"), Some("findPartner"), None), 1);
            var s2 := Handle(s1.server, Post(Some("C"), Some("findPartner"), None), 2);
            && Consistent(s0.pool)
            && s1.response == Waiting
            && s2.response == PartnerFound("A")
            && s2.server.pool.users["A"].partner == Some("C")
            && s2.server.pool.users["B"].partner == Some("A")
            && !PartnersSymmetric(s2.server.pool)
  {
    var s0 := Server(Pool(map["A" := Paired("B"), "B" := Paired("A"), "C" := NewSession(0)], None), map[]);
    var s1 := Handle(s0, Post(Some("A"), Some("findPartner"), None), 1);
    assert s1.server.pool.waiting == Some("A");
    var s2 := Handle(s1.server, Post(Some("C"), Some("findPartner"), None), 2);
    var q := s2.server.pool;
    assert q.users["B"].partner == Some("A") && q.users["A"].partner == Some("C");
  }

  /** A waiter that is no longer registered is not matched: the caller becomes the waiter instead. */
  lemma StaleWaiterIsSkipped(p: Pool, w: string, id: string)
    requires p.waiting == Some(w) && w !in p.users
    ensures FindPartner(p, id) == Outcome(Pool(p.users, Some(id)), Waiting)
  {
  }

  /** When the waiter disconnects the slot is emptied, and the next caller becomes the waiter. */
  lemma WaiterLeavesThenNextWaits(p: Pool, w: string, id: string, now: int)
    requires p.waiting == Some(w)
    ensures Disconnect(p, w, now).pool.waiting == None
    ensures var gone := Disconnect(p, w, now).pool;
            FindPartner(gone, id) == Outcome(Pool(gone.users, Some(id)), Waiting)
  {
  }

  /**
   * A and B are partners; A joins again and gets a fresh session without a
   * partner, while B is left pointing at A.
   */
  lemma JoinBreaksSymmetry()
    ensures var p0 := Pool(map["A" := Paired("B"), "B" := Paired("A")], None);
            var p1 := Join(p0, "A", 1).pool;
            && Consistent(p0)
            && p1.users["A"].partner == None
            && p1.users["B"].partner == Some("A")
            && !PartnersSymmetric(p1)
  {
    var p1 := Join(Pool(map["A" := Paired("B"), "B" := Paired("A")], None), "A", 1).pool;
    assert p1.users["B"].partner == Some("A");
  }

  /** Two fresh users who ask for a partner in turn are paired with each other. */
  lemma {:induction false} TwoJoinersArePaired(a: string, b: string, t: nat)
    requires a != "" && b != "" && a != b
    ensures var s0 := Server(Pool(map[], None), map[]);
            var steps := [Step(Post(Some(a), Some("join"), None), t),
                          Step(Post(Some(b), Some("join"), None), t),
                          Step(Post(Some(a), Some("findPartner"), None), t),
                          Step(Post(Some(b), Some("findPartner"), None), t)];
            var s4 := Run(s0, steps);
            && a in s4.pool.users && s4.pool.users[a].partner == Some(b)
            && b in s4.pool.users && s4.pool.users[b].partner == Some(a)
            && s4.pool.waiting == None
  {
    var s0 := Server(Pool(map[], None), map[]);
    var steps := [Step(Post(Some(a), Some("join"), None), t),
                  Step(Post(Some(b), Some("join"), None), t),
                  Step(Post(Some(a), Some("findPartner"), None), t),
                  Step(Post(Some(b), Some("findPartner"), None), t)];
    var s1 := Handle(s0, steps[0].req, t).server;
    var s2 := Handle(s1, steps[1].req, t).server;
    var s3 := Handle(s2, steps[2].req, t).server;
    var s4 := Handle(s3, steps[3].req, t).server;
    assert s3.pool.waiting == Some(a);
    assert s4.pool.users[a].partner == Some(b) && s4.pool.users[b].partner == Some(a);
    assert Run(s3, steps[3..]) == s4 by { assert steps[3..][1..] == []; }
    assert Run(s2, steps[2..]) == Run(s3, steps[3..]) by { assert steps[2..][1..] == steps[3..]; }
    assert Run(s1, steps[1..]) == Run(s2, steps[2..]) by { assert steps[1..][1..] == steps[2..]; }
  }
}
