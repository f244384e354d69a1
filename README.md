# Random-pairing chat relay: matchmaking and mailboxes

This project models the core of a video-chat signalling relay, written in
Dafny. Clients poll one HTTP endpoint. They join a pool and are paired with the
user who is waiting. They then exchange WebRTC signalling payloads and chat
lines through queues that the server keeps per user.

The model covers the request handler of `api/chat.js`, which has three pieces
of module-level state:

- `users`: a map from user id to a session. A session holds a partner link,
  `lastSeen`, and three FIFO mailboxes: signals, messages and events.
- `waitingUser`: a single waiting slot.
- `userRequests`: a fixed-window rate-limit counter per user id.

Each POST is validated and rate-limited, then runs exactly one registry action.
A GET returns a status snapshot.

Layout (one module per file):

- `chat_types.dfy` (`ChatTypes`): sessions, mailbox items, the registry value
  `Pool`, faults, and the `Response` datatype. `Response` has one variant per
  kind of answer: status, success and failure payloads, drained lists, 400,
  429 and 500.
- `rate_limit.dfy` (`RateLimit`): `checkRateLimit` as a function on the table,
  plus lemmas about bursts of requests.
- `actions.dfy` (`Actions`): each action as a function from the registry before
  it to the registry after it and the response.
- `handler.dfy` (`Handler`): the handler itself (GET, userId validation, rate
  limit, `switch (type)`) and lemmas about single requests.
- `mailboxes.dfy` (`Mailboxes`): how queueing and draining fit together.
- `pairing.dfy` (`Pairing`): partner symmetry across runs of requests, and the
  run that breaks it.
- `scenarios.dfy` (`Scenarios`): two complete conversations.
- `registry.dfy` (`ChatServer`): the `Registry` class. Its fields are `users`,
  `waiting` and `requests`, updated in place by one method per action. Each
  method is proved equal to the function that specifies it, so every lemma
  about those functions also holds of the object.

The handler reads the clock once per request. Its time is the parameter
`now: int`. The same `now` stands for every `Date.now()` call made in that
request.

Where the code keeps less than the relay's design intends, this model follows the code:

- Partner links stay symmetric only if `join` and `findPartner` come from
  users with no partner. `Pairing.PartneredCallerBreaksSymmetry` and
  `Pairing.JoinBreaksSymmetry` show runs that break symmetry. `Pairing.RunKeepsConsistent` proves symmetry under
  that condition.
- `findPartner` from an id that never joined can make that id the waiter
  (`api/chat.js:98-99`). So the waiting slot can name an unregistered id. The
  pairing guard then skips it (`api/chat.js:85`).
- If there is a valid waiter, `findPartner` from an id that never joined
  writes to `undefined` (`api/chat.js:87`). The result is a 500 and no change.
- A request with an unknown `type` answers 400 but has already counted
  against the rate limit (`api/chat.js:68`, `api/chat.js:253-254`).

## Model

| member | source | states |
|---|---|---|
| ChatTypes.HttpStatus | api/chat.js:253-261 | the code is 400 exactly for a validation error, 429 exactly for a rate-limit refusal, 500 exactly for a fault, and 200 for every other answer |
| RateLimit.Check | api/chat.js:10-34 | allowed iff the id is new, its window expired (more than 10000 ms) or it counted fewer than 50; a new or expired window restarts at count 1; inside the window the count goes up by one; a refusal changes nothing; other ids are untouched |
| RateLimit.CheckKeepsBounded | api/chat.js:21-33 | counts stay within 1..50 |
| RateLimit.BurstInOpenWindow | api/chat.js:27-33 | in an open window with count c, a burst that stays inside the window gets exactly min(n, 50 - c) requests through |
| RateLimit.FreshBurst | api/chat.js:13-33 | a new id sending n requests within 10000 ms of the first gets exactly min(n, 50) through |
| Actions.Join | api/chat.js:79-82 | the session is replaced by one with no partner, lastSeen = now and empty mailboxes; every other session and the waiter are unchanged; answers success |
| Actions.FindPartner | api/chat.js:84-105 | pairs exactly when a registered waiter other than the caller exists and the caller is registered; pairing links both sides, clears the waiter, names the waiter and changes no one else; otherwise the caller becomes the waiter and no session changes; an unregistered caller meeting a valid waiter faults with nothing changed; no self-link is ever created |
| Actions.Signal | api/chat.js:107-121 | with a live partner, appends one {from, signal, now} at the end of the partner's signals and changes nothing else; otherwise changes nothing; always answers success, except that a missing data object with a live partner faults with nothing changed |
| Actions.GetSignals | api/chat.js:123-132 | answers the caller's signals in queue order and empties that queue; an unknown caller gets [] and nothing changes |
| Actions.ChatMessage | api/chat.js:134-160 | queued iff data is present and the caller has a live partner; then one {from, message, now} is appended to the partner's messages and nothing else changes; otherwise 'No partner or user not found' or 'Partner not found' with nothing changed; a missing data object always faults |
| Actions.GetMessages | api/chat.js:162-175 | answers the caller's messages in order and leaves that queue empty; an unknown caller gets [] |
| Actions.Disconnect | api/chat.js:177-192 | the caller is removed; a live partner loses its link and gets one partnerDisconnected event appended; the waiter is cleared iff it was the caller; every other session is unchanged |
| Actions.BatchUpdate | api/chat.js:205-235 | answers the caller's signals, messages and events in order and leaves all three queues empty; an unknown caller gets three [] and nothing changes; no other session or the waiter changes |
| Actions.DebugReport | api/chat.js:237-251 | reports the id, whether the user exists, its partner (or null), whether that partner exists, its message and signal counts (0 for an unknown user), the registry size and the waiter |
| Actions.StatusReport | api/chat.js:49-56 | reports status with the registry size, 'yes' iff someone is waiting and 'no' otherwise, and the request time |
| Actions.GetEvents | api/chat.js:194-203 | answers the caller's events in order and empties that queue; an unknown caller gets [] |
| Handler.Handle | api/chat.js:36-263 | GET answers the status report and changes nothing; a missing userId answers 400 and changes nothing; a refused request answers 429 and changes nothing; otherwise the rate-limit table is updated and the registry and answer are those of the action the type selects |
| Handler.Dispatch | api/chat.js:253-254 | an unknown or missing type answers 400 'Unknown action: <type>' with the registry unchanged |
| Handler.BadRequestIff | api/chat.js:62-65 | the answer is 400 iff the userId is missing, or the request passed the rate limit and has an unknown type |
| Handler.MissingUserIdChangesNothing | api/chat.js:62-65 | an absent or empty userId answers 400 'userId required' and changes no state, including the rate-limit table |
| Handler.RateLimitedChangesNothing | api/chat.js:67-74 | a refused request answers 429 with retryAfter 10 and changes no state |
| Handler.UnknownKindChangesOnlyCounter | api/chat.js:253-254 | an unknown type answers 400 and only the rate-limit table changes |
| Handler.ReportsAreReadOnly | api/chat.js:49-56 | GET changes no state; debug changes no registry state |
| Handler.HandleKeepsCountersBounded | api/chat.js:67-74 | no request can push a window's count outside 1..50 |
| Mailboxes.SignalsDrainOnce | api/chat.js:123-132 | two getSignals calls together return the queue exactly once; the second returns [] and changes nothing |
| Mailboxes.MessagesDrainOnce | api/chat.js:162-175 | the same for getMessages |
| Mailboxes.EventsDrainOnce | api/chat.js:194-203 | the same for getEvents |
| Mailboxes.SignalReachesPartner | api/chat.js:107-132 | the partner's next getSignals returns its earlier signals followed by the new one |
| Mailboxes.MessageReachesPartner | api/chat.js:134-175 | the partner's next getMessages returns its earlier messages followed by the new one |
| Mailboxes.RefusedMessageQueuesNothing | api/chat.js:152-159 | a chat line that is not queued leaves every user's messages as they were |
| Mailboxes.DisconnectNotifiesPartner | api/chat.js:177-203 | after disconnect the partner has no partner, and its next getEvents returns its earlier events followed by exactly one partnerDisconnected |
| Mailboxes.DisconnectedUserIsUnknown | api/chat.js:190 | after disconnect every drain for that id answers [] and changes nothing |
| Mailboxes.JoinEmptiesMailboxes | api/chat.js:80 | after join all three drains answer [] |
| Mailboxes.BatchIsThreeDrains | api/chat.js:205-235 | batchUpdate answers and changes state exactly like getSignals, then getMessages, then getEvents |
| Mailboxes.DebugCountsWhatDrainsReturn | api/chat.js:237-251 | debug's signal and message counts equal the lengths the next drains return; it reports whether the user and its partner exist, the registry size and the waiter |
| Mailboxes.StatusAgreesWithDebug | api/chat.js:49-56 | GET's user count and 'yes'/'no' agree with debug's totalUsers and waitingUser |
| Pairing.JoinKeepsConsistent | api/chat.js:79-82 | join by an unpartnered user keeps partner links symmetric and the waiter unpartnered |
| Pairing.FindPartnerKeepsConsistent | api/chat.js:84-105 | findPartner by an unpartnered user keeps partner links symmetric and the waiter unpartnered |
| Pairing.DisconnectKeepsConsistent | api/chat.js:177-192 | disconnect always keeps partner links symmetric and the waiter unpartnered |
| Pairing.HandleKeepsConsistent | api/chat.js:59-255 | any request whose join or findPartner comes from an unpartnered user keeps the registry consistent |
| Pairing.RunKeepsConsistent | api/chat.js:59-255 | every run of such requests keeps partner links symmetric, never self-linked, and the waiter unpartnered |
| Pairing.RunKeepsCountersBounded | api/chat.js:10-34 | no run of requests lets a window count more than 50 |
| Pairing.PartneredCallerBreaksSymmetry | api/chat.js:85-104 | from a consistent registry, findPartner by a partnered A followed by findPartner by C leaves A linked to C while B is still linked to A |
| Pairing.StaleWaiterIsSkipped | api/chat.js:85 | a waiter that is no longer registered is never matched; the caller becomes the waiter and no session changes |
| Pairing.WaiterLeavesThenNextWaits | api/chat.js:85-104 | when the waiter disconnects the slot is emptied, and the next findPartner makes its caller the waiter |
| Pairing.JoinBreaksSymmetry | api/chat.js:79-82 | from a consistent registry, join by A while partnered with B gives A no partner while B still points at A |
| Pairing.TwoJoinersArePaired | api/chat.js:79-105 | two users who join and then ask for a partner in turn are linked to each other, and no one is left waiting |
| Scenarios.OfferIsDeliveredOnce | api/chat.js:79-132 | join A, join B, findPartner A (waiting), findPartner B (partnerFound A), A signals 'sdp-offer'; B's getSignals returns that one entry, then [] |
| Scenarios.OfferThroughHandler | api/chat.js:59-132 | the same conversation sent through the handler from an empty server: every request passes the userId check and the rate limit, and the answers are the same |
| Scenarios.LoneMessageIsRefused | api/chat.js:134-175 | a lone user's chat line is refused with 'No partner or user not found', and its getMessages returns [] |
| ChatServer.Registry.constructor | api/chat.js:2-6 | the server starts with no users, no waiter and no rate-limit windows |
| ChatServer.Registry.CheckRateLimit | api/chat.js:10-34 | updates the table in place and returns the verdict, exactly as RateLimit.Check |
| ChatServer.Registry.Join | api/chat.js:79-82 | updates the users map in place as Actions.Join |
| ChatServer.Registry.FindPartner | api/chat.js:84-105 | updates users and the waiting slot in place as Actions.FindPartner |
| ChatServer.Registry.Signal | api/chat.js:107-121 | appends in place as Actions.Signal |
| ChatServer.Registry.GetSignals | api/chat.js:123-132 | drains in place as Actions.GetSignals |
| ChatServer.Registry.ChatMessage | api/chat.js:134-160 | appends in place as Actions.ChatMessage |
| ChatServer.Registry.GetMessages | api/chat.js:162-175 | drains in place as Actions.GetMessages |
| ChatServer.Registry.Disconnect | api/chat.js:177-192 | notifies, clears the waiter and deletes in place as Actions.Disconnect |
| ChatServer.Registry.GetEvents | api/chat.js:194-203 | drains in place as Actions.GetEvents |
| ChatServer.Registry.BatchUpdate | api/chat.js:205-235 | drains all three queues in place as Actions.BatchUpdate, so as the three single drains in a row |
| ChatServer.Registry.DebugReport | api/chat.js:237-251 | reads the registry without changing it and reports as Actions.DebugReport |
| ChatServer.Registry.StatusReport | api/chat.js:49-56 | reads the registry without changing it: user count and 'yes'/'no' for the waiter |
| ChatServer.Registry.Handle | api/chat.js:36-263 | one handler call changes all the state exactly as Handler.Handle; every Handler, Mailboxes and Pairing lemma therefore applies to the object |

## Left out

- HTTP transport: CORS headers, the OPTIONS preflight, the 405 answer for other methods, and JSON serialisation. The response is the `Response` datatype, and `HttpStatus` gives its status code.
- `console.log` and `console.error` tracing. It only produces output, except for one read: logging `data.message` faults when `data` is missing, and the model keeps that fault.
- Wall-clock time and `toISOString` formatting. Time is the integer `now`, one per request. GET's timestamp is that integer, not an ISO string.
- The text of a 500 body. It embeds the JavaScript engine's own exception message. The model returns the kind of fault instead (`SetOnUndefined("partner")`, `ReadOfUndefined("signal")` or `ReadOfUndefined("message")`).
- Payloads are opaque strings, and a missing field is `None`. The model does not cover ids, types or data objects that are not strings or objects, such as numeric ids or a `data` that is a string. Missing or null `data` is modelled.
- Lazily created queues. An absent queue and an empty queue give the same answer to every action, so both are `[]`.
- Sessions are values in a map. The source mutates session objects in place, but nothing outside the map holds a reference to them, so no aliasing is lost.
- Concurrency and multiple workers. Each request runs atomically, as the synchronous handler body does.
- `server.js` (process bootstrap and static files) and `public/js/cookie-consent.js` (browser UI) are not part of this model.
