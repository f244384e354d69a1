/**
 * The values the chat relay stores and answers with: a session per joined
 * user, its three mailboxes, the registry of sessions with its single
 * waiting slot, and the JSON-like responses of the request handler.
 */
module ChatTypes {

  datatype Option<+T> = None | Some(value: T)

  /** A client payload (an SDP offer, an ICE candidate, a chat line); the relay never looks inside it. */
  type Blob = string

  /**
   * The `data` object of a POST body. A field the client left out is `None`
   * (JavaScript `undefined`), and is stored as such.
   */
  datatype Data = Data(signal: Option<Blob>, message: Option<Blob>)

  datatype SignalItem = SignalItem(from: string, signal: Option<Blob>, timestamp: int)
  datatype MessageItem = MessageItem(from: string, message: Option<Blob>, timestamp: int)

  /** The only lifecycle event the relay emits. */
  datatype EventKind = PartnerDisconnected
  datatype EventItem = EventItem(kind: EventKind, timestamp: int)

  /**
   * One joined user. The three queues are created lazily in the source;
   * an absent queue and an empty one answer every action alike, so both are `[]` here.
   */
  datatype Session = Session(
    partner: Option<string>,
    lastSeen: int,
    signals: seq<SignalItem>,
    messages: seq<MessageItem>,
    events: seq<EventItem>)

  /** The `users` map and the `waitingUser` slot. */
  datatype Pool = Pool(users: map<string, Session>, waiting: Option<string>)

  /** The JavaScript exception an action raises; the handler turns it into a 500. */
  datatype Fault =
    | SetOnUndefined(property: string)   // `undefined.partner = ...`
    | ReadOfUndefined(property: string)  // `undefined.signal`, `undefined.message`

  datatype DebugInfo = DebugInfo(
    userId: string,
    userExists: bool,
    partner: Option<string>,
    partnerExists: bool,
    messageCount: nat,
    signalCount: nat,
    totalUsers: nat,
    waitingUser: Option<string>)

  /** The body of a response; `HttpStatus` gives its status code. */
  datatype Response =
    | Status(users: nat, waitingUser: string, timestamp: int)
    | Ok                                   // { success: true }
    | PartnerFound(partner: string)        // { success: true, partner, action: 'partnerFound' }
    | Waiting                              // { success: true, action: 'waiting' }
    | MessageQueued                        // { success: true, messageQueued: true }
    | Failed(error: string)                // { success: false, error }
    | Signals(signals: seq<SignalItem>)
    | Messages(messages: seq<MessageItem>)
    | Events(events: seq<EventItem>)
    | Batch(batchSignals: seq<SignalItem>, batchMessages: seq<MessageItem>, batchEvents: seq<EventItem>)
    | Debug(info: DebugInfo)
    | BadRequest(error: string)            // 400
    | TooManyRequests(error: string, retryAfter: int)  // 429
    | InternalError(fault: Fault)          // 500

  function HttpStatus(r: Response): (code: int)
    ensures code in {200, 400, 429, 500}
    ensures code == 400 <==> r.BadRequest?
    ensures code == 429 <==> r.TooManyRequests?
    ensures code == 500 <==> r.InternalError?
    ensures code == 200 <==> !(r.BadRequest? || r.TooManyRequests? || r.InternalError?)
  {
    match r
    case BadRequest(_) => 400
    case TooManyRequests(_, _) => 429
    case InternalError(_) => 500
    case _ => 200
  }
}
