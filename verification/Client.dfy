/** The messaging part of the command-line client (tintin-cli/src/main.rs): sending, and
    handling one fetched envelope.
 */
module Clients {
  import opened Crypto
  import opened Sessions
  import opened Relays

  datatype Status = Sent | Delivered | Read

  datatype SentMessage = SentMessage(recipient: User, text: string, timestamp: nat, status: Status)

  datatype ClientState = ClientState(
    user: User,
    identity: KeyPair,
    preKey: KeyPair,
    sessions: map<Address, Session>,
    sent: seq<SentMessage>)

  /** The public keys the relay hands out for a registered user. */
  datatype Bundle = Bundle(identityKey: Key, signedPreKey: Key)

  /** What handling an envelope shows the user. */
  datatype Event =
    | Queued(from: User, to: User, text: string, timestamp: nat)         // a chat message was accepted by the relay
    | Fetched(from: User, to: User, timestamp: nat)                      // ... was handed to its recipient
    | Opened(from: User, to: User, timestamp: nat, result: Result<string>, stepped: bool)  // ... went through decrypt
    | Filed(user: User, timestamp: nat, content: Body)                   // a Normal message to oneself, shown as it is
    | Acked(from: User, to: User, timestamp: nat, kind: ReceiptKind)     // a receipt was applied
    | Dropped(from: User, to: User, timestamp: nat)                      // chat without a session or of the wrong form
    | Ignored                                                            // a type this client does not show

  /** Encrypt for a user, starting a session first if there is none. */
  function Seal(c: ClientState, v: User, bundle: Option<Bundle>, payload: string, eph: KeyPair, nonce: nat)
    : Result<(ClientState, Body)>
  {
    if (v, 1) in c.sessions then
      var (s, m) := SessionEncrypt(c.sessions[(v, 1)], payload, nonce);
      Ok((c.(sessions := c.sessions[(v, 1) := s]), Sealing(m)))
    else
      match bundle
      case None => Err
      case Some(b) =>
        var started := InitiatorSession(c.identity, v, 1, b.identityKey, b.signedPreKey, eph);
        var (s, m) := SessionEncrypt(started, payload, nonce);
        Ok((c.(sessions := c.sessions[(v, 1) := s]),
            PreKeyed(c.identity.PublicKey(), s.ratchet.dhKey.PublicKey(), m)))
  }

  /** Encrypt a payload and queue it: one message of a chat, of a group or channel fan-out, or
      one chunk of a file.  A failed key lookup changes nothing. */
  function Push(c: ClientState, r: RelayState, v: User, bundle: Option<Bundle>, payload: string, ts: nat,
                eph: KeyPair, nonce: nat): (ClientState, RelayState, bool)
  {
    match Seal(c, v, bundle, payload, eph, nonce)
    case Err => (c, r, false)
    case Ok((c', body)) => (c', Queue(r, Envelope(c.user, v, 1, ts, body)), true)
  }

  /** `send_message`: messages to oneself go out in the clear; what went out is recorded. */
  function SendMessage(c: ClientState, r: RelayState, v: User, bundle: Option<Bundle>, text: string, ts: nat,
                       eph: KeyPair, nonce: nat): (ClientState, RelayState, bool)
  {
    var (c', r', ok) :=
      if v == c.user then (c, Queue(r, Envelope(c.user, v, 1, ts, Saved(text))), true)
      else Push(c, r, v, bundle, text, ts, eph, nonce);
    (if ok then c'.(sent := c'.sent + [SentMessage(v, text, ts, Sent)]) else c', r', ok)
  }

  function ReadReceipt(u: User, e: Envelope, now: nat): Envelope {
    Envelope(u, e.sender, 1, now, Receipting(Reading, e.sender, e.timestamp))
  }

  /** Set the status of the first record with the given recipient and timestamp. */
  function Mark(sent: seq<SentMessage>, v: User, ts: nat, status: Status): seq<SentMessage> {
    if sent == [] then []
    else if sent[0].recipient == v && sent[0].timestamp == ts then [sent[0].(status := status)] + sent[1..]
    else [sent[0]] + Mark(sent[1..], v, ts, status)
  }

  function StatusFor(kind: ReceiptKind): Status {
    match kind
    case Delivery => Delivered
    case Reading => Read
  }

  /** A session message goes through a session: the session advances whatever the outcome, and
      a success is answered with a read receipt. */
  function Through(c: ClientState, r: RelayState, e: Envelope, s: Session, m: SessionMessage, now: nat)
    : (Session, RelayState, Event)
  {
    var (s', result) := SessionDecrypt(s, m);
    (s', if result.Ok? then Queue(r, ReadReceipt(c.user, e, now)) else r,
     Opened(e.sender, c.user, e.timestamp, result, m.ratchetKey != s.ratchet.theirKey))
  }

  /** One iteration of the loop in `receive_messages`. */
  function Handle(c: ClientState, r: RelayState, e: Envelope, now: nat): (ClientState, RelayState, Event) {
    var dropped := Dropped(e.sender, c.user, e.timestamp);
    match e.body
    case PreKeyed(identityKey, baseKey, m) =>
      var s := ResponderSession(c.identity, e.sender, e.device, identityKey, baseKey, c.preKey);
      var (s', r', event) := Through(c, r, e, s, m, now);
      (if event.result.Ok? then c.(sessions := c.sessions[(e.sender, e.device) := s']) else c, r', event)
    case Sealing(m) =>
      if e.sender == c.user then (c, r, Filed(c.user, e.timestamp, e.body))
      else if (e.sender, 1) !in c.sessions then (c, r, dropped)
      else
        var (s', r', event) := Through(c, r, e, c.sessions[(e.sender, 1)], m, now);
        (c.(sessions := c.sessions[(e.sender, 1) := s']), r', event)
    case Saved(_) =>
      (c, r, if e.sender == c.user then Filed(c.user, e.timestamp, e.body) else dropped)
    case Receipting(kind, _, ts) =>
      (c.(sent := Mark(c.sent, e.sender, ts, StatusFor(kind))), r, Acked(e.sender, c.user, ts, kind))
    case TypingNotice =>
      (c, r, Ignored)
  }
}
