/** Saving and loading sessions (the serde forms in tintin-core/src/session.rs, ratchet.rs and
    keys.rs), on the level of bytes: secrets are hexadecimal strings, public keys byte arrays.
 */
module Persistence {
  import opened Crypto
  import opened Hex
  import opened Ratchets
  import opened Sessions

  type Bytes32 = b: seq<Byte> | |b| == 32 witness seq(32, _ => 0)

  datatype KeyRecord = KeyRecord(secret: Bytes32, pub: Bytes32)

  datatype RatchetRecord = RatchetRecord(
    dhKey: KeyRecord,
    theirKey: Bytes32,
    rootKey: Bytes32,
    sendChain: Bytes32,
    recvChain: Bytes32,
    sendNum: U32,
    recvNum: U32,
    prevSendCount: U32,
    maxSkip: U32,
    isInitiator: bool)

  datatype SessionRecord = SessionRecord(
    remoteUser: string,
    remoteDevice: U32,
    role: Role,
    ourIdentity: KeyRecord,
    theirIdentity: Bytes32,
    ratchet: RatchetRecord,
    version: Byte)

  // ── The saved form ──────────────────────────────────────────────────────

  datatype SavedKey = SavedKey(secret: string, pub: seq<Byte>)

  datatype SavedRatchet = SavedRatchet(
    dhKey: SavedKey,
    theirKey: seq<Byte>,
    rootKey: string,
    sendChain: string,
    recvChain: string,
    sendNum: U32,
    recvNum: U32,
    prevSendCount: U32,
    maxSkip: U32,
    isInitiator: bool)

  datatype SavedSession = SavedSession(
    remoteUser: string,
    remoteDevice: U32,
    role: Role,
    ourIdentity: SavedKey,
    theirIdentity: seq<Byte>,
    ratchet: SavedRatchet,
    version: Byte)

  function SaveKey(k: KeyRecord): SavedKey {
    SavedKey(Encode(k.secret), k.pub)
  }

  function SaveRatchet(r: RatchetRecord): SavedRatchet {
    SavedRatchet(SaveKey(r.dhKey), r.theirKey, Encode(r.rootKey), Encode(r.sendChain), Encode(r.recvChain),
                 r.sendNum, r.recvNum, r.prevSendCount, r.maxSkip, r.isInitiator)
  }

  function Save(s: SessionRecord): SavedSession {
    SavedSession(s.remoteUser, s.remoteDevice, s.role, SaveKey(s.ourIdentity), s.theirIdentity,
                 SaveRatchet(s.ratchet), s.version)
  }

  /** A byte array of the right length. */
  function LoadArray(b: seq<Byte>): Option<Bytes32> {
    if |b| == 32 then Some(b) else None
  }

  function LoadSecret(s: string): (k: Option<Bytes32>)
    ensures k == DecodeKey(s)
  {
    DecodedLength(s);
    match DecodeKey(s)
    case Some(b) => Some(b)
    case None => None
  }

  lemma {:induction false} DecodedLength(s: string)
    ensures Decode(s).Some? ==> |Decode(s).value| * 2 == |s|
  {
    if |s| >= 2 {
      DecodedLength(s[2..]);
    }
  }

  function LoadKey(k: SavedKey): Option<KeyRecord> {
    match (LoadSecret(k.secret), LoadArray(k.pub))
    case (Some(secret), Some(pub)) => Some(KeyRecord(secret, pub))
    case _ => None
  }

  /** Loading fails if any part does. */
  function LoadRatchet(r: SavedRatchet): Option<RatchetRecord> {
    match (LoadKey(r.dhKey), LoadArray(r.theirKey), LoadSecret(r.rootKey), LoadSecret(r.sendChain),
           LoadSecret(r.recvChain))
    case (Some(dhKey), Some(theirKey), Some(rootKey), Some(sendChain), Some(recvChain)) =>
      Some(RatchetRecord(dhKey, theirKey, rootKey, sendChain, recvChain, r.sendNum, r.recvNum, r.prevSendCount,
                         r.maxSkip, r.isInitiator))
    case _ => None
  }

  function Load(s: SavedSession): Option<SessionRecord> {
    match (LoadKey(s.ourIdentity), LoadArray(s.theirIdentity), LoadRatchet(s.ratchet))
    case (Some(ours), Some(theirs), Some(ratchet)) =>
      Some(SessionRecord(s.remoteUser, s.remoteDevice, s.role, ours, theirs, ratchet, s.version))
    case _ => None
  }

  lemma {:induction false} KeyComesBack(k: KeyRecord)
    ensures LoadKey(SaveKey(k)) == Some(k)
  {
    KeyRoundTrip(k.secret);
  }

  lemma {:induction false} RatchetComesBack(r: RatchetRecord)
    ensures LoadRatchet(SaveRatchet(r)) == Some(r)
  {
    KeyComesBack(r.dhKey);
    KeyRoundTrip(r.rootKey);
    KeyRoundTrip(r.sendChain);
    KeyRoundTrip(r.recvChain);
  }

  /** A saved session loads as itself. */
  lemma {:induction false} SessionComesBack(s: SessionRecord)
    ensures Load(Save(s)) == Some(s)
  {
    KeyComesBack(s.ourIdentity);
    RatchetComesBack(s.ratchet);
  }

  // ── The ratchet on bytes ────────────────────────────────────────────────

  /** The cryptographic primitives, whatever they compute. */
  datatype Primitives = Primitives(
    agree: (Bytes32, Bytes32) -> Bytes32,                              // our secret, their public key
    derive: (Bytes32, Bytes32) -> (Bytes32, Bytes32),                  // the two halves of the HKDF output
    next: Bytes32 -> Bytes32,
    messageKey: Bytes32 -> Bytes32,
    lock: (seq<Byte>, Bytes32, seq<Byte>) -> seq<Byte>,                // plaintext, key, nonce
    unlock: (seq<Byte>, Bytes32, seq<Byte>) -> Option<seq<Byte>>)

  datatype MessageRecord = MessageRecord(ratchetKey: Bytes32, ciphertext: seq<Byte>, nonce: seq<Byte>, number: U32)

  datatype Call = Encrypting(plaintext: seq<Byte>, nonce: seq<Byte>) | Decrypting(message: MessageRecord)

  datatype Reply = Encrypted(message: MessageRecord) | Decrypted(plaintext: Option<seq<Byte>>)

  function DhStepBytes(p: Primitives, r: RatchetRecord): RatchetRecord {
    var (root, chain) := p.derive(r.rootKey, p.agree(r.dhKey.secret, r.theirKey));
    r.(rootKey := root,
       sendChain := if r.isInitiator then chain else r.sendChain,
       recvChain := if r.isInitiator then r.recvChain else chain,
       sendNum := 0,
       recvNum := 0)
  }

  function AdoptBytes(p: Primitives, r: RatchetRecord, key: Bytes32): RatchetRecord {
    if key != r.theirKey then DhStepBytes(p, r.(theirKey := key)) else r
  }

  function CallRatchet(p: Primitives, r: RatchetRecord, call: Call): (RatchetRecord, Reply) {
    match call
    case Encrypting(plaintext, nonce) =>
      var r' := r.(sendChain := p.next(r.sendChain), sendNum := Bump(r.sendNum));
      (r', Encrypted(MessageRecord(r.dhKey.pub, p.lock(plaintext, p.messageKey(r.sendChain), nonce), nonce,
                                   Pred(r'.sendNum))))
    case Decrypting(m) =>
      var a := AdoptBytes(p, r, m.ratchetKey);
      (a.(recvChain := p.next(a.recvChain), recvNum := Bump(a.recvNum)),
       Decrypted(p.unlock(m.ciphertext, p.messageKey(a.recvChain), m.nonce)))
  }

  /** `Session::encrypt` and `Session::decrypt`. */
  function CallSession(p: Primitives, s: SessionRecord, call: Call): (SessionRecord, Reply) {
    var (r, reply) := CallRatchet(p, s.ratchet, call);
    (s.(ratchet := r), reply)
  }

  /** The bytes that symbolic keys stand for. */
  datatype Meaning = Meaning(key: Key -> Bytes32, secret: nat -> Bytes32)

  /** Bytes computed by the primitives as the symbolic keys say. */
  ghost predicate Agrees(p: Primitives, m: Meaning) {
    && (forall k: KeyPair, their: Key ::
          m.key(k.Agree(their)) == p.agree(m.secret(k.secret), m.key(their)))
    && (forall a, b ::
          p.derive(m.key(a), m.key(b)) == (m.key(RootHalf(a, b)), m.key(ChainHalf(a, b))))
    && (forall a :: m.key(Next(a)) == p.next(m.key(a)))
    && (forall a :: m.key(MessageKey(a)) == p.messageKey(m.key(a)))
  }

  function RecordOf(m: Meaning, r: RatchetState): RatchetRecord {
    RatchetRecord(KeyRecord(m.secret(r.dhKey.secret), m.key(r.dhKey.PublicKey())), m.key(r.theirKey), m.key(r.rootKey),
                  m.key(r.sendChain), m.key(r.recvChain), r.sendNum, r.recvNum, r.prevSendCount, r.maxSkip,
                  r.isInitiator)
  }

  /** Encryption on bytes: the record and the key used are those of the symbolic ratchet. */
  lemma {:induction false} EncryptsAlike(p: Primitives, m: Meaning, r: RatchetState, text: string, n: nat,
                                         plaintext: seq<Byte>, nonce: seq<Byte>)
    requires Agrees(p, m)
    ensures var (r', msg) := EncryptStep(r, text, n);
      CallRatchet(p, RecordOf(m, r), Encrypting(plaintext, nonce)) ==
      (RecordOf(m, r'),
       Encrypted(MessageRecord(m.key(msg.ratchetKey), p.lock(plaintext, m.key(msg.ciphertext.key), nonce), nonce,
                               msg.messageNumber)))
  {
    var k := r.sendChain;
    assert m.key(Next(k)) == p.next(m.key(k)) && m.key(MessageKey(k)) == p.messageKey(m.key(k));
  }

  lemma {:induction false} DhStepsAlike(p: Primitives, m: Meaning, r: RatchetState)
    requires Agrees(p, m)
    ensures DhStepBytes(p, RecordOf(m, r)) == RecordOf(m, DhStep(r))
  {
    var dh := r.dhKey.Agree(r.theirKey);
    assert m.key(dh) == p.agree(m.secret(r.dhKey.secret), m.key(r.theirKey));
    assert p.derive(m.key(r.rootKey), m.key(dh)) == (m.key(RootHalf(r.rootKey, dh)), m.key(ChainHalf(r.rootKey, dh)));
  }

  /** Decryption on bytes: the record and the key tried are those of the symbolic ratchet, as long as
      different ratchet keys have different bytes. */
  lemma {:induction false} DecryptsAlike(p: Primitives, m: Meaning, r: RatchetState, msg: RatchetedMessage,
                                         ciphertext: seq<Byte>, nonce: seq<Byte>)
    requires Agrees(p, m) && (m.key(msg.ratchetKey) == m.key(r.theirKey) ==> msg.ratchetKey == r.theirKey)
    ensures var (r', _) := DecryptStep(r, msg);
      CallRatchet(p, RecordOf(m, r),
                  Decrypting(MessageRecord(m.key(msg.ratchetKey), ciphertext, nonce, msg.messageNumber))) ==
      (RecordOf(m, r'), Decrypted(p.unlock(ciphertext, m.key(MessageKey(Adopt(r, msg.ratchetKey).recvChain)), nonce)))
  {
    var a := Adopt(r, msg.ratchetKey);
    DhStepsAlike(p, m, r.(theirKey := msg.ratchetKey));
    assert AdoptBytes(p, RecordOf(m, r), m.key(msg.ratchetKey)) == RecordOf(m, a);
    assert m.key(Next(a.recvChain)) == p.next(m.key(a.recvChain));
    assert m.key(MessageKey(a.recvChain)) == p.messageKey(m.key(a.recvChain));
  }

  // ── Runs with reloads ───────────────────────────────────────────────────

  /** A run of session calls, with reloads between them. */
  datatype Run = Begin | Do(before: Run, call: Call) | Reload(before: Run)

  /** The same calls without the reloads. */
  function Steady(r: Run): Run {
    match r
    case Begin => Begin
    case Do(before, call) => Do(Steady(before), call)
    case Reload(before) => Steady(before)
  }

  /** The session and all replies after a run, or nothing if a load failed. */
  function Execute(p: Primitives, start: SessionRecord, r: Run): Option<(SessionRecord, seq<Reply>)> {
    match r
    case Begin => Some((start, []))
    case Do(before, call) =>
      (match Execute(p, start, before)
       case None => None
       case Some((s, replies)) => Some((CallSession(p, s, call).0, replies + [CallSession(p, s, call).1])))
    case Reload(before) =>
      (match Execute(p, start, before)
       case None => None
       case Some((s, replies)) =>
         match Load(Save(s))
         case None => None
         case Some(s') => Some((s', replies)))
  }

  /** Reloads between any encryptions and decryptions of any run never fail and change no ciphertext,
      no plaintext, no counter and no key, whatever the primitives compute. */
  lemma {:induction false} ReloadsAreInvisible(p: Primitives, start: SessionRecord, r: Run)
    ensures Execute(p, start, r).Some?
    ensures Execute(p, start, r) == Execute(p, start, Steady(r))
  {
    match r
    case Begin =>
    case Do(before, call) =>
      ReloadsAreInvisible(p, start, before);
    case Reload(before) =>
      ReloadsAreInvisible(p, start, before);
      SessionComesBack(Execute(p, start, before).value.0);
  }
}
