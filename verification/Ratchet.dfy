/** The ratchet of tintin-core/src/ratchet.rs: its operations, the closed form of every
    history of operations, and exactly which messages decrypt.
 */
module Ratchets {
  import opened Crypto

  type U32 = n: nat | n < 0x1_0000_0000

  /** `+= 1` on a u32 counter, which wraps around. */
  function Bump(n: U32): U32 {
    if n == 0xFFFF_FFFF then 0 else n + 1
  }

  /** A counter after `k` increments. */
  function BumpN(n: U32, k: nat): U32 {
    if k == 0 then n else Bump(BumpN(n, k - 1))
  }

  lemma {:induction false} BumpIsModular(x: nat)
    ensures Bump(x % 0x1_0000_0000) == (x + 1) % 0x1_0000_0000
  {
  }

  lemma {:induction false} BumpNIsModular(n: U32, k: nat)
    ensures BumpN(n, k) == (n + k) % 0x1_0000_0000
  {
    if k > 0 {
      BumpNIsModular(n, k - 1);
      BumpIsModular(n + k - 1);
    }
  }

  function Pred(n: U32): U32 {
    if n == 0 then 0xFFFF_FFFF else n - 1
  }

  datatype RatchetState = RatchetState(
    dhKey: KeyPair,
    theirKey: Key,
    rootKey: Key,
    sendChain: Key,
    recvChain: Key,
    sendNum: U32,
    recvNum: U32,
    prevSendCount: U32,
    maxSkip: U32,
    isInitiator: bool)

  datatype RatchetedMessage = RatchetedMessage(
    ratchetKey: Key,
    ciphertext: Ciphertext,
    nonce: nat,
    messageNumber: U32,
    previousCount: U32)

  function NewInitiator(sharedSecret: Key, eph: KeyPair, signedPreKey: Key): RatchetState {
    RatchetState(eph, signedPreKey,
                 RootHalf(sharedSecret, eph.PublicKey()),
                 ChainHalf(sharedSecret, eph.PublicKey()), Zero,
                 0, 0, 0, 100, true)
  }

  function NewResponder(sharedSecret: Key, ephPublic: Key, preKey: KeyPair): RatchetState {
    RatchetState(preKey, ephPublic,
                 RootHalf(sharedSecret, ephPublic),
                 Zero, ChainHalf(sharedSecret, ephPublic),
                 0, 0, 0, 100, false)
  }

  function DhStep(r: RatchetState): RatchetState {
    var dh := r.dhKey.Agree(r.theirKey);
    var chain := ChainHalf(r.rootKey, dh);
    r.(rootKey := RootHalf(r.rootKey, dh),
       sendChain := if r.isInitiator then chain else r.sendChain,
       recvChain := if r.isInitiator then r.recvChain else chain,
       sendNum := 0,
       recvNum := 0)
  }

  /** A message carrying a new ratchet key makes the receiver take a DH step first. */
  function Adopt(r: RatchetState, ratchetKey: Key): RatchetState {
    if ratchetKey != r.theirKey then DhStep(r.(theirKey := ratchetKey)) else r
  }

  function EncryptStep(r: RatchetState, plaintext: string, nonce: nat): (RatchetState, RatchetedMessage) {
    var r' := r.(sendChain := Next(r.sendChain), sendNum := Bump(r.sendNum));
    (r', RatchetedMessage(r.dhKey.PublicKey(), Encrypt(plaintext, MessageKey(r.sendChain), nonce), nonce,
                          Pred(r'.sendNum), r.prevSendCount))
  }

  function DecryptStep(r: RatchetState, m: RatchetedMessage): (RatchetState, Result<string>) {
    var a := Adopt(r, m.ratchetKey);
    (a.(recvChain := Next(a.recvChain), recvNum := Bump(a.recvNum)),
     Decrypt(m.ciphertext, MessageKey(a.recvChain), m.nonce))
  }

  /** The ratchet object, updated in place. */
  class Ratchet {
    var dhKey: KeyPair
    var theirKey: Key
    var rootKey: Key
    var sendChain: Key
    var recvChain: Key
    var sendNum: U32
    var recvNum: U32
    var prevSendCount: U32
    var maxSkip: U32
    var isInitiator: bool

    function State(): RatchetState
      reads this
    {
      RatchetState(dhKey, theirKey, rootKey, sendChain, recvChain, sendNum, recvNum,
                   prevSendCount, maxSkip, isInitiator)
    }

    constructor Initiator(sharedSecret: Key, eph: KeyPair, signedPreKey: Key)
      ensures State() == NewInitiator(sharedSecret, eph, signedPreKey)
    {
      dhKey, theirKey := eph, signedPreKey;
      rootKey := RootHalf(sharedSecret, eph.PublicKey());
      sendChain, recvChain := ChainHalf(sharedSecret, eph.PublicKey()), Zero;
      sendNum, recvNum, prevSendCount, maxSkip, isInitiator := 0, 0, 0, 100, true;
    }

    constructor Responder(sharedSecret: Key, ephPublic: Key, preKey: KeyPair)
      ensures State() == NewResponder(sharedSecret, ephPublic, preKey)
    {
      dhKey, theirKey := preKey, ephPublic;
      rootKey := RootHalf(sharedSecret, ephPublic);
      sendChain, recvChain := Zero, ChainHalf(sharedSecret, ephPublic);
      sendNum, recvNum, prevSendCount, maxSkip, isInitiator := 0, 0, 0, 100, false;
    }

    method NextSendKey() returns (key: Key)
      modifies this`sendChain, this`sendNum
      ensures key == MessageKey(old(sendChain))
      ensures sendChain == Next(old(sendChain)) && sendNum == Bump(old(sendNum))
    {
      key := MessageKey(sendChain);
      sendChain := Next(sendChain);
      sendNum := Bump(sendNum);
    }

    method NextRecvKey() returns (key: Key)
      modifies this`recvChain, this`recvNum
      ensures key == MessageKey(old(recvChain))
      ensures recvChain == Next(old(recvChain)) && recvNum == Bump(old(recvNum))
    {
      key := MessageKey(recvChain);
      recvChain := Next(recvChain);
      recvNum := Bump(recvNum);
    }

    method DhRatchetStep()
      modifies this
      ensures State() == DhStep(old(State()))
    {
      var dh := dhKey.Agree(theirKey);
      var newRoot, newChain := RootHalf(rootKey, dh), ChainHalf(rootKey, dh);
      rootKey := newRoot;
      if isInitiator {
        sendChain := newChain;
      } else {
        recvChain := newChain;
      }
      sendNum := 0;
      recvNum := 0;
    }

    method EncryptMessage(plaintext: string, nonce: nat) returns (m: RatchetedMessage)
      modifies this
      ensures (State(), m) == EncryptStep(old(State()), plaintext, nonce)
    {
      var key := NextSendKey();
      m := RatchetedMessage(dhKey.PublicKey(), Encrypt(plaintext, key, nonce), nonce, Pred(sendNum), prevSendCount);
    }

    method DecryptMessage(m: RatchetedMessage) returns (r: Result<string>)
      modifies this
      ensures (State(), r) == DecryptStep(old(State()), m)
    {
      if m.ratchetKey != theirKey {
        theirKey := m.ratchetKey;
        DhRatchetStep();
      }
      var key := NextRecvKey();
      r := Decrypt(m.ciphertext, key, m.nonce);
    }
  }

  // ── Histories ───────────────────────────────────────────────────────────

  datatype Op = Enc(plaintext: string, nonce: nat) | Dec(msg: RatchetedMessage)

  /** A sequence of calls, latest last. */
  datatype History = Start | Then(before: History, op: Op)

  function Apply(r: RatchetState, op: Op): RatchetState {
    match op
    case Enc(p, n) => EncryptStep(r, p, n).0
    case Dec(m) => DecryptStep(r, m).0
  }

  function Run(r: RatchetState, h: History): RatchetState {
    match h
    case Start => r
    case Then(b, op) => Apply(Run(r, b), op)
  }

  /** The number of encryptions in a history. */
  function Encs(h: History): nat {
    match h
    case Start => 0
    case Then(b, op) => Encs(b) + if op.Enc? then 1 else 0
  }

  /** The number of decryptions in a history. */
  function Decs(h: History): nat {
    match h
    case Start => 0
    case Then(b, op) => Decs(b) + if op.Dec? then 1 else 0
  }

  /** The ratchet key of the latest incoming message, or `first` before any came in. */
  function Latest(first: Key, h: History): Key {
    match h
    case Start => first
    case Then(b, Dec(m)) => m.ratchetKey
    case Then(b, Enc(_, _)) => Latest(first, b)
  }

  /** Does the last call of a history bring a ratchet key other than the one before it? */
  predicate ChangesKey(first: Key, h: History) {
    h.Then? && h.op.Dec? && h.op.msg.ratchetKey != Latest(first, h.before)
  }

  /** The keys the peer changed to, in order. */
  function Changes(first: Key, h: History): seq<Key> {
    match h
    case Start => []
    case Then(b, op) => if ChangesKey(first, h) then Changes(first, b) + [op.msg.ratchetKey] else Changes(first, b)
  }

  /** The part of a history from its last key change on; all of it when the key never changes. */
  function SinceChange(first: Key, h: History): History {
    match h
    case Start => Start
    case Then(b, op) => Then(if ChangesKey(first, h) then Start else SinceChange(first, b), op)
  }

  /** The root key after agreeing with each key of `keys` in turn. */
  function RootFold(root: Key, dh: KeyPair, keys: seq<Key>): Key {
    if keys == [] then root
    else RootHalf(RootFold(root, dh, keys[..|keys| - 1]), dh.Agree(keys[|keys| - 1]))
  }

  /** Where the chain renewed by DH steps stands: its start, or its restart at the last change. */
  function ChainStart(start: Key, root: Key, dh: KeyPair, keys: seq<Key>): Key {
    if keys == [] then start
    else ChainHalf(RootFold(root, dh, keys[..|keys| - 1]), dh.Agree(keys[|keys| - 1]))
  }

  /** The state a history leads to, computed from counts and key changes alone. */
  function ClosedForm(r: RatchetState, h: History): RatchetState {
    var changes, recent := Changes(r.theirKey, h), SinceChange(r.theirKey, h);
    var steady := changes == [];
    r.(theirKey := Latest(r.theirKey, h),
       rootKey := RootFold(r.rootKey, r.dhKey, changes),
       sendChain := if r.isInitiator
                    then NextN(ChainStart(r.sendChain, r.rootKey, r.dhKey, changes), Encs(recent))
                    else NextN(r.sendChain, Encs(h)),
       recvChain := if r.isInitiator
                    then NextN(r.recvChain, Decs(h))
                    else NextN(ChainStart(r.recvChain, r.rootKey, r.dhKey, changes), Decs(recent)),
       sendNum := BumpN(if steady then r.sendNum else 0, Encs(recent)),
       recvNum := BumpN(if steady then r.recvNum else 0, Decs(recent)))
  }

  lemma {:induction false} RootFoldSnoc(start: Key, root: Key, dh: KeyPair, keys: seq<Key>, key: Key)
    ensures RootFold(root, dh, keys + [key]) == RootHalf(RootFold(root, dh, keys), dh.Agree(key))
    ensures ChainStart(start, root, dh, keys + [key]) == ChainHalf(RootFold(root, dh, keys), dh.Agree(key))
  {
    assert (keys + [key])[..|keys|] == keys;
  }

  lemma {:induction false} ClosedFormNewKey(r: RatchetState, h: History)
    requires ChangesKey(r.theirKey, h)
    ensures Apply(ClosedForm(r, h.before), h.op) == ClosedForm(r, h)
  {
    var keys, key := Changes(r.theirKey, h.before), h.op.msg.ratchetKey;
    var start := if r.isInitiator then r.sendChain else r.recvChain;
    RootFoldSnoc(start, r.rootKey, r.dhKey, keys, key);
    assert SinceChange(r.theirKey, h) == Then(Start, h.op);
    assert Encs(Then(Start, h.op)) == 0 && Decs(Then(Start, h.op)) == 1;
    var chain := ChainHalf(RootFold(r.rootKey, r.dhKey, keys), r.dhKey.Agree(key));
    assert NextN(chain, 0) == chain && NextN(chain, 1) == Next(chain);
    assert BumpN(0, 0) == 0 && BumpN(0, 1) == 1;
  }

  /** Every history of encryptions and decryptions, with any incoming ratchet keys. */
  lemma {:induction false} HistoryClosedForm(r: RatchetState, h: History)
    ensures Run(r, h) == ClosedForm(r, h)
  {
    if h.Then? {
      HistoryClosedForm(r, h.before);
      if ChangesKey(r.theirKey, h) {
        ClosedFormNewKey(r, h);
      }
    }
  }

  /** The message an encryption produces after any history: the own ratchet key, the plaintext under
      the message key of the send chain's place and the drawn nonce, the number of messages sent
      since the last key change, and the previous count, which is never set. */
  lemma {:induction false} MessageExactly(r: RatchetState, h: History, plaintext: string, nonce: nat)
    ensures EncryptStep(Run(r, h), plaintext, nonce).1 ==
            RatchetedMessage(r.dhKey.PublicKey(), Sealed(MessageKey(ClosedForm(r, h).sendChain), nonce, plaintext),
                             nonce, ClosedForm(r, h).sendNum, r.prevSendCount)
  {
    HistoryClosedForm(r, h);
  }

  /** The result of a decryption after any history: the plaintext, if the message is sealed under the
      message key of the receive chain's place, the message's own key change included, and its nonce. */
  lemma {:induction false} ResultExactly(r: RatchetState, h: History, m: RatchetedMessage)
    ensures var after := ClosedForm(r, Then(h, Dec(m))).recvChain;
      && after.Next?
      && DecryptStep(Run(r, h), m).1 == if m.ciphertext.key == MessageKey(after.chain) && m.ciphertext.nonce == m.nonce
                                        then Ok(m.ciphertext.plaintext) else Err
  {
    HistoryClosedForm(r, Then(h, Dec(m)));
  }

  /** The same kinds of call in the same order, with the same incoming ratchet keys. */
  predicate SameShape(h: History, h': History) {
    match (h, h')
    case (Start, Start) => true
    case (Then(b, Enc(_, _)), Then(b', Enc(_, _))) => SameShape(b, b')
    case (Then(b, Dec(m)), Then(b', Dec(m'))) => m.ratchetKey == m'.ratchetKey && SameShape(b, b')
    case _ => false
  }

  /** What a history does to the state depends on its shape only: not on plaintexts,
      ciphertexts, or whether decryption succeeded. */
  lemma {:induction false} OutcomeIndependent(r: RatchetState, h: History, h': History)
    requires SameShape(h, h')
    ensures Run(r, h) == Run(r, h')
  {
    if h.Then? {
      OutcomeIndependent(r, h.before, h'.before);
    }
  }

  // ── Which messages decrypt ──────────────────────────────────────────────

  /** The messages a history of calls produces, in order. */
  function Produced(r: RatchetState, h: History): seq<RatchetedMessage> {
    match h
    case Start => []
    case Then(b, Enc(p, n)) => Produced(r, b) + [EncryptStep(Run(r, b), p, n).1]
    case Then(b, Dec(_)) => Produced(r, b)
  }

  /** The plaintexts a history encrypts, in order. */
  function Plaintexts(h: History): seq<string> {
    match h
    case Start => []
    case Then(b, Enc(p, _)) => Plaintexts(b) + [p]
    case Then(b, Dec(_)) => Plaintexts(b)
  }

  /** The messages a history presents for decryption, in order. */
  function Presented(h: History): seq<RatchetedMessage> {
    match h
    case Start => []
    case Then(b, Enc(_, _)) => Presented(b)
    case Then(b, Dec(m)) => Presented(b) + [m]
  }

  /** The results of the decrypt calls of a history, in order. */
  function Results(r: RatchetState, h: History): seq<Result<string>> {
    match h
    case Start => []
    case Then(b, Enc(_, _)) => Results(r, b)
    case Then(b, Dec(m)) => Results(r, b) + [DecryptStep(Run(r, b), m).1]
  }

  /** Every message decrypted in `h` carries the ratchet key `key`. */
  predicate OnlyFrom(key: Key, h: History) {
    h.Then? ==> (h.op.Dec? ==> h.op.msg.ratchetKey == key) && OnlyFrom(key, h.before)
  }

  /** Without a key change both chains just advance, once per call. */
  lemma {:induction false} SteadyRun(r: RatchetState, h: History)
    requires OnlyFrom(r.theirKey, h)
    ensures Run(r, h) == r.(sendChain := NextN(r.sendChain, Encs(h)), recvChain := NextN(r.recvChain, Decs(h)),
                            sendNum := BumpN(r.sendNum, Encs(h)), recvNum := BumpN(r.recvNum, Decs(h)))
    ensures |Produced(r, h)| == |Plaintexts(h)| == Encs(h)
    ensures |Results(r, h)| == |Presented(h)| == Decs(h)
  {
    if h.Then? {
      SteadyRun(r, h.before);
    }
  }

  /** The i-th message a steady sender produces is sealed under the i-th key of its send chain. */
  lemma {:induction false} ProducedAt(r: RatchetState, h: History, i: nat)
    requires OnlyFrom(r.theirKey, h)
    requires i < Encs(h)
    ensures |Produced(r, h)| == |Plaintexts(h)| == Encs(h)
    ensures var m := Produced(r, h)[i];
      && m.ratchetKey == r.dhKey.PublicKey()
      && m.ciphertext == Sealed(MessageKey(NextN(r.sendChain, i)), m.nonce, Plaintexts(h)[i])
  {
    SteadyRun(r, h.before);
    if i < Encs(h.before) {
      ProducedAt(r, h.before, i);
    }
  }

  /** The k-th decrypt call of a steady receiver uses the k-th key of its receive chain. */
  lemma {:induction false} ResultAt(r: RatchetState, h: History, k: nat)
    requires OnlyFrom(r.theirKey, h)
    requires k < Decs(h)
    ensures |Results(r, h)| == |Presented(h)| == Decs(h)
    ensures var m := Presented(h)[k];
      Results(r, h)[k] == Decrypt(m.ciphertext, MessageKey(NextN(r.recvChain, k)), m.nonce)
  {
    SteadyRun(r, h.before);
    if k < Decs(h.before) {
      ResultAt(r, h.before, k);
    }
  }

  /** The two ends of one direction: the receiver listens on the sender's chain and key. */
  predicate Facing(sender: RatchetState, receiver: RatchetState) {
    && sender.sendChain == receiver.recvChain
    && sender.dhKey.PublicKey() == receiver.theirKey
  }

  /** The own key pair never changes, so all messages a ratchet produces carry one ratchet key. */
  lemma {:induction false} ProducedKey(r: RatchetState, h: History)
    ensures Run(r, h).dhKey == r.dhKey
    ensures forall i :: 0 <= i < |Produced(r, h)| ==> Produced(r, h)[i].ratchetKey == r.dhKey.PublicKey()
  {
    if h.Then? {
      ProducedKey(r, h.before);
    }
  }

  /** A receiver shown nothing but the sender's messages hears one ratchet key. */
  lemma {:induction false} HearsSender(sender: RatchetState, sh: History, rh: History)
    requires forall m :: m in Presented(rh) ==> m in Produced(sender, sh)
    ensures OnlyFrom(sender.dhKey.PublicKey(), rh)
  {
    if rh.Then? {
      assert forall m :: m in Presented(rh.before) ==> m in Presented(rh);
      HearsSender(sender, sh, rh.before);
      if rh.op.Dec? {
        assert rh.op.msg in Presented(rh) && rh.op.msg in Produced(sender, sh);
        ProducedKey(sender, sh);
      }
    }
  }

  /** The sender runs any history in which it hears nothing but its peer's key; the receiver
      runs any history that presents messages of the sender lost, repeated and reordered at
      will.  The k-th decrypt call succeeds if and only if it is given the sender's k-th
      message, and then it returns that message's plaintext. */
  lemma {:induction false} ExactSuccess(sender: RatchetState, sh: History, receiver: RatchetState, rh: History, k: nat)
    requires Facing(sender, receiver)
    requires OnlyFrom(sender.theirKey, sh)
    requires forall m :: m in Presented(rh) ==> m in Produced(sender, sh)
    requires k < |Presented(rh)|
    ensures |Results(receiver, rh)| == |Presented(rh)|
    ensures |Plaintexts(sh)| == |Produced(sender, sh)|
    ensures Results(receiver, rh)[k].Ok? <==>
            k < |Produced(sender, sh)| && Presented(rh)[k] == Produced(sender, sh)[k]
    ensures Results(receiver, rh)[k].Ok? ==> Results(receiver, rh)[k] == Ok(Plaintexts(sh)[k])
  {
    HearsSender(sender, sh, rh);
    SteadyRun(sender, sh);
    SteadyRun(receiver, rh);
    ResultAt(receiver, rh, k);
    assert Presented(rh)[k] in Produced(sender, sh);
    var m := Presented(rh)[k];
    var j :| 0 <= j < |Produced(sender, sh)| && Produced(sender, sh)[j] == m;
    ProducedAt(sender, sh, j);
    NextNInjective(sender.sendChain, j, k);
    if k < |Produced(sender, sh)| {
      ProducedAt(sender, sh, k);
    }
  }

  /** A whole lossy conversation: two ratchets that face each other both ways run any histories in
      which each is shown only messages the other produced, lost, repeated and reordered at will.
      The k-th decrypt call of either succeeds if and only if it is given the other's k-th message,
      and then it returns that message's plaintext. */
  lemma {:induction false} ConversationExact(a: RatchetState, ah: History, b: RatchetState, bh: History, k: nat)
    requires Facing(a, b) && Facing(b, a)
    requires forall m :: m in Presented(ah) ==> m in Produced(b, bh)
    requires forall m :: m in Presented(bh) ==> m in Produced(a, ah)
    requires k < |Presented(bh)|
    ensures |Results(b, bh)| == |Presented(bh)| && |Plaintexts(ah)| == |Produced(a, ah)|
    ensures Results(b, bh)[k].Ok? <==> k < |Produced(a, ah)| && Presented(bh)[k] == Produced(a, ah)[k]
    ensures Results(b, bh)[k].Ok? ==> Results(b, bh)[k] == Ok(Plaintexts(ah)[k])
  {
    HearsSender(b, bh, ah);
    ExactSuccess(a, ah, b, bh, k);
  }

  /** A fresh initiator and responder face each other in both directions, and agree on the root. */
  lemma {:induction false} FreshPairFaces(eph: KeyPair, preKey: KeyPair)
    ensures var a := NewInitiator(eph.Agree(preKey.PublicKey()), eph, preKey.PublicKey());
            var b := NewResponder(preKey.Agree(eph.PublicKey()), eph.PublicKey(), preKey);
            Facing(a, b) && Facing(b, a) && a.rootKey == b.rootKey
  {
    AgreeCommutes(eph, preKey);
  }
}
