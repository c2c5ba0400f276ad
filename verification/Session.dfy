/** Sessions and the session store of tintin-core/src/session.rs. */
module Sessions {
  import opened Crypto
  import opened Ratchets

  const PROTOCOL_VERSION := 1

  type User = string

  datatype Role = Initiator | Responder

  datatype Session = Session(
    remoteUser: User,
    remoteDevice: U32,
    role: Role,
    ourIdentity: KeyPair,
    theirIdentity: Key,
    ratchet: RatchetState,
    version: nat)

  datatype SessionMessage = SessionMessage(
    version: nat,
    ciphertext: Ciphertext,
    nonce: nat,
    ratchetKey: Key,
    messageNumber: U32)

  function InitiatorSession(identity: KeyPair, user: User, device: U32, theirIdentity: Key, signedPreKey: Key,
                            eph: KeyPair): Session
  {
    Session(user, device, Initiator, identity, theirIdentity,
            NewInitiator(eph.Agree(signedPreKey), eph, signedPreKey), PROTOCOL_VERSION)
  }

  function ResponderSession(identity: KeyPair, user: User, device: U32, theirIdentity: Key, ephPublic: Key,
                            preKey: KeyPair): Session
  {
    Session(user, device, Responder, identity, theirIdentity,
            NewResponder(preKey.Agree(ephPublic), ephPublic, preKey), PROTOCOL_VERSION)
  }

  function SessionEncrypt(s: Session, plaintext: string, nonce: nat): (Session, SessionMessage) {
    var (r, m) := EncryptStep(s.ratchet, plaintext, nonce);
    (s.(ratchet := r), SessionMessage(s.version, m.ciphertext, m.nonce, m.ratchetKey, m.messageNumber))
  }

  function SessionDecrypt(s: Session, m: SessionMessage): (Session, Result<string>) {
    var (r, plain) := DecryptStep(s.ratchet, RatchetedMessage(m.ratchetKey, m.ciphertext, m.nonce, m.messageNumber, 0));
    (s.(ratchet := r), plain)
  }

  // ── The store: a vector that behaves as a map ───────────────────────────

  type Address = (User, U32)

  function AddressOf(s: Session): Address {
    (s.remoteUser, s.remoteDevice)
  }

  /** Each address occurs at most once in the vector. */
  ghost predicate Unique(sessions: seq<Session>) {
    forall i, j :: 0 <= i < j < |sessions| ==> AddressOf(sessions[i]) != AddressOf(sessions[j])
  }

  /** The vector has no duplicate addresses and holds exactly the entries of the map. */
  ghost predicate Represents(sessions: seq<Session>, m: map<Address, Session>) {
    && Unique(sessions)
    && (forall s :: s in sessions ==> AddressOf(s) in m && m[AddressOf(s)] == s)
    && (forall a :: a in m ==> m[a] in sessions && AddressOf(m[a]) == a)
  }

  /** The vector without the sessions of one address, the rest in order. */
  function Without(sessions: seq<Session>, a: Address): (rest: seq<Session>)
    ensures forall s :: s in rest <==> s in sessions && AddressOf(s) != a
  {
    if sessions == [] then []
    else
      var s := sessions[|sessions| - 1];
      var rest := Without(sessions[..|sessions| - 1], a);
      if AddressOf(s) == a then rest else rest + [s]
  }

  lemma {:induction false} UniqueAppend(sessions: seq<Session>, s: Session)
    requires Unique(sessions)
    requires forall t :: t in sessions ==> AddressOf(t) != AddressOf(s)
    ensures Unique(sessions + [s])
  {
  }

  lemma {:induction false} WithoutUnique(sessions: seq<Session>, a: Address)
    requires Unique(sessions)
    ensures Unique(Without(sessions, a))
  {
    if sessions != [] {
      var s, front := sessions[|sessions| - 1], sessions[..|sessions| - 1];
      WithoutUnique(front, a);
      if AddressOf(s) != a {
        UniqueAppend(Without(front, a), s);
      }
    }
  }

  lemma {:induction false} RemoveRepresents(sessions: seq<Session>, m: map<Address, Session>, a: Address)
    requires Represents(sessions, m)
    ensures Represents(Without(sessions, a), m - {a})
  {
    WithoutUnique(sessions, a);
  }

  lemma {:induction false} AddRepresents(sessions: seq<Session>, m: map<Address, Session>, s: Session)
    requires Represents(sessions, m)
    ensures Represents(Without(sessions, AddressOf(s)) + [s], m[AddressOf(s) := s])
  {
    WithoutUnique(sessions, AddressOf(s));
    UniqueAppend(Without(sessions, AddressOf(s)), s);
  }

  lemma {:induction false} UpdateRepresents(sessions: seq<Session>, m: map<Address, Session>, i: nat, s: Session)
    requires Represents(sessions, m)
    requires i < |sessions| && AddressOf(s) == AddressOf(sessions[i])
    ensures Represents(sessions[i := s], m[AddressOf(s) := s])
  {
    var m' := m[AddressOf(s) := s];
    forall a | a in m' ensures m'[a] in sessions[i := s] {
      if a == AddressOf(s) {
        assert sessions[i := s][i] == s;
      } else {
        var k :| 0 <= k < |sessions| && sessions[k] == m[a];
        assert sessions[i := s][k] == m[a];
      }
    }
  }

  datatype StoreCommand = Add(s: Session) | Remove(user: User, device: U32)

  /** The vector after a sequence of commands on an empty store. */
  function VectorRun(cmds: seq<StoreCommand>): seq<Session> {
    if cmds == [] then []
    else
      var xs := VectorRun(cmds[..|cmds| - 1]);
      match cmds[|cmds| - 1]
      case Add(s) => Without(xs, AddressOf(s)) + [s]
      case Remove(u, d) => Without(xs, (u, d))
  }

  /** The same commands on a map. */
  function MapRun(cmds: seq<StoreCommand>): map<Address, Session> {
    if cmds == [] then map[]
    else
      var m := MapRun(cmds[..|cmds| - 1]);
      match cmds[|cmds| - 1]
      case Add(s) => m[AddressOf(s) := s]
      case Remove(u, d) => m - {(u, d)}
  }

  /** From an empty store, any sequence of additions and removals leaves a vector without
      duplicate addresses that holds exactly the entries of the map the same commands build. */
  lemma {:induction false} StoreRefinesMap(cmds: seq<StoreCommand>)
    ensures Represents(VectorRun(cmds), MapRun(cmds))
  {
    if cmds != [] {
      var front, cmd := cmds[..|cmds| - 1], cmds[|cmds| - 1];
      StoreRefinesMap(front);
      match cmd
      case Add(s) => AddRepresents(VectorRun(front), MapRun(front), s);
      case Remove(u, d) => RemoveRepresents(VectorRun(front), MapRun(front), (u, d));
    }
  }

  /** The store object; `contents` is the map its vector stands for. */
  class SessionStore {
    var sessions: seq<Session>
    ghost var contents: map<Address, Session>

    ghost predicate Valid()
      reads this
    {
      Represents(sessions, contents)
    }

    constructor ()
      ensures Valid() && contents == map[]
    {
      sessions, contents := [], map[];
    }

    /** The index of the first session with the given address, or the length. */
    method Find(user: User, device: U32) returns (i: nat)
      requires Valid()
      ensures i <= |sessions|
      ensures i < |sessions| <==> (user, device) in contents
      ensures i < |sessions| ==> sessions[i] == contents[(user, device)]
    {
      i := 0;
      while i < |sessions| && !(sessions[i].remoteUser == user && sessions[i].remoteDevice == device)
        invariant i <= |sessions|
        invariant forall j :: 0 <= j < i ==> AddressOf(sessions[j]) != (user, device)
      {
        i := i + 1;
      }
      assert i < |sessions| ==> sessions[i] in sessions && AddressOf(sessions[i]) == (user, device);
    }

    /** First-match lookup is map lookup. */
    method Get(user: User, device: U32) returns (s: Option<Session>)
      requires Valid()
      ensures s == if (user, device) in contents then Some(contents[(user, device)]) else None
    {
      var i := Find(user, device);
      s := if i < |sessions| then Some(sessions[i]) else None;
    }

    /** Writing through the reference `get_mut` returns; no code writes the address. */
    method Mutate(user: User, device: U32, s: Session) returns (found: bool)
      requires Valid()
      requires AddressOf(s) == (user, device)
      modifies this
      ensures Valid()
      ensures found == ((user, device) in old(contents))
      ensures contents == if found then old(contents)[(user, device) := s] else old(contents)
    {
      var i := Find(user, device);
      found := i < |sessions|;
      if found {
        UpdateRepresents(sessions, contents, i, s);
        sessions, contents := sessions[i := s], contents[(user, device) := s];
      }
    }

    /** `retain` with the negated address test. */
    method Remove(user: User, device: U32)
      requires Valid()
      modifies this
      ensures Valid()
      ensures sessions == Without(old(sessions), (user, device))
      ensures contents == old(contents) - {(user, device)}
    {
      var kept: seq<Session> := [];
      for n := 0 to |sessions|
        invariant kept == Without(sessions[..n], (user, device))
      {
        var s := sessions[n];
        assert sessions[..n + 1][..n] == sessions[..n];
        if !(s.remoteUser == user && s.remoteDevice == device) {
          kept := kept + [s];
        }
      }
      assert sessions[..|sessions|] == sessions;
      RemoveRepresents(sessions, contents, (user, device));
      sessions, contents := kept, contents - {(user, device)};
    }

    /** `add` replaces any session with the same address. */
    method Add(s: Session)
      requires Valid()
      modifies this
      ensures Valid()
      ensures sessions == Without(old(sessions), AddressOf(s)) + [s]
      ensures contents == old(contents)[AddressOf(s) := s]
    {
      AddRepresents(sessions, contents, s);
      Remove(s.remoteUser, s.remoteDevice);
      sessions, contents := sessions + [s], old(contents)[AddressOf(s) := s];
    }
  }
}
