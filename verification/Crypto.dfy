/** Symbolic stand-ins for the primitives of tintin-core.

    A 32-byte string is a term that records how it was computed, so two keys are equal
    exactly when they were derived in the same way.  This is the usual idealisation of
    X25519 (section 6.1 of RFC 7748), HKDF (section 2 of RFC 5869), SHA-256 and
    ChaCha20-Poly1305 (section 2.8 of RFC 8439); no cryptographic strength is claimed.
 */
module Crypto {
  datatype Result<+T> = Ok(value: T) | Err

  datatype Option<+T> = None | Some(value: T)

  /** A 32-byte string. */
  datatype Key =
    | Zero                              // thirty-two zero bytes
    | Public(secret: nat)               // the X25519 public key of a secret
    | Shared(lo: nat, hi: nat)          // the X25519 output for two secrets, in either order
    | Point(secret: nat, bytes: Key)    // X25519 applied to bytes that are no one's public key
    | RootHalf(ikm: Key, info: Key)     // first 32 bytes of the HKDF output
    | ChainHalf(ikm: Key, info: Key)    // last 32 bytes of the HKDF output
    | Next(chain: Key)                  // SHA-256(0x02 || chain)
    | MessageKey(chain: Key)            // SHA-256(0x01 || chain)

  datatype KeyPair = KeyPair(secret: nat) {
    function PublicKey(): Key {
      Public(secret)
    }

    function Agree(their: Key): Key {
      match their
      case Public(s) => if secret <= s then Shared(secret, s) else Shared(s, secret)
      case _ => Point(secret, their)
    }
  }

  /** Both ends of a key agreement compute the same secret. */
  lemma {:induction false} AgreeCommutes(a: KeyPair, b: KeyPair)
    ensures a.Agree(b.PublicKey()) == b.Agree(a.PublicKey())
  {
  }

  /** An AEAD ciphertext: it opens under the key and nonce it was sealed with, and no others. */
  datatype Ciphertext = Sealed(key: Key, nonce: nat, plaintext: string)

  function Encrypt(plaintext: string, key: Key, nonce: nat): Ciphertext {
    Sealed(key, nonce, plaintext)
  }

  function Decrypt(c: Ciphertext, key: Key, nonce: nat): Result<string> {
    if c.key == key && c.nonce == nonce then Ok(c.plaintext) else Err
  }

  /** `n` symmetric ratchet steps from a chain key. */
  function NextN(chain: Key, n: nat): Key {
    if n == 0 then chain else Next(NextN(chain, n - 1))
  }

  function ChainDepth(k: Key): nat {
    if k.Next? then 1 + ChainDepth(k.chain) else 0
  }

  lemma {:induction false} NextNDepth(chain: Key, n: nat)
    ensures ChainDepth(NextN(chain, n)) == ChainDepth(chain) + n
  {
    if n > 0 {
      NextNDepth(chain, n - 1);
    }
  }

  /** A chain never revisits a key, so message keys name positions in the chain. */
  lemma {:induction false} NextNInjective(chain: Key, i: nat, j: nat)
    ensures NextN(chain, i) == NextN(chain, j) <==> i == j
  {
    NextNDepth(chain, i);
    NextNDepth(chain, j);
  }
}
