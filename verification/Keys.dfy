/**
 * Symbolic keys. HKDF (pkg/crypto/hkdf.go) and X25519 (pkg/crypto/ecdh.go) are idealised as free
 * constructors: two keys are equal only when derived the same way, and nothing can be read back
 * out of a derived key. A key pair is named by its 32-byte public key.
 */
module Keys {
  import opened Common

  const KEY_SIZE: nat := 32

  /** The private half of the key pair whose public half is `pub`. */
  datatype PrivateKey = Priv(pub: Bytes)

  /** An X25519 shared secret, determined by the two public keys in either order. */
  datatype DhSecret = Dh(ends: set<Bytes>)

  datatype Key =
    | Master(dh: DhSecret)            // handshake master secret
    | Root(prev: Key, dh: DhSecret)   // first half of a root step
    | Chain(prev: Key, dh: DhSecret)  // second half of a root step
    | Next(chain: Key)                // next chain key
    | Msg(chain: Key)                 // message key

  function SharedSecret(priv: PrivateKey, peer: Bytes): DhSecret
  {
    Dh({priv.pub, peer})
  }

  /** DeriveRootStep: the next root key and the chain key it opens. */
  function DeriveRootStep(rootKey: Key, dh: DhSecret): (Key, Key)
  {
    (Root(rootKey, dh), Chain(rootKey, dh))
  }

  /** DeriveRatchetedKeys on a present chain key: the next chain key and the message key. */
  function DeriveRatchetedKeys(chainKey: Key): (Key, Key)
  {
    (Next(chainKey), Msg(chainKey))
  }

  /** Both ends of an X25519 exchange compute one secret. */
  lemma SharedSecretSymmetric(a: PrivateKey, b: PrivateKey)
    ensures SharedSecret(a, b.pub) == SharedSecret(b, a.pub)
  {
    assert {a.pub, b.pub} == {b.pub, a.pub};
  }

  // ---------------------------------------------------------------- what an observer can derive

  /** Keys and private keys in someone's hands; every public key is known to everyone. */
  datatype Knowledge = Knowledge(keys: set<Key>, privates: set<Bytes>)

  predicate KnowsSecret(known: Knowledge, dh: DhSecret)
  {
    exists p :: p in dh.ends && p in known.privates
  }

  /** Structural form: `k` is held, or its ingredients are derivable. */
  predicate Derivable(k: Key, known: Knowledge)
  {
    k in known.keys ||
    match k
    case Master(dh) => KnowsSecret(known, dh)
    case Root(prev, dh) => Derivable(prev, known) && KnowsSecret(known, dh)
    case Chain(prev, dh) => Derivable(prev, known) && KnowsSecret(known, dh)
    case Next(chain) => Derivable(chain, known)
    case Msg(chain) => Derivable(chain, known)
  }

  /** `k` is held or comes out of one run of HKDF on keys in `have` and known DH secrets. */
  predicate OneDerivation(k: Key, known: Knowledge, have: seq<Key>)
  {
    k in known.keys ||
    match k
    case Master(dh) => KnowsSecret(known, dh)
    case Root(prev, dh) => prev in have && KnowsSecret(known, dh)
    case Chain(prev, dh) => prev in have && KnowsSecret(known, dh)
    case Next(chain) => chain in have
    case Msg(chain) => chain in have
  }

  /** A transcript of HKDF runs, each using only what came before. */
  ghost predicate Transcript(known: Knowledge, t: seq<Key>)
  {
    forall i :: 0 <= i < |t| ==> OneDerivation(t[i], known, t[..i])
  }

  lemma {:induction false} TranscriptSound(known: Knowledge, t: seq<Key>, i: nat)
    requires Transcript(known, t) && i < |t|
    ensures Derivable(t[i], known)
  {
    assert OneDerivation(t[i], known, t[..i]);
    forall j | 0 <= j < i
      ensures Derivable(t[j], known)
    {
      TranscriptSound(known, t, j);
    }
  }

  lemma {:induction false} TranscriptComplete(k: Key, known: Knowledge) returns (t: seq<Key>)
    requires Derivable(k, known)
    ensures Transcript(known, t) && k in t
  {
    t := [];
    if k !in known.keys {
      match k {
        case Master(dh) =>
        case Root(prev, dh) => t := TranscriptComplete(prev, known);
        case Chain(prev, dh) => t := TranscriptComplete(prev, known);
        case Next(chain) => t := TranscriptComplete(chain, known);
        case Msg(chain) => t := TranscriptComplete(chain, known);
      }
    }
    var t' := t + [k];
    forall i | 0 <= i < |t'|
      ensures OneDerivation(t'[i], known, t'[..i])
    {
      assert t'[..i] == t[..i];
      assert i == |t| ==> t[..i] == t;
    }
    t := t';
  }

  /** The structural form says exactly what some finite transcript of HKDF runs can reach. */
  lemma DerivableIffTranscript(k: Key, known: Knowledge)
    ensures Derivable(k, known) <==> exists t :: Transcript(known, t) && k in t
  {
    if Derivable(k, known) {
      var t := TranscriptComplete(k, known);
    }
    forall t | Transcript(known, t) && k in t
      ensures Derivable(k, known)
    {
      var i :| 0 <= i < |t| && t[i] == k;
      TranscriptSound(known, t, i);
    }
  }
}

/**
 * The primitives the protocol calls into, as arbitrary functions on bytes. Only their correctness
 * laws are assumed, never that a wrong key or a forged signature fails.
 */
module Primitives {
  import opened Common
  import opened Keys

  const NONCE_SIZE: nat := 24

  datatype Suite = Suite(
    seal: (Key, Bytes, Bytes, Bytes) -> Bytes,          // key, nonce, plaintext, AAD
    open: (Key, Bytes, Bytes, Bytes) -> Option<Bytes>,  // key, nonce, ciphertext, AAD
    sign: (Bytes, Bytes) -> Bytes64,                    // identity, message
    verify: (Bytes, Bytes, Bytes) -> bool,              // identity, message, signature
    fingerprint: Bytes -> Bytes32)
  {
    /** Opening undoes sealing (section 2.8 of RFC 8439). */
    ghost predicate OpensWhatItSeals()
    {
      forall k, n, p, a :: open(k, n, seal(k, n, p, a), a) == Some(p)
    }

    /** Verification accepts what the identity signed (sections 5.1.6 and 5.1.7 of RFC 8032). */
    ghost predicate VerifiesWhatItSigns()
    {
      forall id, m :: verify(id, m, sign(id, m))
    }

    ghost predicate Correct()
    {
      OpensWhatItSeals() && VerifiesWhatItSigns()
    }
  }
}
