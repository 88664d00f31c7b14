/**
 * The Double Ratchet of pkg/crypto/ratchet.go. `RatchetState` holds the fields; the functions on
 * it are the specification of the methods of class `Ratchet`.
 */
module Ratchets {
  import opened Common
  import opened Keys
  import opened Primitives

  /** None stands for a nil pointer or an empty chain key. */
  datatype RatchetState = RatchetState(
    dhLocal: PrivateKey,
    dhPeer: Option<Bytes>,
    rk: Key,
    cks: Option<Key>,
    ckr: Option<Key>,
    ns: nat,
    nr: nat,
    pn: nat,
    skipped: map<(Bytes, nat), Key>)

  datatype RatchetError =
    | BadSecret | NoRemoteKey | NoLocalKey | CiphertextTooShort | InvalidPeerKey | BadChainKey | OpenFailed

  /** What RatchetEncrypt returns: ephemeral public key, nonce followed by ciphertext, counter. */
  datatype Sealed = Sealed(ephemeral: Bytes, full: Bytes, sequence: nat)

  // ---------------------------------------------------------------- specification

  /** Generate `newKey`, mix its secret with the peer key into the root, open a sending chain. */
  function SendStep(st: RatchetState, newKey: PrivateKey): RatchetState
    requires st.dhPeer.Some?
  {
    var (rk, ck) := DeriveRootStep(st.rk, SharedSecret(newKey, st.dhPeer.value));
    st.(dhLocal := newKey, rk := rk, cks := Some(ck), pn := st.ns, ns := 1)
  }

  /** The two root steps made when a new peer key arrives. */
  function DhStep(st: RatchetState, peer: Bytes, newKey: PrivateKey): RatchetState
  {
    var (rk, ck) := DeriveRootStep(st.rk, SharedSecret(st.dhLocal, peer));
    SendStep(st.(dhPeer := Some(peer), rk := rk, ckr := Some(ck)), newKey).(nr := 1)
  }

  /** NewRatchet, initiator side. */
  function InitiatorState(secret: Key, remote: Bytes, newKey: PrivateKey): RatchetState
  {
    var (rk, ck) := DeriveRootStep(secret, SharedSecret(newKey, remote));
    RatchetState(newKey, Some(remote), rk, Some(ck), None, 1, 1, 0, map[])
  }

  /** NewRatchet, responder side. */
  function ResponderState(secret: Key, local: PrivateKey): RatchetState
  {
    RatchetState(local, None, secret, None, None, 1, 1, 0, map[])
  }

  /** NewRatchet; None stands for a secret that is not 32 bytes long. */
  function NewState(secret: Option<Key>, isInitiator: bool, local: Option<PrivateKey>, remote: Option<Bytes>,
                    newKey: PrivateKey): Result<RatchetState, RatchetError>
  {
    if secret.None? then Err(BadSecret)
    else if isInitiator then
      if remote.None? then Err(NoRemoteKey) else Ok(InitiatorState(secret.value, remote.value, newKey))
    else
      if local.None? then Err(NoLocalKey) else Ok(ResponderState(secret.value, local.value))
  }

  /** The state RatchetEncrypt advances the sending chain from. */
  function ReadyToSend(st: RatchetState, newKey: PrivateKey): (r: Result<RatchetState, RatchetError>)
    ensures r.Ok? ==> r.value.cks.Some?
  {
    if st.cks.Some? then Ok(st)
    else if st.dhPeer.None? then Err(NoRemoteKey)
    else Ok(SendStep(st, newKey))
  }

  /** RatchetEncrypt; `newKey` and `nonce` are what the random generator would deliver. */
  function Encrypt(suite: Suite, st: RatchetState, plaintext: Bytes, staticAad: Bytes, getAad: Option<Bytes -> Bytes>,
                   newKey: PrivateKey, nonce: Bytes): (RatchetState, Result<Sealed, RatchetError>)
  {
    match ReadyToSend(st, newKey)
    case Err(e) => (st, Err(e))
    case Ok(s1) =>
      var (next, key) := DeriveRatchetedKeys(s1.cks.value);
      var aad := if getAad.Some? then getAad.value(s1.dhLocal.pub) else staticAad;
      (s1.(cks := Some(next), ns := Inc32(s1.ns)),
       Ok(Sealed(s1.dhLocal.pub, nonce + suite.seal(key, nonce, plaintext, aad), s1.ns)))
  }

  /** The skip loop: advance the receiving chain to `sequence`, caching every key passed over. */
  function Skip(st: RatchetState, peer: Bytes, sequence: nat): (r: RatchetState)
    requires st.ckr.Some?
    ensures r.ckr.Some?
    decreases sequence - st.nr
  {
    if st.nr >= sequence then st
    else
      var (next, key) := DeriveRatchetedKeys(st.ckr.value);
      Skip(st.(ckr := Some(next), skipped := st.skipped[(peer, st.nr) := key], nr := st.nr + 1), peer, sequence)
  }

  /** The state after the DH part of RatchetDecrypt. */
  function ReadyToReceive(st: RatchetState, peer: Bytes, newKey: PrivateKey): RatchetState
  {
    if st.dhPeer == Some(peer) then st else DhStep(st, peer, newKey)
  }

  /** RatchetDecrypt. A failure after the length checks still leaves the advanced state behind. */
  function Decrypt(suite: Suite, st: RatchetState, ephemeral: Bytes, full: Bytes, aad: Bytes, sequence: nat,
                   newKey: PrivateKey): (RatchetState, Result<Bytes, RatchetError>)
  {
    if |full| < NONCE_SIZE then (st, Err(CiphertextTooShort))
    else if |ephemeral| != KEY_SIZE then (st, Err(InvalidPeerKey))
    else
      var s1 := ReadyToReceive(st, ephemeral, newKey);
      if s1.ckr.None? then (s1, Err(BadChainKey))
      else
        var s2 := Skip(s1, ephemeral, sequence);
        var (next, key) := DeriveRatchetedKeys(s2.ckr.value);
        var s3 := s2.(ckr := Some(next), nr := Inc32(s2.nr));
        match suite.open(key, full[..NONCE_SIZE], full[NONCE_SIZE..], aad)
        case None => (s3, Err(OpenFailed))
        case Some(plaintext) => (s3, Ok(plaintext))
  }

  // ---------------------------------------------------------------- the class

  class Ratchet {
    const suite: Suite
    var DHsLocal: PrivateKey
    var DHrPeer: Option<Bytes>
    var RK: Key
    var CKs: Option<Key>
    var CKr: Option<Key>
    var Ns: nat
    var Nr: nat
    var PN: nat
    var skippedKeys: map<(Bytes, nat), Key>

    ghost function State(): RatchetState
      reads this
    {
      RatchetState(DHsLocal, DHrPeer, RK, CKs, CKr, Ns, Nr, PN, skippedKeys)
    }

    constructor Initiator(suite: Suite, sharedSecret: Key, remoteDHPub: Bytes, newKey: PrivateKey)
      ensures State() == InitiatorState(sharedSecret, remoteDHPub, newKey) && this.suite == suite
    {
      this.suite := suite;
      var dhSecret := SharedSecret(newKey, remoteDHPub);
      var (rk, ck) := DeriveRootStep(sharedSecret, dhSecret);
      DHsLocal, DHrPeer := newKey, Some(remoteDHPub);
      RK, CKs, CKr := rk, Some(ck), None;
      Ns, Nr, PN := 1, 1, 0;
      skippedKeys := map[];
    }

    constructor Responder(suite: Suite, sharedSecret: Key, localDH: PrivateKey)
      ensures State() == ResponderState(sharedSecret, localDH) && this.suite == suite
    {
      this.suite := suite;
      DHsLocal, DHrPeer := localDH, None;
      RK, CKs, CKr := sharedSecret, None, None;
      Ns, Nr, PN := 1, 1, 0;
      skippedKeys := map[];
    }

    static method NewRatchet(suite: Suite, sharedSecret: Option<Key>, isInitiator: bool, localDH: Option<PrivateKey>,
                             remoteDHPub: Option<Bytes>, newKey: PrivateKey) returns (r: Result<Ratchet, RatchetError>)
      ensures
        match NewState(sharedSecret, isInitiator, localDH, remoteDHPub, newKey)
        case Err(e) => r == Err(e)
        case Ok(st) => r.Ok? && fresh(r.value) && r.value.suite == suite && r.value.State() == st
    {
      if sharedSecret.None? {
        return Err(BadSecret);
      }
      if isInitiator {
        if remoteDHPub.None? {
          return Err(NoRemoteKey);
        }
        var ratchet := new Ratchet.Initiator(suite, sharedSecret.value, remoteDHPub.value, newKey);
        return Ok(ratchet);
      }
      if localDH.None? {
        return Err(NoLocalKey);
      }
      var ratchet := new Ratchet.Responder(suite, sharedSecret.value, localDH.value);
      return Ok(ratchet);
    }

    method RatchetEncrypt(plaintext: Bytes, staticAad: Bytes, getAad: Option<Bytes -> Bytes>,
                          newKey: PrivateKey, nonce: Bytes) returns (r: Result<Sealed, RatchetError>)
      modifies this
      ensures (State(), r) == Encrypt(suite, old(State()), plaintext, staticAad, getAad, newKey, nonce)
    {
      if CKs.None? {
        if DHrPeer.None? {
          return Err(NoRemoteKey);
        }
        DHsLocal := newKey;
        var dhSecretSend := SharedSecret(DHsLocal, DHrPeer.value);
        var (rk, ck) := DeriveRootStep(RK, dhSecretSend);
        RK, CKs := rk, Some(ck);
        PN := Ns;
        Ns := 1;
      }
      var ephemeral := DHsLocal.pub;
      var aad := if getAad.Some? then getAad.value(ephemeral) else staticAad;
      var (nextCKs, messageKey) := DeriveRatchetedKeys(CKs.value);
      CKs := Some(nextCKs);
      var sequence := Ns;
      Ns := Inc32(Ns);
      var ciphertext := suite.seal(messageKey, nonce, plaintext, aad);
      return Ok(Sealed(ephemeral, nonce + ciphertext, sequence));
    }

    /** The DH part of RatchetDecrypt. */
    method FollowPeer(peer: Bytes, newKey: PrivateKey)
      modifies this
      ensures State() == ReadyToReceive(old(State()), peer, newKey)
    {
      if DHrPeer.None? || DHrPeer.value != peer {
        DHrPeer := Some(peer);
        var dhSecretRecv := SharedSecret(DHsLocal, peer);
        var (rk1, ck1) := DeriveRootStep(RK, dhSecretRecv);
        RK, CKr := rk1, Some(ck1);
        DHsLocal := newKey;
        var dhSecretSend := SharedSecret(DHsLocal, peer);
        var (rk2, ck2) := DeriveRootStep(RK, dhSecretSend);
        RK, CKs := rk2, Some(ck2);
        PN := Ns;
        Ns := 1;
        Nr := 1;
      }
    }

    /** The skip loop of RatchetDecrypt. */
    method SkipMessageKeys(peer: Bytes, sequence: nat)
      requires CKr.Some?
      modifies this
      ensures State() == Skip(old(State()), peer, sequence)
    {
      while Nr < sequence
        invariant CKr.Some?
        invariant Skip(State(), peer, sequence) == Skip(old(State()), peer, sequence)
      {
        var (nextCKr, skippedMK) := DeriveRatchetedKeys(CKr.value);
        CKr := Some(nextCKr);
        skippedKeys := skippedKeys[(peer, Nr) := skippedMK];
        Nr := Nr + 1;
      }
    }

    method RatchetDecrypt(ephemeral: Bytes, full: Bytes, aad: Bytes, sequence: nat, newKey: PrivateKey)
      returns (r: Result<Bytes, RatchetError>)
      modifies this
      ensures (State(), r) == Decrypt(suite, old(State()), ephemeral, full, aad, sequence, newKey)
    {
      if |full| < NONCE_SIZE {
        return Err(CiphertextTooShort);
      }
      var nonce, ciphertext := full[..NONCE_SIZE], full[NONCE_SIZE..];
      if |ephemeral| != KEY_SIZE {
        return Err(InvalidPeerKey);
      }
      FollowPeer(ephemeral, newKey);
      if CKr.None? {
        return Err(BadChainKey);
      }
      SkipMessageKeys(ephemeral, sequence);
      var (nextCKr, messageKey) := DeriveRatchetedKeys(CKr.value);
      CKr := Some(nextCKr);
      Nr := Inc32(Nr);
      match suite.open(messageKey, nonce, ciphertext, aad) {
        case None => return Err(OpenFailed);
        case Some(plaintext) => return Ok(plaintext);
      }
    }
  }
}
