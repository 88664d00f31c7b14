/**
 * The session layer of pkg/protocol/session.go: the signed handshake and the encryption and
 * decryption of messages. Random keys and nonces are parameters. The functions on `SessionState`
 * specify the methods of class `Session`.
 */
module Sessions {
  import opened Common
  import opened Keys
  import opened Primitives
  import opened Ratchets
  import opened Replay
  import opened Packets

  datatype SessionState = SessionState(
    localId: Bytes,
    peerId: Option<Bytes>,
    ratchet: Option<RatchetState>,
    window: BitWindow,
    outSequence: nat,
    epoch: nat,
    established: bool)

  datatype SessionError =
    | NotEstablished | WrongType | NoPeer | BadSignature | PayloadTooShort | BadKeySignature | Replayed
    | RatchetFailed(error: RatchetError)

  /** What the Go types guarantee of a session's fields. */
  predicate Holds(s: SessionState)
  {
    s.epoch < TWO_32 && (s.ratchet.Some? ==> |s.ratchet.value.dhLocal.pub| == KEY_SIZE)
  }

  function InitialState(localId: Bytes, peerId: Option<Bytes>): SessionState
  {
    SessionState(localId, peerId, None, EMPTY_WINDOW, 0, 1, false)
  }

  /** The packet fields that identify session and message; the rest is still zero. */
  function Draft(suite: Suite, s: SessionState, typ: nat, sequence: nat): (p: Packet)
    requires Holds(s) && s.peerId.Some? && typ < 256 && sequence < TWO_64
    ensures Fits(p)
  {
    ZERO_PACKET.(version := CURRENT_VERSION, typ := typ, epoch := s.epoch, sequence := sequence,
                 sender := suite.fingerprint(s.localId), recipient := suite.fingerprint(s.peerId.value))
  }

  function Signed(suite: Suite, localId: Bytes, p: Packet): (r: Packet)
    requires Fits(p)
    ensures Fits(r) && Body(r) == Body(p)
  {
    p.(signature := suite.sign(localId, Body(p)))
  }

  predicate SignatureOk(suite: Suite, peerId: Bytes, p: Packet)
    requires Fits(p)
  {
    suite.verify(peerId, Body(p), p.signature)
  }

  // ---------------------------------------------------------------- handshake

  /** The public key of a handshake packet followed by the identity's signature over it. */
  function KeyPayload(suite: Suite, localId: Bytes, pub: Bytes): Bytes
  {
    pub + suite.sign(localId, pub)
  }

  function HandshakePacket(suite: Suite, s: SessionState, typ: nat, key: PrivateKey): (p: Packet)
    requires Holds(s) && s.peerId.Some? && typ < 256 && |key.pub| == KEY_SIZE
    ensures Fits(p)
  {
    Signed(suite, s.localId,
           Draft(suite, s, typ, 1).(payload := KeyPayload(suite, s.localId, key.pub), ephemeral := key.pub))
  }

  /** The checks both handshake receivers make, in order; on success the remote key. */
  function RemoteKey(suite: Suite, peerId: Bytes, p: Packet): (r: Result<Bytes, SessionError>)
    requires Fits(p)
    ensures r.Ok? ==> |r.value| == KEY_SIZE
  {
    if !SignatureOk(suite, peerId, p) then Err(BadSignature)
    else if |p.payload| < 32 + 64 then Err(PayloadTooShort)
    else if !suite.verify(peerId, p.payload[..32], p.payload[32..96]) then Err(BadKeySignature)
    else Ok(p.payload[..32])
  }

  /** ProcessHandshakeInit. */
  function Respond(suite: Suite, s: SessionState, p: Packet, newKey: PrivateKey)
    : (SessionState, Result<Packet, SessionError>)
    requires Holds(s) && Fits(p) && |newKey.pub| == KEY_SIZE
  {
    if p.typ != TYPE_HANDSHAKE_INIT then (s, Err(WrongType))
    else if s.peerId.None? then (s, Err(NoPeer))
    else
      match RemoteKey(suite, s.peerId.value, p)
      case Err(e) => (s, Err(e))
      case Ok(remote) =>
        var secret := Master(SharedSecret(newKey, remote));
        (s.(ratchet := Some(ResponderState(secret, newKey)), established := true),
         Ok(HandshakePacket(suite, s, TYPE_HANDSHAKE_RESP, newKey)))
  }

  /** CompleteInitiatorHandshake with the key of CreateHandshakeInit and a new ratchet key. */
  function Complete(suite: Suite, s: SessionState, p: Packet, initKey: PrivateKey, newKey: PrivateKey)
    : (SessionState, Result<(), SessionError>)
    requires s.peerId.Some? && Fits(p)
  {
    if p.typ != TYPE_HANDSHAKE_RESP then (s, Err(WrongType))
    else
      match RemoteKey(suite, s.peerId.value, p)
      case Err(e) => (s, Err(e))
      case Ok(remote) =>
        var secret := Master(SharedSecret(initKey, remote));
        (s.(ratchet := Some(InitiatorState(secret, remote, newKey)), established := true), Ok(()))
  }

  // ---------------------------------------------------------------- messages

  /** The AAD of `draft` once the ratchet has chosen the ephemeral key. */
  function AadOf(draft: Packet): Bytes -> Bytes
    requires Fits(draft)
  {
    (ephemeral: Bytes) => if |ephemeral| == KEY_SIZE then Header(draft.(ephemeral := ephemeral)) else Header(draft)
  }

  /** The packet that carries what the ratchet sealed. */
  function DataPacket(draft: Packet, sealed: Sealed): (p: Packet)
    requires Fits(draft) && |sealed.ephemeral| == KEY_SIZE && |sealed.full| >= NONCE_SIZE
    ensures Fits(p)
  {
    draft.(ephemeral := sealed.ephemeral, nonce := sealed.full[..NONCE_SIZE], payload := sealed.full[NONCE_SIZE..])
  }

  /** EncryptMessage. The sequence number is spent even when the ratchet refuses. */
  function EncryptMsg(suite: Suite, s: SessionState, plaintext: Bytes, newKey: PrivateKey, nonce: Bytes)
    : (SessionState, Result<Packet, SessionError>)
    requires Holds(s) && s.peerId.Some? && |newKey.pub| == KEY_SIZE && |nonce| == NONCE_SIZE
  {
    if !s.established || s.ratchet.None? then (s, Err(NotEstablished))
    else
      var s1 := s.(outSequence := Inc64(s.outSequence));
      var draft := Draft(suite, s1, TYPE_DATA, s1.outSequence);
      var (st, r) := Encrypt(suite, s.ratchet.value, plaintext, [], Some(AadOf(draft)), newKey, nonce);
      var s2 := s1.(ratchet := Some(st));
      match r
      case Err(e) => (s2, Err(RatchetFailed(e)))
      case Ok(sealed) => (s2, Ok(Signed(suite, s.localId, DataPacket(draft, sealed))))
  }

  /** DecryptMessage. The replay window moves before signature and ciphertext are looked at. */
  function DecryptMsg(suite: Suite, s: SessionState, p: Packet, newKey: PrivateKey)
    : (SessionState, Result<Bytes, SessionError>)
    requires s.peerId.Some? && Fits(p)
  {
    if !s.established || s.ratchet.None? then (s, Err(NotEstablished))
    else
      var (window, isNew) := CheckBits(s.window, p.sequence);
      var s1 := s.(window := window);
      if !isNew then (s1, Err(Replayed))
      else if !SignatureOk(suite, s.peerId.value, p) then (s1, Err(BadSignature))
      else
        var (st, r) := Decrypt(suite, s.ratchet.value, p.ephemeral, p.nonce + p.payload, Header(p), 0, newKey);
        var s2 := s1.(ratchet := Some(st));
        match r
        case Err(e) => (s2, Err(RatchetFailed(e)))
        case Ok(plaintext) => (s2, Ok(plaintext))
  }

  // ---------------------------------------------------------------- the class

  class Session {
    const suite: Suite
    const localId: Bytes
    const peerId: Option<Bytes>
    var ratchet: Ratchet?
    const replayWin: ReplayWindow
    var outSequence: nat
    var epoch: nat
    var isEstablished: bool

    ghost function Repr(): set<object>
      reads this
    {
      {this, replayWin} + (if ratchet == null then {} else {ratchet})
    }

    ghost predicate Valid()
      reads this, Repr()
    {
      (ratchet != null ==> ratchet.suite == suite) && Holds(State())
    }

    ghost function State(): SessionState
      reads this, Repr()
    {
      SessionState(localId, peerId, if ratchet == null then None else Some(ratchet.State()), replayWin.State(),
                   outSequence, epoch, isEstablished)
    }

    constructor (suite: Suite, localId: Bytes, peerId: Option<Bytes>)
      ensures Valid() && State() == InitialState(localId, peerId) && this.suite == suite
      ensures fresh(Repr())
    {
      this.suite, this.localId, this.peerId := suite, localId, peerId;
      ratchet := null;
      replayWin := new ReplayWindow();
      outSequence, epoch, isEstablished := 0, 1, false;
    }

    /** Build and sign a packet that carries `key`. */
    method SignedKey(typ: nat, key: PrivateKey) returns (p: Packet)
      requires Valid() && peerId.Some? && typ < 256 && |key.pub| == KEY_SIZE
      ensures p == HandshakePacket(suite, State(), typ, key)
    {
      var sig := suite.sign(localId, key.pub);
      p := ZERO_PACKET.(version := CURRENT_VERSION, typ := typ, epoch := epoch, sequence := 1,
                        sender := suite.fingerprint(localId), recipient := suite.fingerprint(peerId.value),
                        payload := key.pub + sig);
      p := p.(ephemeral := key.pub);
      var signedBytes := SignedBytes(p);
      p := p.(signature := suite.sign(localId, signedBytes));
    }

    method CreateHandshakeInit(newKey: PrivateKey) returns (p: Packet, key: PrivateKey)
      requires Valid() && peerId.Some? && |newKey.pub| == KEY_SIZE
      ensures p == HandshakePacket(suite, State(), TYPE_HANDSHAKE_INIT, newKey) && key == newKey
    {
      p := SignedKey(TYPE_HANDSHAKE_INIT, newKey);
      key := newKey;
    }

    method CheckRemoteKey(p: Packet) returns (r: Result<Bytes, SessionError>)
      requires peerId.Some? && Fits(p)
      ensures r == RemoteKey(suite, peerId.value, p)
    {
      var signedBytes := SignedBytes(p);
      if !suite.verify(peerId.value, signedBytes, p.signature) {
        return Err(BadSignature);
      }
      if |p.payload| < 32 + 64 {
        return Err(PayloadTooShort);
      }
      var pub, sig := p.payload[..32], p.payload[32..96];
      if !suite.verify(peerId.value, pub, sig) {
        return Err(BadKeySignature);
      }
      return Ok(pub);
    }

    method ProcessHandshakeInit(p: Packet, newKey: PrivateKey) returns (r: Result<Packet, SessionError>)
      requires Valid() && Fits(p) && |newKey.pub| == KEY_SIZE
      modifies this
      ensures Valid() && (State(), r) == Respond(suite, old(State()), p, newKey)
      ensures ratchet == old(ratchet) || fresh(ratchet)
    {
      if p.typ != TYPE_HANDSHAKE_INIT {
        return Err(WrongType);
      }
      if peerId.None? {
        return Err(NoPeer);
      }
      var remote := CheckRemoteKey(p);
      if remote.Err? {
        return Err(remote.error);
      }
      var masterSecret := Master(SharedSecret(newKey, remote.value));
      var newRatchet := Ratchet.NewRatchet(suite, Some(masterSecret), false, Some(newKey), Some(remote.value), newKey);
      var resp := SignedKey(TYPE_HANDSHAKE_RESP, newKey);
      ratchet := newRatchet.value;
      isEstablished := true;
      return Ok(resp);
    }

    method CompleteInitiatorHandshake(p: Packet, initKey: PrivateKey, newKey: PrivateKey)
      returns (r: Result<(), SessionError>)
      requires Valid() && peerId.Some? && Fits(p) && |newKey.pub| == KEY_SIZE
      modifies this
      ensures Valid() && (State(), r) == Complete(suite, old(State()), p, initKey, newKey)
      ensures ratchet == old(ratchet) || fresh(ratchet)
    {
      if p.typ != TYPE_HANDSHAKE_RESP {
        return Err(WrongType);
      }
      var remote := CheckRemoteKey(p);
      if remote.Err? {
        return Err(remote.error);
      }
      var masterSecret := Master(SharedSecret(initKey, remote.value));
      var newRatchet := Ratchet.NewRatchet(suite, Some(masterSecret), true, Some(initKey), Some(remote.value), newKey);
      ratchet := newRatchet.value;
      isEstablished := true;
      return Ok(());
    }

    method EncryptMessage(plaintext: Bytes, newKey: PrivateKey, nonce: Bytes) returns (r: Result<Packet, SessionError>)
      requires Valid() && peerId.Some? && |newKey.pub| == KEY_SIZE && |nonce| == NONCE_SIZE
      modifies this`outSequence, ratchet
      ensures Valid() && (State(), r) == EncryptMsg(suite, old(State()), plaintext, newKey, nonce)
    {
      if !isEstablished || ratchet == null {
        return Err(NotEstablished);
      }
      outSequence := Inc64(outSequence);
      var p := ZERO_PACKET.(version := CURRENT_VERSION, typ := TYPE_DATA, epoch := epoch, sequence := outSequence,
                            sender := suite.fingerprint(localId), recipient := suite.fingerprint(peerId.value));
      var sealed := ratchet.RatchetEncrypt(plaintext, [], Some(AadOf(p)), newKey, nonce);
      if sealed.Err? {
        return Err(RatchetFailed(sealed.error));
      }
      p := DataPacket(p, sealed.value);
      var signedBytes := SignedBytes(p);
      p := p.(signature := suite.sign(localId, signedBytes));
      return Ok(p);
    }

    method DecryptMessage(p: Packet, newKey: PrivateKey) returns (r: Result<Bytes, SessionError>)
      requires Valid() && peerId.Some? && Fits(p) && |newKey.pub| == KEY_SIZE
      modifies replayWin, ratchet
      ensures Valid() && (State(), r) == DecryptMsg(suite, old(State()), p, newKey)
    {
      if !isEstablished || ratchet == null {
        return Err(NotEstablished);
      }
      var ok := replayWin.CheckAndAdd(p.sequence);
      if !ok {
        return Err(Replayed);
      }
      var signedBytes := SignedBytes(p);
      if !suite.verify(peerId.value, signedBytes, p.signature) {
        return Err(BadSignature);
      }
      var fullCiphertext := p.nonce + p.payload;
      var aad := ComputeAAD(p);
      var plain := ratchet.RatchetDecrypt(p.ephemeral, fullCiphertext, aad, 0, newKey);
      match plain {
        case Err(e) => return Err(RatchetFailed(e));
        case Ok(plaintext) => return Ok(plaintext);
      }
    }
  }
}
