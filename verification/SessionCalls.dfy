/**
 * What a single session call does, in every state and on every branch: the packet it makes, the
 * plaintext it returns, the refusals in order, and what is left in the session.
 */
module SessionCalls {
  import opened Common
  import opened Keys
  import opened Primitives
  import opened Ratchets
  import opened Replay
  import opened Packets
  import opened Sessions
  import opened RatchetCalls
  import opened Deliveries

  // ---------------------------------------------------------------- handshake

  /** A packet of the given type that carries `key`, twice and signed, from `s` to its peer. */
  ghost predicate CarriesKey(suite: Suite, s: SessionState, typ: nat, key: Bytes, p: Packet)
    requires s.peerId.Some?
  {
    && Fits(p) && p.version == 0x0100 && p.typ == typ && p.epoch == s.epoch && p.sequence == 1
    && p.sender == suite.fingerprint(s.localId) && p.recipient == suite.fingerprint(s.peerId.value)
    && p.ephemeral == key && p.nonce == Zeros(24)
    && |p.payload| == 96 && p.payload[..32] == key && p.payload[32..] == suite.sign(s.localId, key)
    && p.signature == suite.sign(s.localId, Body(p))
  }

  /** CreateHandshakeInit, and the packet inside ProcessHandshakeInit. */
  lemma HandshakeCarriesKey(suite: Suite, s: SessionState, typ: nat, key: PrivateKey)
    requires Holds(s) && s.peerId.Some? && typ < 256 && |key.pub| == KEY_SIZE
    ensures CarriesKey(suite, s, typ, key.pub, HandshakePacket(suite, s, typ, key))
  {
    hide Body;
    var payload := KeyPayload(suite, s.localId, key.pub);
    assert payload[..32] == key.pub && payload[32..] == suite.sign(s.localId, key.pub);
  }

  /**
   * Whatever handshake packet arrives: a session that becomes established took a key its peer
   * signed, inside a packet its peer signed, and its root key comes from that key; otherwise
   * nothing changed.
   */
  lemma EstablishedBySignedKey(suite: Suite, s: SessionState, p: Packet, initKey: PrivateKey, newKey: PrivateKey)
    requires Holds(s) && s.peerId.Some? && Fits(p) && |newKey.pub| == KEY_SIZE
    ensures
      var (s', r) := Respond(suite, s, p, newKey);
      if r.Err? then s' == s
      else p.typ == TYPE_HANDSHAKE_INIT && SignedBy(suite, s.peerId.value, p) && s'.established
           && s'.ratchet.Some? && s'.ratchet.value.rk == Master(SharedSecret(Priv(p.payload[..32]), newKey.pub))
    ensures
      var (s', r) := Complete(suite, s, p, initKey, newKey);
      if r.Err? then s' == s
      else p.typ == TYPE_HANDSHAKE_RESP && SignedBy(suite, s.peerId.value, p) && s'.established
           && s'.ratchet.Some? && s'.ratchet.value.dhPeer == Some(p.payload[..32])
           && s'.ratchet.value.rk ==
                Root(Master(SharedSecret(initKey, p.payload[..32])), SharedSecret(newKey, p.payload[..32]))
  {
    hide Body;
    if |p.payload| >= 96 {
      SharedSecretSymmetric(newKey, Priv(p.payload[..32]));
    }
  }

  /** `p` is signed by `peer`, and so is the key at the head of its payload. */
  ghost predicate SignedBy(suite: Suite, peer: Bytes, p: Packet)
  {
    && Fits(p) && suite.verify(peer, Body(p), p.signature)
    && |p.payload| >= 96 && suite.verify(peer, p.payload[..32], p.payload[32..96])
  }

  /** The refusals that both handshake receivers have in common, in the order of the checks. */
  ghost predicate RefusesKey(suite: Suite, peerId: Bytes, p: Packet, error: SessionError)
    requires Fits(p)
  {
    if !suite.verify(peerId, Body(p), p.signature) then error == BadSignature
    else if |p.payload| < 96 then error == PayloadTooShort
    else !suite.verify(peerId, p.payload[..32], p.payload[32..96]) && error == BadKeySignature
  }

  /**
   * ProcessHandshakeInit answers exactly a packet of the init type that the peer signed, with a key
   * the peer signed; the answer carries the new key, and the session gets a responder's ratchet.
   * Every refusal names the first check that failed and changes nothing.
   */
  lemma RespondExactly(suite: Suite, s: SessionState, p: Packet, newKey: PrivateKey)
    requires Holds(s) && Fits(p) && |newKey.pub| == KEY_SIZE
    ensures
      var (s', r) := Respond(suite, s, p, newKey);
      if p.typ != 0x01 then s' == s && r == Err(WrongType)
      else if s.peerId == None then s' == s && r == Err(NoPeer)
      else if !SignedBy(suite, s.peerId.value, p) then
        s' == s && r.Err? && RefusesKey(suite, s.peerId.value, p, r.error)
      else
        && r.Ok? && CarriesKey(suite, s, 0x02, newKey.pub, r.value)
        && s' == s.(established := true,
                    ratchet := Some(RatchetState(newKey, None, Master(Dh({newKey.pub, p.payload[..32]})), None, None,
                                                 1, 1, 0, map[])))
  {
    hide Body;
    if s.peerId.Some? {
      HandshakeCarriesKey(suite, s, TYPE_HANDSHAKE_RESP, newKey);
    }
  }

  /** CompleteInitiatorHandshake likewise, on a packet of the response type. */
  lemma CompleteExactly(suite: Suite, s: SessionState, p: Packet, initKey: PrivateKey, newKey: PrivateKey)
    requires s.peerId.Some? && Fits(p)
    ensures
      var (s', r) := Complete(suite, s, p, initKey, newKey);
      if p.typ != 0x02 then s' == s && r == Err(WrongType)
      else if !SignedBy(suite, s.peerId.value, p) then
        s' == s && r.Err? && RefusesKey(suite, s.peerId.value, p, r.error)
      else
        var remote := p.payload[..32];
        var secret, dh := Master(Dh({initKey.pub, remote})), Dh({newKey.pub, remote});
        && r == Ok(())
        && s' == s.(established := true,
                    ratchet := Some(RatchetState(newKey, Some(remote), Root(secret, dh), Some(Chain(secret, dh)), None,
                                                 1, 1, 0, map[])))
  {
    hide Body;
  }

  // ---------------------------------------------------------------- messages

  /** A data packet of `s` with number `sequence` that carries `plaintext` sealed under the next key of `chain`. */
  ghost predicate CarriesMessage(suite: Suite, s: SessionState, sequence: nat, chain: Key, ephemeral: Bytes,
                                 nonce: Bytes, plaintext: Bytes, p: Packet)
    requires s.peerId.Some?
  {
    && Fits(p) && p.version == 0x0100 && p.typ == 0x03 && p.epoch == s.epoch && p.sequence == sequence
    && p.sender == suite.fingerprint(s.localId) && p.recipient == suite.fingerprint(s.peerId.value)
    && p.ephemeral == ephemeral && p.nonce == nonce
    && p.payload == suite.seal(Msg(chain), nonce, plaintext, Header(p))
    && p.signature == suite.sign(s.localId, Body(p))
  }

  /**
   * EncryptMessage on a session that is not established is refused and changes nothing. On one whose
   * ratchet cannot send, the refusal costs a number. Otherwise the packet carries the plaintext
   * sealed under the next key of the sending chain, with the packet's own header as AAD.
   */
  lemma EncryptMsgExactly(suite: Suite, s: SessionState, plaintext: Bytes, newKey: PrivateKey, nonce: Bytes)
    requires Holds(s) && s.peerId.Some? && |newKey.pub| == KEY_SIZE && |nonce| == NONCE_SIZE
    ensures
      var (s', r) := EncryptMsg(suite, s, plaintext, newKey, nonce);
      var number := (s.outSequence + 1) % 0x1_0000_0000_0000_0000;
      if !s.established || s.ratchet == None then s' == s && r == Err(NotEstablished)
      else if s.ratchet.value.cks == None && s.ratchet.value.dhPeer == None then
        s' == s.(outSequence := number) && r == Err(RatchetFailed(NoRemoteKey))
      else
        && r.Ok?
        && s' == s.(outSequence := number, ratchet := s'.ratchet)
        && (forall chain, ephemeral :: SendsOn(s.ratchet.value, newKey, chain, ephemeral) ==>
              && CarriesMessage(suite, s, number, chain, ephemeral, nonce, plaintext, r.value)
              && s'.ratchet == Some(AfterSend(s.ratchet.value, newKey, chain)))
  {
    hide CarriesMessage, AfterSend;
    if s.established && s.ratchet.Some? {
      var draft := Draft(suite, s.(outSequence := Inc64(s.outSequence)), TYPE_DATA, Inc64(s.outSequence));
      EncryptExactly(suite, s.ratchet.value, plaintext, [], Some(AadOf(draft)), newKey, nonce);
      forall chain, ephemeral | SendsOn(s.ratchet.value, newKey, chain, ephemeral)
        ensures
          var (s', r) := EncryptMsg(suite, s, plaintext, newKey, nonce);
          && r.Ok? && CarriesMessage(suite, s, Inc64(s.outSequence), chain, ephemeral, nonce, plaintext, r.value)
          && s'.ratchet == Some(AfterSend(s.ratchet.value, newKey, chain))
      {
        EncryptMsgOnChain(suite, s, plaintext, newKey, nonce, chain, ephemeral);
      }
    }
    hide Encrypt, Draft;
  }

  lemma EncryptMsgOnChain(suite: Suite, s: SessionState, plaintext: Bytes, newKey: PrivateKey, nonce: Bytes,
                          chain: Key, ephemeral: Bytes)
    requires Holds(s) && s.peerId.Some? && |newKey.pub| == KEY_SIZE && |nonce| == NONCE_SIZE
    requires s.established && s.ratchet.Some? && SendsOn(s.ratchet.value, newKey, chain, ephemeral)
    ensures
      var (s', r) := EncryptMsg(suite, s, plaintext, newKey, nonce);
      && r.Ok? && CarriesMessage(suite, s, Inc64(s.outSequence), chain, ephemeral, nonce, plaintext, r.value)
      && s'.ratchet == Some(AfterSend(s.ratchet.value, newKey, chain))
  {
    var s1 := s.(outSequence := Inc64(s.outSequence));
    var draft := Draft(suite, s1, TYPE_DATA, s1.outSequence);
    EncryptExactly(suite, s.ratchet.value, plaintext, [], Some(AadOf(draft)), newKey, nonce);
    hide Encrypt, Body;
    DataPacketExactly(suite, s.localId, draft, nonce, suite.seal(Msg(chain), nonce, plaintext, AadOf(draft)(ephemeral)),
                      ephemeral);
  }

  /** The ratchet after a send on `chain`. */
  function AfterSend(st: RatchetState, newKey: PrivateKey, chain: Key): RatchetState
  {
    if st.cks.Some? then st.(cks := Some(Next(chain)), ns := (st.ns + 1) % 0x1_0000_0000)
    else if st.dhPeer.None? then st
    else st.(dhLocal := newKey, rk := Root(st.rk, Dh({newKey.pub, st.dhPeer.value})), cks := Some(Next(chain)),
             pn := st.ns, ns := 2)
  }

  lemma DataPacketExactly(suite: Suite, localId: Bytes, draft: Packet, nonce: Bytes, ciphertext: Bytes,
                          ephemeral: Bytes)
    requires Fits(draft) && |nonce| == NONCE_SIZE && |ephemeral| == KEY_SIZE
    ensures
      var p := Signed(suite, localId, DataPacket(draft, Sealed(ephemeral, nonce + ciphertext, 0)));
      && p.ephemeral == ephemeral && p.nonce == nonce && p.payload == ciphertext
      && Header(p) == AadOf(draft)(ephemeral)
  {}

  /** Nonce and payload of `p` open to `plaintext` under the key the ratchet tries, with `p`'s header as AAD. */
  ghost predicate Opens(suite: Suite, s: SessionState, p: Packet, newKey: PrivateKey, plaintext: Bytes)
  {
    && Fits(p) && s.ratchet.Some?
    && exists key :: TriedKey(s.ratchet.value, p.ephemeral, 0, newKey) == Some(key)
                     && suite.open(key, p.nonce, p.payload, Header(p)) == Some(plaintext)
  }

  /**
   * DecryptMessage returns a plaintext exactly when the session is established, the number is new to
   * its window, the peer signed the packet, and it opens to that plaintext.
   */
  lemma DecryptMsgOpensIff(suite: Suite, s: SessionState, p: Packet, newKey: PrivateKey, plaintext: Bytes)
    requires s.peerId.Some? && Fits(p)
    ensures
      DecryptMsg(suite, s, p, newKey).1 == Ok(plaintext) <==>
      && s.established && CheckBits(s.window, p.sequence).1
      && suite.verify(s.peerId.value, Body(p), p.signature)
      && Opens(suite, s, p, newKey, plaintext)
  {
    if s.ratchet.Some? {
      SplitFull(p);
      DecryptOpensUnderTriedKey(suite, s.ratchet.value, p.ephemeral, p.nonce + p.payload, Header(p), 0, newKey);
    }
    hide Decrypt, TriedKey, CheckBits, Header, Body;
  }

  lemma SplitFull(p: Packet)
    requires Fits(p)
    ensures (p.nonce + p.payload)[..24] == p.nonce && (p.nonce + p.payload)[24..] == p.payload
  {}

  /** Its refusals in the order of the checks, and what each leaves behind. */
  lemma DecryptMsgRefuses(suite: Suite, s: SessionState, p: Packet, newKey: PrivateKey)
    requires s.peerId.Some? && Fits(p)
    ensures
      var (s', r) := DecryptMsg(suite, s, p, newKey);
      if !s.established || s.ratchet == None then s' == s && r == Err(NotEstablished)
      else if !CheckBits(s.window, p.sequence).1 then s' == s && r == Err(Replayed)
      else
        var moved := s.(window := CheckBits(s.window, p.sequence).0);
        if !suite.verify(s.peerId.value, Body(p), p.signature) then s' == moved && r == Err(BadSignature)
        else
          && (r.Err? ==> r.error.RatchetFailed?)
          && s' == moved.(ratchet := s'.ratchet)
          && (r == Err(RatchetFailed(BadChainKey)) <==>
                s.ratchet.value.dhPeer == Some(p.ephemeral) && s.ratchet.value.ckr == None)
          && (s.ratchet.value.dhPeer == Some(p.ephemeral) && s.ratchet.value.ckr == None ==> s' == moved)
          && (forall chain, nr: nat :: ReceivesOn(s.ratchet.value, p.ephemeral, chain, nr) ==>
                && s'.ratchet == Some(AfterRootSteps(s.ratchet.value, p.ephemeral, newKey)
                                        .(ckr := Some(Next(chain)), nr := (nr + 1) % 0x1_0000_0000))
                && r == match suite.open(Msg(chain), p.nonce, p.payload, Header(p))
                        case None => Err(RatchetFailed(OpenFailed))
                        case Some(plaintext) => Ok(plaintext))
  {
    RejectionKeepsWindow(s.window, p.sequence);
    if s.ratchet.Some? {
      SplitFull(p);
      DecryptExactly(suite, s.ratchet.value, p.ephemeral, p.nonce + p.payload, Header(p), 0, newKey);
      NothingSkipped(suite, s.ratchet.value, p, newKey);
    }
    hide Decrypt, CheckBits, Header, Body, AfterRootSteps;
  }

  lemma RejectionKeepsWindow(w: BitWindow, n: nat)
    ensures !CheckBits(w, n).1 ==> CheckBits(w, n).0 == w
  {}

  lemma NothingSkipped(suite: Suite, st: RatchetState, p: Packet, newKey: PrivateKey)
    requires Fits(p)
    ensures Decrypt(suite, st, p.ephemeral, p.nonce + p.payload, Header(p), 0, newKey).0.skipped == st.skipped
  {
    hide Header;
  }

  // ---------------------------------------------------------------- whatever arrives

  /** A session that is given one packet after another, honest or not. */
  function Feed(suite: Suite, s: SessionState, inputs: seq<(Packet, PrivateKey)>)
    : (r: (SessionState, seq<Result<Bytes, SessionError>>))
    requires s.peerId.Some? && forall x :: x in inputs ==> Fits(x.0)
    ensures |r.1| == |inputs|
    ensures r.0 == s.(window := r.0.window, ratchet := r.0.ratchet)
  {
    if inputs == [] then (s, [])
    else
      var x := inputs[|inputs| - 1];
      var (s1, results) := Feed(suite, s, inputs[..|inputs| - 1]);
      var (s2, r) := DecryptMsg(suite, s1, x.0, x.1);
      (s2, results + [r])
  }

  function SequencesOf(inputs: seq<(Packet, PrivateKey)>): (r: seq<nat>)
    ensures |r| == |inputs| && forall i :: 0 <= i < |inputs| ==> r[i] == inputs[i].0.sequence
  {
    seq(|inputs|, i requires 0 <= i < |inputs| => inputs[i].0.sequence)
  }

  /** What a session accepts was new to its window and signed by its peer. */
  lemma AcceptedIsVerified(suite: Suite, s: SessionState, p: Packet, newKey: PrivateKey)
    requires s.peerId.Some? && Fits(p)
    ensures DecryptMsg(suite, s, p, newKey).1.Ok? ==>
              s.established && CheckBits(s.window, p.sequence).1 && suite.verify(s.peerId.value, Body(p), p.signature)
    ensures DecryptMsg(suite, s, p, newKey).0.window ==
              if s.established && s.ratchet.Some? then CheckBits(s.window, p.sequence).0 else s.window
    ensures s.ratchet.Some? <==> DecryptMsg(suite, s, p, newKey).0.ratchet.Some?
  {
    hide CheckBits, Decrypt, Body;
  }

  lemma {:induction false} FeedFollowsWindow(suite: Suite, s: SessionState, inputs: seq<(Packet, PrivateKey)>)
    requires s.peerId.Some? && s.window == EMPTY_WINDOW && s.established && s.ratchet.Some?
    requires forall x :: x in inputs ==> Fits(x.0)
    ensures
      var (s', results) := Feed(suite, s, inputs);
      var (w, verdicts) := CheckAll(EMPTY_WINDOW, SequencesOf(inputs));
      && s'.window == w && s'.ratchet.Some?
      && forall i :: 0 <= i < |inputs| && results[i].Ok? ==>
           verdicts[i] && suite.verify(s.peerId.value, Body(inputs[i].0), inputs[i].0.signature)
  {
    hide DecryptMsg, CheckBits, Body;
    if inputs != [] {
      var front, x := inputs[..|inputs| - 1], inputs[|inputs| - 1];
      FeedFollowsWindow(suite, s, front);
      assert SequencesOf(inputs)[..|inputs| - 1] == SequencesOf(front);
      AcceptedIsVerified(suite, Feed(suite, s, front).0, x.0, x.1);
    }
  }

  /**
   * Whatever arrives, in whatever order: a session that starts with an empty window accepts only
   * packets signed by its peer, and no sequence number twice; and what it returns is what nonce and
   * payload open to, under the key its ratchet tries at that moment and the packet's header.
   */
  lemma AcceptsOnlySignedAndOnce(suite: Suite, s: SessionState, inputs: seq<(Packet, PrivateKey)>)
    requires s.peerId.Some? && s.window == EMPTY_WINDOW && s.established && s.ratchet.Some?
    requires forall x :: x in inputs ==> Fits(x.0)
    ensures
      var results := Feed(suite, s, inputs).1;
      && (forall i :: 0 <= i < |inputs| && results[i].Ok? ==>
            suite.verify(s.peerId.value, Body(inputs[i].0), inputs[i].0.signature))
      && (forall i, j :: 0 <= i < j < |inputs| && results[i].Ok? && results[j].Ok? ==>
            inputs[i].0.sequence != inputs[j].0.sequence)
      && (forall i :: 0 <= i < |inputs| && results[i].Ok? ==>
            Opens(suite, Feed(suite, s, inputs[..i]).0, inputs[i].0, inputs[i].1, results[i].value))
  {
    hide Feed, CheckAll, Represents, Body, Opens;
    FeedFollowsWindow(suite, s, inputs);
    EveryRunRefinesTheSet(SequencesOf(inputs));
    forall i | 0 <= i < |inputs| && Feed(suite, s, inputs).1[i].Ok?
      ensures Opens(suite, Feed(suite, s, inputs[..i]).0, inputs[i].0, inputs[i].1, Feed(suite, s, inputs).1[i].value)
    {
      FeedAt(suite, s, inputs, i);
      var before, result := Feed(suite, s, inputs[..i]).0, Feed(suite, s, inputs).1[i];
      DecryptMsgOpensIff(suite, before, inputs[i].0, inputs[i].1, result.value);
    }
  }

  /** The `i`-th result is that of the call on the state after the inputs before it. */
  lemma {:induction false} FeedAt(suite: Suite, s: SessionState, inputs: seq<(Packet, PrivateKey)>, i: nat)
    requires s.peerId.Some? && i < |inputs| && forall x :: x in inputs ==> Fits(x.0)
    ensures Feed(suite, s, inputs).1[i] == DecryptMsg(suite, Feed(suite, s, inputs[..i]).0, inputs[i].0, inputs[i].1).1
  {
    hide DecryptMsg;
    if i < |inputs| - 1 {
      var front := inputs[..|inputs| - 1];
      FeedAt(suite, s, front, i);
      assert front[..i] == inputs[..i];
    }
  }

  /**
   * What a badly signed packet leaves behind: the session refuses it and keeps its ratchet; its window
   * moves exactly when the number would have been admitted. Of the numbers admitted before, it
   * shuts out its own and those that fall 64 behind it, and no others.
   */
  lemma BadlySignedPacket(suite: Suite, s: SessionState, p: Packet, newKey: PrivateKey, accepted: set<nat>)
    requires s.peerId.Some? && Fits(p) && s.established && s.ratchet.Some? && Represents(s.window, accepted)
    requires !suite.verify(s.peerId.value, Body(p), p.signature)
    ensures
      var (s', r) := DecryptMsg(suite, s, p, newKey);
      && r.Err? && s' == s.(window := s'.window)
      && (s'.window != s.window <==> Admits(accepted, s.window.maxSeq, p.sequence))
      && (forall m: nat :: Admits(accepted, s.window.maxSeq, m) ==>
            (CheckBits(s'.window, m).1 <==> m != p.sequence && p.sequence < m + 64))
  {
    var w, n := s.window, p.sequence;
    var w' := CheckBits(w, n).0;
    CheckBitsRefines(w, accepted, n);
    assert IsMax(accepted, w.maxSeq);
    if Admits(accepted, w.maxSeq, n) {
      MovedWhenAdmitted(w, accepted, n);
    }
    assert DecryptMsg(suite, s, p, newKey).0.window == w' by {
      hide CheckBits, Represents;
    }
    forall m: nat | Admits(accepted, w.maxSeq, m)
      ensures CheckBits(w', m).1 <==> m != n && n < m + 64
    {
      CheckBitsRefines(w', Record(accepted, w.maxSeq, n), m);
      hide Represents;
    }
  }

  lemma MovedWhenAdmitted(w: BitWindow, accepted: set<nat>, n: nat)
    requires Represents(w, accepted) && Admits(accepted, w.maxSeq, n)
    ensures CheckBits(w, n).0 != w
  {
    CheckBitsRefines(w, accepted, n);
    if CheckBits(w, n).0 == w {
      CheckBitsRefines(w, accepted + {n}, n);
    }
  }

  // ---------------------------------------------------------------- a new session

  /** A new session is unestablished: it neither encrypts nor decrypts, and its numbers start from 1. */
  lemma NewSessionRefuses(suite: Suite, localId: Bytes, peerId: Bytes, plaintext: Bytes, p: Packet, newKey: PrivateKey,
                          nonce: Bytes)
    requires Fits(p) && |newKey.pub| == KEY_SIZE && |nonce| == NONCE_SIZE
    ensures
      var s := InitialState(localId, Some(peerId));
      && s == SessionState(localId, Some(peerId), None, BitWindow(0, 0), 0, 1, false)
      && EncryptMsg(suite, s, plaintext, newKey, nonce) == (s, Err(NotEstablished))
      && DecryptMsg(suite, s, p, newKey) == (s, Err(NotEstablished))
  {}
}
