/**
 * Two sessions after an honest handshake, exchanging packets: sends cross freely, each direction
 * keeps order and may lose the rest of a chain before a new one, and delivered packets come again
 * at will. `pair` is the history of the two ratchets in the terms of module Lockstep.
 */
module Conversation {
  import opened Common
  import opened Keys
  import opened Primitives
  import opened Ratchets
  import opened Replay
  import opened Packets
  import opened Sessions
  import opened Schedules
  import opened Lockstep

  datatype Talk = Talk(a: SessionState, b: SessionState, ab: seq<Packet>, ba: seq<Packet>, pair: Pair)
  {
    function SessionOf(who: Party): SessionState { if who.Initiator? then a else b }
    function SentBy(who: Party): seq<Packet> { if who.Initiator? then ab else ba }

    /** The packets sent to `who` that it was given, by index. */
    function Heard(who: Party): set<nat> { pair.Incoming(who).got }

    /** This conversation with `who`'s part of it replaced. */
    function With(who: Party, s: SessionState, sent: seq<Packet>, history: Pair): Talk
    {
      if who.Initiator? then Talk(s, b, sent, ba, history) else Talk(a, s, ab, sent, history)
    }
  }

  datatype TalkStep =
    | Say(who: Party, plaintext: Bytes, newKey: Bytes, nonce: Bytes)
    | Hear(who: Party, i: nat, newKey: Bytes)

  // ---------------------------------------------------------------- handshake

  /** Session `a` opens a handshake, `b` answers it, `a` completes on that answer. */
  function Handshake(suite: Suite, a: SessionState, b: SessionState, e: Bytes, f: Bytes, newKey: Bytes)
    : Result<(SessionState, SessionState), SessionError>
    requires Holds(a) && Holds(b) && a.peerId.Some? && b.peerId.Some?
    requires |e| == |f| == |newKey| == KEY_SIZE
  {
    var init := HandshakePacket(suite, a, TYPE_HANDSHAKE_INIT, Priv(e));
    match Respond(suite, b, init, Priv(f))
    case (_, Err(error)) => Err(error)
    case (b', Ok(resp)) =>
      match Complete(suite, a, resp, Priv(e), Priv(newKey))
      case (_, Err(error)) => Err(error)
      case (a', Ok(_)) => Ok((a', b'))
  }

  lemma HonestKeyIsTaken(suite: Suite, s: SessionState, typ: nat, key: PrivateKey)
    requires suite.VerifiesWhatItSigns() && Holds(s) && s.peerId.Some? && typ < 256 && |key.pub| == KEY_SIZE
    ensures RemoteKey(suite, s.localId, HandshakePacket(suite, s, typ, key)) == Ok(key.pub)
    ensures HandshakePacket(suite, s, typ, key).typ == typ
  {
    var p := HandshakePacket(suite, s, typ, key);
    assert p.payload[..32] == key.pub && p.payload[32..96] == suite.sign(s.localId, key.pub);
  }

  /**
   * Handshake agreement: sessions that name each other as peers complete, both derive the same
   * master secret, and their ratchets are a start of the lockstep system.
   */
  lemma HandshakeAgreement(suite: Suite, a: SessionState, b: SessionState, e: Bytes, f: Bytes, newKey: Bytes)
    requires suite.VerifiesWhatItSigns() && Holds(a) && Holds(b)
    requires a.peerId == Some(b.localId) && b.peerId == Some(a.localId)
    requires |e| == |f| == |newKey| == KEY_SIZE
    ensures
      var secret := Master(SharedSecret(Priv(e), f));
      var p := Start(e, f, newKey);
      && Handshake(suite, a, b, e, f, newKey) ==
           Ok((a.(ratchet := Some(p.a.st), established := true), b.(ratchet := Some(p.b.st), established := true)))
      && p.b.st.rk == secret && p.a.st.rk == Root(secret, SharedSecret(Priv(newKey), f))
  {
    HonestKeyIsTaken(suite, a, TYPE_HANDSHAKE_INIT, Priv(e));
    HonestKeyIsTaken(suite, b, TYPE_HANDSHAKE_RESP, Priv(f));
    SharedSecretSymmetric(Priv(e), Priv(f));
  }

  /** Two new sessions that name each other as peers, after their handshake. */
  function StartTalk(idA: Bytes, idB: Bytes, e: Bytes, f: Bytes, newKey: Bytes): Talk
  {
    var p := Start(e, f, newKey);
    Talk(InitialState(idA, Some(idB)).(ratchet := Some(p.a.st), established := true),
         InitialState(idB, Some(idA)).(ratchet := Some(p.b.st), established := true), [], [], p)
  }

  lemma StartTalkIsHandshake(suite: Suite, idA: Bytes, idB: Bytes, e: Bytes, f: Bytes, newKey: Bytes)
    requires suite.VerifiesWhatItSigns() && |e| == |f| == |newKey| == KEY_SIZE
    ensures
      var t := StartTalk(idA, idB, e, f, newKey);
      Handshake(suite, InitialState(idA, Some(idB)), InitialState(idB, Some(idA)), e, f, newKey) == Ok((t.a, t.b))
  {
    HandshakeAgreement(suite, InitialState(idA, Some(idB)), InitialState(idB, Some(idA)), e, f, newKey);
  }

  // ---------------------------------------------------------------- steps

  /**
   * A delivery is a repeat, or a packet that the ratchet can follow with sequence 0: the next of
   * its chain or the first of a new one. The 64-bit sequence number is not exhausted.
   */
  predicate TalkEnabled(t: Talk, s: TalkStep)
  {
    && IsFresh(t.pair.sch, s.newKey)
    && match s
       case Say(who, _, _, nonce) => |nonce| == NONCE_SIZE && t.SessionOf(who).outSequence + 1 < TWO_64
       case Hear(who, i, _) =>
         i < |t.SentBy(Other(who))| && (i in t.Heard(who) || MayPick(t.pair.SideOf(who), t.pair.Incoming(who), i, 0))
  }

  /** Both sessions are ready to be called. */
  predicate Callable(t: Talk)
  {
    && Holds(t.a) && Holds(t.b) && t.a.peerId.Some? && t.b.peerId.Some?
    && (forall p :: p in t.ab ==> Fits(p))
    && (forall p :: p in t.ba ==> Fits(p))
  }

  function SayCall(suite: Suite, t: Talk, s: TalkStep): (SessionState, Result<Packet, SessionError>)
    requires Callable(t) && s.Say? && |s.newKey| == KEY_SIZE && |s.nonce| == NONCE_SIZE
  {
    EncryptMsg(suite, t.SessionOf(s.who), s.plaintext, Priv(s.newKey), s.nonce)
  }

  function HearCall(suite: Suite, t: Talk, s: TalkStep): (SessionState, Result<Bytes, SessionError>)
    requires Callable(t) && s.Hear? && s.i < |t.SentBy(Other(s.who))|
  {
    DecryptMsg(suite, t.SessionOf(s.who), t.SentBy(Other(s.who))[s.i], Priv(s.newKey))
  }

  /** The draft EncryptMessage starts from. */
  function NextDraft(suite: Suite, s: SessionState): (p: Packet)
    requires Holds(s) && s.peerId.Some?
    ensures Fits(p)
  {
    Draft(suite, s, TYPE_DATA, Inc64(s.outSequence))
  }

  /** The ratchet step behind a send. */
  function RatchetSend(suite: Suite, t: Talk, s: TalkStep): Step
    requires Callable(t) && s.Say?
  {
    Send(s.who, s.plaintext, [], Some(AadOf(NextDraft(suite, t.SessionOf(s.who)))), s.newKey, s.nonce)
  }

  function DoTalk(suite: Suite, t: Talk, s: TalkStep): Talk
    requires Callable(t) && TalkEnabled(t, s)
  {
    match s
    case Say(who, _, _, _) =>
      var (sess, r) := SayCall(suite, t, s);
      var sent := t.SentBy(who) + if r.Ok? then [r.value] else [];
      t.With(who, sess, sent, DoSend(suite, t.pair, RatchetSend(suite, t, s)))
    case Hear(who, i, newKey) =>
      var history := if i !in t.Heard(who) then DoReceive(suite, t.pair, Receive(who, i, 0, newKey)) else t.pair;
      t.With(who, HearCall(suite, t, s).0, t.SentBy(who), history)
  }

  // ---------------------------------------------------------------- invariant

  /** `p` is the packet that carries ratchet message `m` under the identity of its sender. */
  ghost predicate Carries(suite: Suite, localId: Bytes, p: Packet, m: Message)
  {
    && Fits(p) && p.version == CURRENT_VERSION
    && p.ephemeral == m.sealed.ephemeral && p.nonce + p.payload == m.sealed.full
    && Header(p) == m.aad && SignatureOk(suite, localId, p)
  }

  ghost predicate PacketsOk(suite: Suite, localId: Bytes, ps: seq<Packet>, ms: seq<Message>)
  {
    |ps| == |ms| && forall i :: 0 <= i < |ps| ==> Carries(suite, localId, ps[i], ms[i])
  }

  /** Sequence numbers go up, from 1 to the sender's counter. */
  ghost predicate NumbersOk(outSequence: nat, ps: seq<Packet>)
  {
    && (forall i :: 0 <= i < |ps| ==> 0 < ps[i].sequence <= outSequence)
    && forall i, j :: 0 <= i < j < |ps| ==> ps[i].sequence < ps[j].sequence
  }

  /** The numbers of the packets given. */
  function Numbers(ps: seq<Packet>, given: set<nat>): set<nat>
  {
    set i | i in given && i < |ps| :: ps[i].sequence
  }

  ghost predicate SessionOk(s: SessionState, peer: SessionState, side: Side)
  {
    && s.established && s.epoch < TWO_32
    && s.peerId == Some(peer.localId)
    && s.ratchet == Some(side.st) && |side.st.dhLocal.pub| == KEY_SIZE
  }

  /** One direction: from session `x` to session `y`. */
  ghost predicate DirectionOk(suite: Suite, x: SessionState, y: SessionState, ps: seq<Packet>, ch: Channel)
  {
    && PacketsOk(suite, x.localId, ps, ch.messages)
    && NumbersOk(x.outSequence, ps)
    && GotOk(ch)
    && Represents(y.window, Numbers(ps, ch.got))
  }

  ghost predicate TalkOk(suite: Suite, t: Talk)
  {
    && PairOk(suite, t.pair)
    && SessionOk(t.a, t.b, t.pair.a) && SessionOk(t.b, t.a, t.pair.b)
    && DirectionOk(suite, t.a, t.b, t.ab, t.pair.ab) && DirectionOk(suite, t.b, t.a, t.ba, t.pair.ba)
  }

  lemma TalkOkFrom(suite: Suite, t: Talk, who: Party)
    ensures TalkOk(suite, t) <==>
              && PairOk(suite, t.pair)
              && SessionOk(t.SessionOf(who), t.SessionOf(Other(who)), t.pair.SideOf(who))
              && SessionOk(t.SessionOf(Other(who)), t.SessionOf(who), t.pair.SideOf(Other(who)))
              && DirectionOk(suite, t.SessionOf(who), t.SessionOf(Other(who)), t.SentBy(who), t.pair.Outgoing(who))
              && DirectionOk(suite, t.SessionOf(Other(who)), t.SessionOf(who), t.SentBy(Other(who)),
                             t.pair.Incoming(who))
  {
    hide PairOk, SessionOk, DirectionOk;
  }

  lemma TalkIsCallable(suite: Suite, t: Talk)
    requires TalkOk(suite, t)
    ensures Callable(t)
  {
    hide PairOk, Represents, NumbersOk;
    forall p | p in t.ab
      ensures Fits(p)
    {
      var i :| 0 <= i < |t.ab| && t.ab[i] == p;
      assert Carries(suite, t.a.localId, t.ab[i], t.pair.ab.messages[i]);
    }
    forall p | p in t.ba
      ensures Fits(p)
    {
      var i :| 0 <= i < |t.ba| && t.ba[i] == p;
      assert Carries(suite, t.b.localId, t.ba[i], t.pair.ba.messages[i]);
    }
  }

  // ---------------------------------------------------------------- sending

  /** EncryptMessage in terms of the ratchet call inside it. */
  lemma EncryptMsgShape(suite: Suite, s: SessionState, plaintext: Bytes, newKey: Bytes, nonce: Bytes)
    requires Holds(s) && s.peerId.Some? && s.established && s.ratchet.Some? && |newKey| == KEY_SIZE
    requires |nonce| == NONCE_SIZE
    ensures
      var draft := NextDraft(suite, s);
      var (st, sealed) := Encrypt(suite, s.ratchet.value, plaintext, [], Some(AadOf(draft)), Priv(newKey), nonce);
      var (s', r) := EncryptMsg(suite, s, plaintext, Priv(newKey), nonce);
      && s' == s.(outSequence := Inc64(s.outSequence), ratchet := Some(st))
      && (r.Ok? <==> sealed.Ok?)
      && (r.Ok? ==>
            && |sealed.value.ephemeral| == KEY_SIZE && |sealed.value.full| >= NONCE_SIZE
            && r.value == Signed(suite, s.localId, DataPacket(draft, sealed.value)))
  {
    var s1 := s.(outSequence := Inc64(s.outSequence));
    assert Draft(suite, s1, TYPE_DATA, s1.outSequence) == NextDraft(suite, s);
    var getAad := Some(AadOf(NextDraft(suite, s)));
    assert |Encrypt(suite, s.ratchet.value, plaintext, [], getAad, Priv(newKey), nonce).0.dhLocal.pub| == KEY_SIZE;
  }

  /** A signed data packet carries the message it was made from. */
  lemma DataPacketCarries(suite: Suite, localId: Bytes, draft: Packet, m: Message)
    requires suite.VerifiesWhatItSigns() && Fits(draft) && draft.version == CURRENT_VERSION
    requires |m.sealed.ephemeral| == KEY_SIZE && |m.sealed.full| >= NONCE_SIZE
    requires m.aad == AadOf(draft)(m.sealed.ephemeral)
    ensures Carries(suite, localId, Signed(suite, localId, DataPacket(draft, m.sealed)), m)
    ensures Signed(suite, localId, DataPacket(draft, m.sealed)).sequence == draft.sequence
  {
    var p := Signed(suite, localId, DataPacket(draft, m.sealed));
    assert p.nonce + p.payload == m.sealed.full;
    assert Header(p) == Header(draft.(ephemeral := m.sealed.ephemeral));
  }

  /** One direction after its sender appended a packet. */
  lemma DirectionAppends(suite: Suite, x: SessionState, x': SessionState, y: SessionState, ps: seq<Packet>, ch: Channel,
                         p: Packet, m: Message)
    requires DirectionOk(suite, x, y, ps, ch)
    requires x'.localId == x.localId && x'.outSequence == x.outSequence + 1
    requires Carries(suite, x.localId, p, m) && p.sequence == x'.outSequence
    ensures DirectionOk(suite, x', y, ps + [p], ch.(messages := ch.messages + [m]))
  {
    hide Represents, Carries;
    assert forall i :: 0 <= i < |ps| ==> (ps + [p])[i] == ps[i] && (ch.messages + [m])[i] == ch.messages[i];
    assert Numbers(ps + [p], ch.got) == Numbers(ps, ch.got);
  }

  /** A direction does not depend on the other fields of the two sessions. */
  lemma DirectionKept(suite: Suite, x: SessionState, x': SessionState, y: SessionState, y': SessionState,
                      ps: seq<Packet>, ch: Channel)
    requires DirectionOk(suite, x, y, ps, ch)
    requires x'.localId == x.localId && x'.outSequence >= x.outSequence && y'.window == y.window
    ensures DirectionOk(suite, x', y', ps, ch)
  {
    hide Represents, Carries;
  }

  lemma SessionKept(s: SessionState, s': SessionState, peer: SessionState, peer': SessionState, side: Side, side': Side)
    requires SessionOk(s, peer, side)
    requires s' == s.(outSequence := s'.outSequence, window := s'.window, ratchet := Some(side'.st))
    requires peer'.localId == peer.localId && |side'.st.dhLocal.pub| == KEY_SIZE
    ensures SessionOk(s', peer', side')
  {}

  /** A side in step holds a key of the proper size. */
  lemma SideKeySize(suite: Suite, p: Pair, who: Party)
    requires PairOk(suite, p)
    ensures |p.SideOf(who).st.dhLocal.pub| == KEY_SIZE && SideOk(p.SideOf(who), p.sch)
  {
    hide PlacesOk, SentOk, PendingOk, ParityOk, RootKey, ChainKey, Advance;
  }

  /** EncryptMessage and the ratchet history, side by side. */
  lemma SayShape(suite: Suite, t: Talk, s: TalkStep)
    requires suite.Correct() && Callable(t) && s.Say? && TalkEnabled(t, s)
    requires SessionOk(t.SessionOf(s.who), t.SessionOf(Other(s.who)), t.pair.SideOf(s.who))
    requires SideOk(t.pair.SideOf(s.who), t.pair.sch)
    ensures
      var x, side := t.SessionOf(s.who), t.pair.SideOf(s.who);
      var (x', r) := SayCall(suite, t, s);
      var pair' := DoSend(suite, t.pair, RatchetSend(suite, t, s));
      && x' == x.(outSequence := x.outSequence + 1, ratchet := Some(pair'.SideOf(s.who).st))
      && pair'.SideOf(Other(s.who)) == t.pair.SideOf(Other(s.who))
      && pair'.Incoming(s.who) == t.pair.Incoming(s.who)
      && (r.Ok? <==> side.gen > 0)
      && (if side.gen == 0 then pair' == t.pair
          else exists m ::
                 && pair'.Outgoing(s.who) == t.pair.Outgoing(s.who).(messages := t.pair.Outgoing(s.who).messages + [m])
                 && Carries(suite, x.localId, r.value, m) && r.value.sequence == x.outSequence + 1)
  {
    hide SideOk, MessageOk, Encrypt, DoSend, EncryptMsg, Carries, NextDraft, Signed, DataPacket, AadOf, Outbound,
         CallersAad;
    var x, side := t.SessionOf(s.who), t.pair.SideOf(s.who);
    var draft := NextDraft(suite, x);
    SendShape(suite, t.pair, RatchetSend(suite, t, s));
    EncryptMsgShape(suite, x, s.plaintext, s.newKey, s.nonce);
    if side.gen > 0 {
      DraftFields(suite, x);
      OutboundIsCarried(suite, x.localId, draft, side, s.plaintext, s.nonce);
    }
  }

  /** The packet made from a draft and the message the ratchet sealed for it. */
  lemma OutboundIsCarried(suite: Suite, localId: Bytes, draft: Packet, side: Side, plaintext: Bytes, nonce: Bytes)
    requires suite.VerifiesWhatItSigns() && Fits(draft) && draft.version == CURRENT_VERSION
    requires side.st.cks.Some? && |side.st.dhLocal.pub| == KEY_SIZE && |nonce| == NONCE_SIZE
    ensures
      var m := Outbound(suite, side, plaintext, CallersAad(side.st.dhLocal.pub, [], Some(AadOf(draft))), nonce);
      && |m.sealed.ephemeral| == KEY_SIZE && |m.sealed.full| >= NONCE_SIZE
      && Carries(suite, localId, Signed(suite, localId, DataPacket(draft, m.sealed)), m)
      && Signed(suite, localId, DataPacket(draft, m.sealed)).sequence == draft.sequence
  {
    hide Carries, AadOf, Signed, DataPacket;
    var m := Outbound(suite, side, plaintext, CallersAad(side.st.dhLocal.pub, [], Some(AadOf(draft))), nonce);
    DataPacketCarries(suite, localId, draft, m);
  }

  lemma DraftFields(suite: Suite, s: SessionState)
    requires Holds(s) && s.peerId.Some?
    ensures NextDraft(suite, s).version == CURRENT_VERSION && NextDraft(suite, s).sequence == Inc64(s.outSequence)
  {}

  lemma SayKeeps(suite: Suite, t: Talk, s: TalkStep)
    requires suite.Correct() && TalkOk(suite, t) && Callable(t) && s.Say? && TalkEnabled(t, s)
    ensures TalkOk(suite, DoTalk(suite, t, s))
    ensures SayCall(suite, t, s).1.Ok? <==> t.pair.SideOf(s.who).gen > 0
    ensures !SayCall(suite, t, s).1.Ok? ==> DoTalk(suite, t, s).pair == t.pair
  {
    hide PairOk, SideOk, MessageOk, PacketsOk, NumbersOk, Represents, DirectionOk, SessionOk, DoSend, TalkOk, SayCall,
         RatchetSend, Carries;
    var who := s.who;
    var x, y := t.SessionOf(who), t.SessionOf(Other(who));
    var t' := DoTalk(suite, t, s);
    var side, side' := t.pair.SideOf(who), t'.pair.SideOf(who);
    var peerSide := t.pair.SideOf(Other(who));
    TalkOkFrom(suite, t, who);
    TalkOkFrom(suite, t', who);
    SideKeySize(suite, t.pair, who);
    SendIsEnabled(suite, t, s);
    DoSendKeeps(suite, t.pair, RatchetSend(suite, t, s));
    SideKeySize(suite, t'.pair, who);
    SayShape(suite, t, s);
    var x' := t'.SessionOf(who);
    SessionKept(x, x', y, y, side, side');
    SessionSeesPeer(y, x, x', peerSide);
    DirectionKept(suite, y, y, x, x', t.SentBy(Other(who)), t.pair.Incoming(who));
    if side.gen > 0 {
      var ch := t.pair.Outgoing(who);
      var p := SayCall(suite, t, s).1.value;
      var m :| && t'.pair.Outgoing(who) == ch.(messages := ch.messages + [m])
               && Carries(suite, x.localId, p, m) && p.sequence == x.outSequence + 1;
      DirectionAppends(suite, x, x', y, t.SentBy(who), ch, p, m);
    } else {
      assert t'.SentBy(who) == t.SentBy(who);
      DirectionKept(suite, x, x', y, y, t.SentBy(who), t.pair.Outgoing(who));
    }
  }

  lemma SendIsEnabled(suite: Suite, t: Talk, s: TalkStep)
    requires Callable(t) && s.Say? && TalkEnabled(t, s)
    ensures RatchetSend(suite, t, s).Send? && RatchetSend(suite, t, s).who == s.who
    ensures Enabled(t.pair, RatchetSend(suite, t, s))
  {}

  lemma SessionSeesPeer(s: SessionState, peer: SessionState, peer': SessionState, side: Side)
    requires SessionOk(s, peer, side) && peer'.localId == peer.localId
    ensures SessionOk(s, peer', side)
  {}

  // ---------------------------------------------------------------- receiving

  /** A packet beyond those given is new to the window. */
  lemma WindowAdmitsNext(window: BitWindow, outSequence: nat, ps: seq<Packet>, given: set<nat>, i: nat)
    requires NumbersOk(outSequence, ps) && i < |ps| && (forall j :: j in given ==> j < i)
    requires Represents(window, Numbers(ps, given))
    ensures CheckBits(window, ps[i].sequence).1
    ensures Represents(CheckBits(window, ps[i].sequence).0, Numbers(ps, given + {i}))
  {
    hide Bit;
    var accepted := Numbers(ps, given);
    assert IsMax(accepted, window.maxSeq);
    CheckBitsRefines(window, accepted, ps[i].sequence);
    assert Numbers(ps, given + {i}) == accepted + {ps[i].sequence};
    hide Represents, CheckBits;
    assert Admits(accepted, window.maxSeq, ps[i].sequence);
  }

  /** A packet delivered before is turned away, and the window stays as it is. */
  lemma WindowRejectsRepeat(window: BitWindow, ps: seq<Packet>, given: set<nat>, i: nat)
    requires i in given && i < |ps| && Represents(window, Numbers(ps, given))
    ensures CheckBits(window, ps[i].sequence) == (window, false)
  {
    assert ps[i].sequence in Numbers(ps, given);
    CheckBitsRefines(window, Numbers(ps, given), ps[i].sequence);
    hide Represents, CheckBits;
  }

  /** DecryptMessage on a new packet, in terms of the ratchet call inside it. */
  lemma DecryptMsgShape(suite: Suite, s: SessionState, peer: SessionState, side: Side, p: Packet, m: Message,
                        newKey: Bytes)
    requires SessionOk(s, peer, side) && Carries(suite, peer.localId, p, m) && CheckBits(s.window, p.sequence).1
    ensures
      var (st, r) := Decrypt(suite, side.st, m.sealed.ephemeral, m.sealed.full, m.aad, 0, Priv(newKey));
      var (s', r') := DecryptMsg(suite, s, p, Priv(newKey));
      && s' == s.(window := CheckBits(s.window, p.sequence).0, ratchet := Some(st))
      && (r.Ok? ==> r' == Ok(r.value))
  {
    hide Decrypt, CheckBits;
  }

  lemma NextMessage(suite: Suite, x: SessionState, y: SessionState, ps: seq<Packet>, ch: Channel, i: nat)
    requires DirectionOk(suite, x, y, ps, ch) && i < |ps|
    ensures i < |ch.messages| && Carries(suite, x.localId, ps[i], ch.messages[i])
    ensures Fits(ps[i])
  {
    hide Represents;
  }

  lemma DirectionAdvances(suite: Suite, x: SessionState, y: SessionState, y': SessionState, ps: seq<Packet>,
                          ch: Channel, i: nat)
    requires DirectionOk(suite, x, y, ps, ch) && ch.next <= i < |ps|
    requires y'.window == CheckBits(y.window, ps[i].sequence).0
    ensures CheckBits(y.window, ps[i].sequence).1
    ensures DirectionOk(suite, x, y', ps, ch.(next := i + 1, got := ch.got + {i}))
  {
    hide Represents, CheckBits, Carries;
    WindowAdmitsNext(y.window, x.outSequence, ps, ch.got, i);
  }

  /** A first delivery yields the plaintext that was sent. */
  lemma FirstHearKeeps(suite: Suite, t: Talk, s: TalkStep)
    requires suite.Correct() && TalkOk(suite, t) && Callable(t) && s.Hear? && TalkEnabled(t, s)
    requires s.i !in t.Heard(s.who)
    ensures TalkOk(suite, DoTalk(suite, t, s))
    ensures s.i < |t.pair.Incoming(s.who).messages|
    ensures HearCall(suite, t, s).1 == Ok(t.pair.Incoming(s.who).messages[s.i].plaintext)
  {
    hide PairOk, SideOk, PacketsOk, NumbersOk, Represents, DirectionOk, Decrypt, DoReceive, TalkOk, DecryptMsg,
         Carries, CheckBits;
    var who := s.who;
    var y, x := t.SessionOf(who), t.SessionOf(Other(who));
    var ps, ch := t.SentBy(Other(who)), t.pair.Incoming(who);
    var t' := DoTalk(suite, t, s);
    TalkOkFrom(suite, t, who);
    TalkOkFrom(suite, t', who);
    NextMessage(suite, x, y, ps, ch, s.i);
    var step := Receive(who, s.i, 0, s.newKey);
    DoReceiveKeeps(suite, t.pair, step);
    ReceiveShape(suite, t.pair, step);
    SideKeySize(suite, t'.pair, who);
    var y' := t'.SessionOf(who);
    DirectionAdvances(suite, x, y, y.(window := CheckBits(y.window, ps[s.i].sequence).0), ps, ch, s.i);
    DecryptMsgShape(suite, y, x, t.pair.SideOf(who), ps[s.i], ch.messages[s.i], s.newKey);
    DirectionKept(suite, x, x, y.(window := CheckBits(y.window, ps[s.i].sequence).0), y', ps, t'.pair.Incoming(who));
    DirectionKept(suite, y, y', x, x, t.SentBy(who), t.pair.Outgoing(who));
    SessionKept(y, y', x, x, t.pair.SideOf(who), t'.pair.SideOf(who));
    SessionKept(x, x, y, y', t.pair.SideOf(Other(who)), t.pair.SideOf(Other(who)));
  }

  /** A repeat is turned away and changes nothing at all. */
  lemma RepeatedHearRejected(suite: Suite, t: Talk, s: TalkStep)
    requires TalkOk(suite, t) && Callable(t) && s.Hear? && TalkEnabled(t, s) && s.i in t.Heard(s.who)
    ensures HearCall(suite, t, s) == (t.SessionOf(s.who), Err(Replayed))
    ensures DoTalk(suite, t, s) == t
  {
    hide PairOk, Represents, PacketsOk, NumbersOk, CheckBits, Decrypt;
    TalkOkFrom(suite, t, s.who);
    WindowRejectsRepeat(t.SessionOf(s.who).window, t.SentBy(Other(s.who)), t.Heard(s.who), s.i);
  }

  // ---------------------------------------------------------------- runs

  /** Every step is enabled where it is taken (and the calls are defined, which TalkIsCallable shows they are). */
  predicate TalkAdmissible(suite: Suite, t: Talk, run: seq<TalkStep>)
    decreases |run|, 0
  {
    run == [] ||
    (TalkAdmissible(suite, t, run[..|run| - 1]) &&
     Callable(TalkRun(suite, t, run[..|run| - 1])) && TalkEnabled(TalkRun(suite, t, run[..|run| - 1]), run[|run| - 1]))
  }

  function TalkRun(suite: Suite, t: Talk, run: seq<TalkStep>): Talk
    requires TalkAdmissible(suite, t, run)
    decreases |run|, 1
  {
    if run == [] then t else DoTalk(suite, TalkRun(suite, t, run[..|run| - 1]), run[|run| - 1])
  }

  lemma StartTalkOk(suite: Suite, idA: Bytes, idB: Bytes, e: Bytes, f: Bytes, newKey: Bytes)
    requires FreshStart(e, f, newKey)
    ensures TalkOk(suite, StartTalk(idA, idB, e, f, newKey))
  {
    StartOk(suite, e, f, newKey);
    EmptyRepresents();
    hide PairOk, Represents;
    assert Numbers([], {}) == {};
  }

  /** One enabled step, of either kind. */
  lemma DoTalkKeeps(suite: Suite, t: Talk, s: TalkStep)
    requires suite.Correct() && TalkOk(suite, t) && Callable(t) && TalkEnabled(t, s)
    ensures TalkOk(suite, DoTalk(suite, t, s))
  {
    hide TalkOk, DoTalk;
    if s.Say? {
      SayKeeps(suite, t, s);
    } else if s.i !in t.Heard(s.who) {
      FirstHearKeeps(suite, t, s);
    } else {
      RepeatedHearRejected(suite, t, s);
    }
  }

  lemma {:induction false} EveryTalkStaysOk(suite: Suite, t: Talk, run: seq<TalkStep>)
    requires suite.Correct() && TalkOk(suite, t) && TalkAdmissible(suite, t, run)
    ensures TalkOk(suite, TalkRun(suite, t, run)) && Callable(TalkRun(suite, t, run))
  {
    hide TalkOk, Callable, TalkEnabled, DoTalk;
    if run != [] {
      EveryTalkStaysOk(suite, t, run[..|run| - 1]);
      DoTalkKeeps(suite, TalkRun(suite, t, run[..|run| - 1]), run[|run| - 1]);
    }
    TalkIsCallable(suite, TalkRun(suite, t, run));
  }

  /** The first packet beyond those delivered can always be heard: without loss nothing else is asked. */
  lemma NextMayBeHeard(suite: Suite, t: Talk, who: Party, newKey: Bytes)
    requires TalkOk(suite, t) && IsFresh(t.pair.sch, newKey) && t.pair.Incoming(who).next < |t.SentBy(Other(who))|
    ensures TalkEnabled(t, Hear(who, t.pair.Incoming(who).next, newKey))
    ensures t.pair.Incoming(who).next !in t.Heard(who)
  {
    hide SideOk, SentOk, PlacesOk, PendingOk, ScheduleOk, Represents, NumbersOk, Carries, ParityOk;
    TalkOkFrom(suite, t, who);
    PairOkFrom(suite, t.pair, who);
    PickedGeneration(t.pair.SideOf(who), t.pair.Incoming(who), t.pair.Incoming(who).next);
    PickedPlace(t.pair.SideOf(Other(who)), t.pair.SideOf(who), t.pair.Incoming(who), t.pair.Incoming(who).next);
  }

  /**
   * After an honest handshake, in every interleaving, also when the rest of a chain is lost before
   * a new one: each first delivery returns exactly the plaintext sent, and each repeat is rejected
   * with both sessions unchanged.
   */
  lemma EveryDeliveryIsExact(suite: Suite, idA: Bytes, idB: Bytes, e: Bytes, f: Bytes, newKey: Bytes,
                             run: seq<TalkStep>, s: TalkStep)
    requires suite.Correct() && FreshStart(e, f, newKey)
    requires TalkAdmissible(suite, StartTalk(idA, idB, e, f, newKey), run)
    requires s.Hear? && TalkEnabled(TalkRun(suite, StartTalk(idA, idB, e, f, newKey), run), s)
    ensures
      var t := TalkRun(suite, StartTalk(idA, idB, e, f, newKey), run);
      && Callable(t)
      && |t.pair.Incoming(s.who).messages| == |t.SentBy(Other(s.who))|
      && (s.i !in t.Heard(s.who) ==> HearCall(suite, t, s).1 == Ok(t.pair.Incoming(s.who).messages[s.i].plaintext))
      && (s.i in t.Heard(s.who) ==> HearCall(suite, t, s).1 == Err(Replayed) && DoTalk(suite, t, s) == t)
  {
    hide DoTalk, HearCall, Callable, TalkEnabled;
    var t0 := StartTalk(idA, idB, e, f, newKey);
    StartTalkOk(suite, idA, idB, e, f, newKey);
    EveryTalkStaysOk(suite, t0, run);
    var t := TalkRun(suite, t0, run);
    SameCount(suite, t, s.who);
    hide TalkOk, StartTalk, TalkRun;
    if s.i !in t.Heard(s.who) {
      FirstHearKeeps(suite, t, s);
    } else {
      RepeatedHearRejected(suite, t, s);
    }
  }

  lemma SameCount(suite: Suite, t: Talk, who: Party)
    requires TalkOk(suite, t)
    ensures |t.pair.Incoming(who).messages| == |t.SentBy(Other(who))|
  {
    hide PairOk, Carries, Represents, NumbersOk;
  }

  /**
   * A send is refused exactly when a responder has heard nothing yet; the refusal costs a sequence
   * number and leaves the rest of the session, the ratchet included, as it was.
   */
  lemma RefusedSay(suite: Suite, t: Talk, s: TalkStep)
    requires suite.Correct() && TalkOk(suite, t) && Callable(t) && s.Say? && TalkEnabled(t, s)
    ensures SayCall(suite, t, s).1.Err? <==> s.who.Responder? && t.Heard(s.who) == {}
    ensures SayCall(suite, t, s).1.Err? ==>
              SayCall(suite, t, s).0 == t.SessionOf(s.who).(outSequence := t.SessionOf(s.who).outSequence + 1)
  {
    hide SideOk, Represents, PacketsOk, NumbersOk, SayCall, RatchetSend, Carries, DoSend, PlacesOk, SentOk,
         DirectionOk;
    TalkOkFrom(suite, t, s.who);
    SideKeySize(suite, t.pair, s.who);
    SayShape(suite, t, s);
    PairOkFrom(suite, t.pair, s.who);
    hide SessionOk, PairOk;
  }

  /**
   * Beyond the 64-bit counter: the packet sent after sequence number 2^64 - 1 carries number 0,
   * and every session rejects it.
   */
  lemma SequenceExhaustion(suite: Suite, s: SessionState, plaintext: Bytes, newKey: PrivateKey, nonce: Bytes,
                           other: SessionState, otherKey: PrivateKey)
    requires Holds(s) && s.peerId.Some? && |newKey.pub| == KEY_SIZE && |nonce| == NONCE_SIZE && other.peerId.Some?
    requires s.outSequence == TWO_64 - 1
    ensures
      var (_, r) := EncryptMsg(suite, s, plaintext, newKey, nonce);
      r.Ok? ==> r.value.sequence == 0 && DecryptMsg(suite, other, r.value, otherKey).1.Err?
  {
    hide Encrypt, Decrypt;
  }
}
