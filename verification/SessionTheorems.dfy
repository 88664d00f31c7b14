/** What the ratchet theorems say about sessions: every conversation is a run of the two ratchets. */
module SessionTheorems {
  import opened Common
  import opened Keys
  import opened Primitives
  import opened Ratchets
  import opened Schedules
  import opened Lockstep
  import opened RatchetTheorems
  import opened SkippedCache
  import opened Secrecy
  import opened Deliveries
  import opened Replay
  import opened Packets
  import opened Sessions
  import opened Conversation

  /** One session step is one ratchet step, or none. */
  lemma TalkStepIsRatchetStep(suite: Suite, t: Talk, s: TalkStep)
    requires suite.Correct() && TalkOk(suite, t) && Callable(t) && TalkEnabled(t, s) && Reachable(suite, t.pair)
    ensures Reachable(suite, DoTalk(suite, t, s).pair)
  {
    hide Reachable, TalkOk, DoSend, DoReceive, SayCall, HearCall, RatchetSend;
    if s.Say? {
      SendIsEnabled(suite, t, s);
      ReachesNext(suite, t.pair, RatchetSend(suite, t, s));
    } else if s.i !in t.Heard(s.who) {
      SameCount(suite, t, s.who);
      ReachesNext(suite, t.pair, Receive(s.who, s.i, 0, s.newKey));
    }
  }

  /** Refinement: in every conversation the two ratchets are in a state the ratchet system reaches. */
  lemma {:induction false} EveryTalkIsARatchetRun(suite: Suite, idA: Bytes, idB: Bytes, e: Bytes, f: Bytes,
                                                  newKey: Bytes, run: seq<TalkStep>)
    requires suite.Correct() && FreshStart(e, f, newKey)
    requires TalkAdmissible(suite, StartTalk(idA, idB, e, f, newKey), run)
    ensures TalkOk(suite, TalkRun(suite, StartTalk(idA, idB, e, f, newKey), run))
    ensures Reachable(suite, TalkRun(suite, StartTalk(idA, idB, e, f, newKey), run).pair)
  {
    var t0 := StartTalk(idA, idB, e, f, newKey);
    StartTalkOk(suite, idA, idB, e, f, newKey);
    StartIsReachable(suite, e, f, newKey);
    assert t0.pair == Start(e, f, newKey);
    hide TalkOk, Callable, TalkEnabled, DoTalk, Reachable, StartTalk, Start;
    EveryTalkStaysOk(suite, t0, run);
    if run != [] {
      var front := run[..|run| - 1];
      EveryTalkIsARatchetRun(suite, idA, idB, e, f, newKey, front);
      TalkStepIsRatchetStep(suite, TalkRun(suite, t0, front), run[|run| - 1]);
    }
  }

  lemma StartIsReachable(suite: Suite, e: Bytes, f: Bytes, newKey: Bytes)
    requires FreshStart(e, f, newKey)
    ensures Reachable(suite, Start(e, f, newKey))
  {
    hide FreshStart, Start;
    assert Admissible(suite, Start(e, f, newKey), []) && Run(suite, Start(e, f, newKey), []) == Start(e, f, newKey);
  }

  predicate NothingCached(s: SessionState)
  {
    s.ratchet.Some? && s.ratchet.value.skipped == map[]
  }

  /** Sessions pass sequence 0 to the ratchet, so its skip loop never runs. */
  lemma CallsCacheNothing(suite: Suite, s: SessionState, plaintext: Bytes, nonce: Bytes, p: Packet, newKey: PrivateKey)
    requires NothingCached(s) && Holds(s) && s.peerId.Some? && Fits(p) && |newKey.pub| == KEY_SIZE
    requires |nonce| == NONCE_SIZE
    ensures NothingCached(EncryptMsg(suite, s, plaintext, newKey, nonce).0)
    ensures NothingCached(DecryptMsg(suite, s, p, newKey).0)
  {
    hide CheckBits;
  }

  lemma TalkStepCachesNothing(suite: Suite, t: Talk, s: TalkStep, who: Party)
    requires Callable(t) && TalkEnabled(t, s) && NothingCached(t.SessionOf(who))
    ensures NothingCached(DoTalk(suite, t, s).SessionOf(who))
  {
    hide EncryptMsg, DecryptMsg, NothingCached, DoSend, DoReceive, RatchetSend;
    if s.who == who && s.Say? {
      CallsCacheNothing(suite, t.SessionOf(who), s.plaintext, s.nonce, ZERO_PACKET, Priv(s.newKey));
    } else if s.who == who {
      CallsCacheNothing(suite, t.SessionOf(who), [], Zeros(NONCE_SIZE), t.SentBy(Other(who))[s.i], Priv(s.newKey));
    }
  }

  lemma {:induction false} EveryTalkCachesNothing(suite: Suite, t0: Talk, run: seq<TalkStep>, who: Party)
    requires TalkAdmissible(suite, t0, run) && NothingCached(t0.SessionOf(who))
    ensures NothingCached(TalkRun(suite, t0, run).SessionOf(who))
  {
    hide Callable, TalkEnabled, DoTalk, NothingCached;
    if run != [] {
      EveryTalkCachesNothing(suite, t0, run[..|run| - 1], who);
      TalkStepCachesNothing(suite, TalkRun(suite, t0, run[..|run| - 1]), run[|run| - 1], who);
    }
  }

  /** `p` carries a ciphertext sealed under the key of message `m`, with `p`'s header as AAD. */
  ghost predicate SealedUnder(suite: Suite, p: Packet, m: Message)
  {
    Fits(p) && p.nonce + p.payload == m.nonce + suite.seal(m.key, m.nonce, m.plaintext, Header(p))
  }

  lemma PacketIsSealed(suite: Suite, t: Talk, who: Party, i: nat)
    requires TalkOk(suite, t) && i < |t.SentBy(who)|
    ensures i < |t.pair.Outgoing(who).messages|
    ensures SealedUnder(suite, t.SentBy(who)[i], t.pair.Outgoing(who).messages[i])
  {
    hide NumbersOk, SessionOk, ScheduleOk, PlacesOk, SideOk, ParityOk, PendingOk, SignatureOk;
    TalkOkFrom(suite, t, who);
    PairOkFrom(suite, t.pair, who);
    hide PairOk, TalkOk;
    var m := t.pair.Outgoing(who).messages[i];
    assert Carries(suite, t.SessionOf(who).localId, t.SentBy(who)[i], m) && MessageOk(suite, m, t.pair.sch);
  }

  /**
   * Every packet is sealed under its own message key. The session of `who`, stolen, holds no
   * skipped keys; it yields the key of no packet it sent, and of a packet sent to it if and only if
   * it has not passed that packet yet.
   */
  ghost predicate PastIsSafe(suite: Suite, t: Talk, who: Party)
  {
    var sent, received := t.pair.Outgoing(who).messages, t.pair.Incoming(who).messages;
    && NothingCached(t.SessionOf(who)) && |sent| == |t.SentBy(who)| && |received| == |t.SentBy(Other(who))|
    && (forall i :: 0 <= i < |sent| ==>
          && SealedUnder(suite, t.SentBy(who)[i], sent[i])
          && !Derivable(sent[i].key, KnowledgeOf(t.SessionOf(who).ratchet.value)))
    && (forall i :: 0 <= i < |received| ==>
          && SealedUnder(suite, t.SentBy(Other(who))[i], received[i])
          && (Derivable(received[i].key, KnowledgeOf(t.SessionOf(who).ratchet.value))
              <==> i >= t.pair.Incoming(who).next))
    && (forall i, j :: 0 <= i < j < |sent| ==> sent[i].key != sent[j].key)
    && (forall i, j :: 0 <= i < |sent| && 0 <= j < |received| ==> sent[i].key != received[j].key)
  }

  /** Forward secrecy and key uniqueness, for every honest conversation. */
  lemma StolenSessionExposes(suite: Suite, idA: Bytes, idB: Bytes, e: Bytes, f: Bytes, newKey: Bytes,
                             run: seq<TalkStep>, who: Party)
    requires suite.Correct() && FreshStart(e, f, newKey)
    requires TalkAdmissible(suite, StartTalk(idA, idB, e, f, newKey), run)
    ensures PastIsSafe(suite, TalkRun(suite, StartTalk(idA, idB, e, f, newKey), run), who)
  {
    EveryTalkIsARatchetRun(suite, idA, idB, e, f, newKey, run);
    assert NothingCached(StartTalk(idA, idB, e, f, newKey).SessionOf(who));
    hide *;
    EveryTalkCachesNothing(suite, StartTalk(idA, idB, e, f, newKey), run, who);
    StolenAtState(suite, TalkRun(suite, StartTalk(idA, idB, e, f, newKey), run), who);
  }

  lemma NothingPassedWithinChain(suite: Suite, p: Pair, who: Party, i: nat)
    requires suite.OpensWhatItSeals() && Reachable(suite, p) && p.SideOf(who).st.skipped == map[]
    ensures !PassedOver(p.Incoming(who), i)
  {
    hide PassedOver, Reachable, GotOk;
    ReachableCaches(suite, p);
    CachesOkFrom(p, who);
  }

  lemma StolenAtState(suite: Suite, t: Talk, who: Party)
    requires suite.Correct() && TalkOk(suite, t) && Reachable(suite, t.pair) && NothingCached(t.SessionOf(who))
    ensures PastIsSafe(suite, t, who)
  {
    hide TalkOk, Reachable, KnowledgeOf, Derivable, SealedUnder, PassedOver;
    SameCount(suite, t, who);
    SameCount(suite, t, Other(who));
    RatchetOfSession(suite, t, who);
    StolenStateExposes(suite, t.pair, who);
    forall i: nat
      ensures !PassedOver(t.pair.Incoming(who), i)
    {
      NothingPassedWithinChain(suite, t.pair, who, i);
    }
    var sent, received := t.pair.Outgoing(who).messages, t.pair.Incoming(who).messages;
    forall i | 0 <= i < |sent|
      ensures SealedUnder(suite, t.SentBy(who)[i], sent[i])
    {
      PacketIsSealed(suite, t, who, i);
    }
    forall i | 0 <= i < |received|
      ensures SealedUnder(suite, t.SentBy(Other(who))[i], received[i])
    {
      PacketIsSealed(suite, t, Other(who), i);
    }
    forall i, j | 0 <= i < j < |sent|
      ensures sent[i].key != sent[j].key
    {
      if sent[i].key == sent[j].key {
        MessageKeysAreUnique(suite, t.pair, who, i, who, j);
      }
    }
    forall i, j | 0 <= i < |sent| && 0 <= j < |received|
      ensures sent[i].key != received[j].key
    {
      if sent[i].key == received[j].key {
        MessageKeysAreUnique(suite, t.pair, who, i, Other(who), j);
      }
    }
  }

  lemma RatchetOfSession(suite: Suite, t: Talk, who: Party)
    requires TalkOk(suite, t)
    ensures t.SessionOf(who).ratchet == Some(t.pair.SideOf(who).st)
  {
    hide PairOk, DirectionOk;
  }

  /**
   * Exactly which packets a session can hear: of those not given to it yet, the ratchet tries the
   * right key for the next packet of its chain and the first of a new one, and for no other.
   */
  lemma HearsExactly(suite: Suite, idA: Bytes, idB: Bytes, e: Bytes, f: Bytes, newKey: Bytes, run: seq<TalkStep>,
                     who: Party, i: nat, nextKey: Bytes)
    requires suite.Correct() && FreshStart(e, f, newKey)
    requires TalkAdmissible(suite, StartTalk(idA, idB, e, f, newKey), run)
    requires
      var t := TalkRun(suite, StartTalk(idA, idB, e, f, newKey), run);
      i < |t.SentBy(Other(who))| && i !in t.Heard(who) && IsFresh(t.pair.sch, nextKey)
    ensures
      var t := TalkRun(suite, StartTalk(idA, idB, e, f, newKey), run);
      && t.SessionOf(who).ratchet.Some? && i < |t.pair.Incoming(who).messages|
      && (TriedKey(t.SessionOf(who).ratchet.value, t.SentBy(Other(who))[i].ephemeral, 0, Priv(nextKey))
            == Some(t.pair.Incoming(who).messages[i].key)
          <==> TalkEnabled(t, Hear(who, i, nextKey)))
  {
    EveryTalkIsARatchetRun(suite, idA, idB, e, f, newKey, run);
    var t := TalkRun(suite, StartTalk(idA, idB, e, f, newKey), run);
    hide *;
    HearsAtState(suite, t, who, i, nextKey);
  }

  lemma HearsAtState(suite: Suite, t: Talk, who: Party, i: nat, nextKey: Bytes)
    requires suite.Correct() && TalkOk(suite, t) && Reachable(suite, t.pair)
    requires i < |t.SentBy(Other(who))| && i !in t.Heard(who) && IsFresh(t.pair.sch, nextKey)
    ensures t.SessionOf(who).ratchet.Some? && i < |t.pair.Incoming(who).messages|
    ensures
      TriedKey(t.SessionOf(who).ratchet.value, t.SentBy(Other(who))[i].ephemeral, 0, Priv(nextKey))
        == Some(t.pair.Incoming(who).messages[i].key)
      <==> TalkEnabled(t, Hear(who, i, nextKey))
  {
    hide TriedKey, Reachable, TalkOk, MayPick;
    SameCount(suite, t, who);
    RatchetOfSession(suite, t, who);
    CarriesItsKey(suite, t, Other(who), i);
    ZeroFindsNext(suite, t.pair, who, i, nextKey);
  }

  lemma CarriesItsKey(suite: Suite, t: Talk, who: Party, i: nat)
    requires TalkOk(suite, t) && i < |t.SentBy(who)|
    ensures i < |t.pair.Outgoing(who).messages|
    ensures t.SentBy(who)[i].ephemeral == t.pair.Outgoing(who).messages[i].sealed.ephemeral
  {
    hide NumbersOk, SessionOk, PairOk, SignatureOk, Represents;
    TalkOkFrom(suite, t, who);
    assert Carries(suite, t.SessionOf(who).localId, t.SentBy(who)[i], t.pair.Outgoing(who).messages[i]);
  }

  // ---------------------------------------------------------------- who talks to whom

  /** A data packet of the first epoch from one identity to the other. */
  ghost predicate Addressed(suite: Suite, from: Bytes, to: Bytes, p: Packet)
  {
    && p.typ == TYPE_DATA && p.epoch == 1
    && p.sender == suite.fingerprint(from) && p.recipient == suite.fingerprint(to)
  }

  ghost predicate AllAddressed(suite: Suite, from: Bytes, to: Bytes, ps: seq<Packet>)
  {
    forall p :: p in ps ==> Addressed(suite, from, to, p)
  }

  predicate Between(s: SessionState, id: Bytes, peer: Bytes)
  {
    s.localId == id && s.peerId == Some(peer) && s.epoch == 1
  }

  lemma CallsKeepIdentity(suite: Suite, s: SessionState, id: Bytes, peer: Bytes, plaintext: Bytes, nonce: Bytes,
                          p: Packet, newKey: PrivateKey)
    requires Between(s, id, peer) && Holds(s) && Fits(p) && |newKey.pub| == KEY_SIZE && |nonce| == NONCE_SIZE
    ensures Between(EncryptMsg(suite, s, plaintext, newKey, nonce).0, id, peer)
    ensures Between(DecryptMsg(suite, s, p, newKey).0, id, peer)
    ensures EncryptMsg(suite, s, plaintext, newKey, nonce).1.Ok? ==>
              Addressed(suite, id, peer, EncryptMsg(suite, s, plaintext, newKey, nonce).1.value)
  {
    hide CheckBits, Encrypt, Decrypt;
  }

  lemma TalkStepAddresses(suite: Suite, t: Talk, s: TalkStep, who: Party, id: Bytes, peer: Bytes)
    requires Callable(t) && TalkEnabled(t, s)
    requires Between(t.SessionOf(who), id, peer) && AllAddressed(suite, id, peer, t.SentBy(who))
    ensures Between(DoTalk(suite, t, s).SessionOf(who), id, peer)
    ensures AllAddressed(suite, id, peer, DoTalk(suite, t, s).SentBy(who))
  {
    hide EncryptMsg, DecryptMsg, Between, DoSend, DoReceive, RatchetSend, Addressed;
    if s.who == who && s.Say? {
      CallsKeepIdentity(suite, t.SessionOf(who), id, peer, s.plaintext, s.nonce, ZERO_PACKET, Priv(s.newKey));
    } else if s.who == who {
      CallsKeepIdentity(suite, t.SessionOf(who), id, peer, [], Zeros(NONCE_SIZE), t.SentBy(Other(who))[s.i],
                        Priv(s.newKey));
    }
  }

  /** In every conversation each packet names its sender and its receiver. */
  lemma {:induction false} EveryPacketIsAddressed(suite: Suite, t0: Talk, run: seq<TalkStep>, who: Party, id: Bytes,
                                                  peer: Bytes)
    requires TalkAdmissible(suite, t0, run)
    requires Between(t0.SessionOf(who), id, peer) && AllAddressed(suite, id, peer, t0.SentBy(who))
    ensures Between(TalkRun(suite, t0, run).SessionOf(who), id, peer)
    ensures AllAddressed(suite, id, peer, TalkRun(suite, t0, run).SentBy(who))
  {
    hide Callable, TalkEnabled, DoTalk, Between, AllAddressed;
    if run != [] {
      EveryPacketIsAddressed(suite, t0, run[..|run| - 1], who, id, peer);
      TalkStepAddresses(suite, TalkRun(suite, t0, run[..|run| - 1]), run[|run| - 1], who, id, peer);
    }
  }
}
