/**
 * Exactly which deliveries a ratchet can open: for every message on a channel, delivered, pending,
 * lost or late, and every sequence number passed with it, when RatchetDecrypt tries the right key.
 */
module Deliveries {
  import opened Common
  import opened Keys
  import opened Primitives
  import opened Ratchets
  import opened Schedules
  import opened Lockstep
  import opened RatchetTheorems
  import opened SkippedCache

  /** The message key that RatchetDecrypt opens with; None when it has no receiving chain. */
  function TriedKey(st: RatchetState, ephemeral: Bytes, sequence: nat, newKey: PrivateKey): Option<Key>
  {
    var s1 := ReadyToReceive(st, ephemeral, newKey);
    if s1.ckr.None? then None else Some(Msg(Skip(s1, ephemeral, sequence).ckr.value))
  }

  /** Where on its chain the skip loop stops when it starts `start` places along. */
  function StopsAt(start: nat, sequence: nat): nat
  {
    var nr := (1 + start) % TWO_32;
    start + if sequence > nr then sequence - nr else 0
  }

  /** RatchetDecrypt opens under the tried key and under no other. */
  lemma DecryptOpensUnderTriedKey(suite: Suite, st: RatchetState, ephemeral: Bytes, full: Bytes, aad: Bytes,
                                  sequence: nat, newKey: PrivateKey)
    requires |full| >= NONCE_SIZE && |ephemeral| == KEY_SIZE
    ensures
      Decrypt(suite, st, ephemeral, full, aad, sequence, newKey).1 ==
      match TriedKey(st, ephemeral, sequence, newKey)
      case None => Err(BadChainKey)
      case Some(key) =>
        match suite.open(key, full[..NONCE_SIZE], full[NONCE_SIZE..], aad)
        case None => Err(OpenFailed)
        case Some(plaintext) => Ok(plaintext)
  {
    hide ReadyToReceive, Skip;
  }

  // ---------------------------------------------------------------- chains

  /** The chain key that root steps opened, under any number of steps along the chain. */
  function Base(k: Key): Key
  {
    match k
    case Next(chain) => Base(chain)
    case _ => k
  }

  lemma {:induction false} AdvanceKeepsBase(k: Key, n: nat)
    ensures Base(Advance(k, n)) == Base(k)
  {
    if n > 0 {
      AdvanceKeepsBase(k, n - 1);
    }
  }

  lemma SkipStopsAt(st: RatchetState, chain: Key, start: nat, peer: Bytes, sequence: nat)
    requires st.ckr == Some(Advance(chain, start)) && st.nr == (1 + start) % TWO_32
    ensures Skip(st, peer, sequence).ckr == Some(Advance(chain, StopsAt(start, sequence)))
  {
    SkipAdvances(st, peer, sequence);
    AdvanceSum(chain, start, if sequence > st.nr then sequence - st.nr else 0);
    hide Skip, Advance;
  }

  /** On the chain the message belongs to, the key is right exactly when the loop stops at its place. */
  lemma OnItsChain(suite: Suite, y: Side, m: Message, sequence: nat, newKey: Bytes, sch: Schedule)
    requires ScheduleOk(sch) && SideOk(y, sch) && MessageOk(suite, m, sch)
    requires m.gen == y.gen - 1 || (m.gen == y.gen + 1 && |sch.keys| == y.gen + 2 && IsFresh(sch, newKey))
    ensures TriedKey(y.st, m.sealed.ephemeral, sequence, Priv(newKey)) == Some(m.key)
            <==> StopsAt(StartPosition(y, m), sequence) == m.pos - 1
  {
    var start := StartPosition(y, m);
    ReadyChain(suite, y, m, newKey, sch);
    hide ReadyToReceive, SideOk, ScheduleOk, StartPosition, Skip;
    SkipStopsAt(ReadyToReceive(y.st, m.sealed.ephemeral, Priv(newKey)), ChainKey(sch, m.gen), start,
                m.sealed.ephemeral, sequence);
    hide StopsAt, Advance, ChainKey;
    if Advance(ChainKey(sch, m.gen), StopsAt(start, sequence)) == Advance(ChainKey(sch, m.gen), m.pos - 1) {
      AdvanceInjective(sch, m.gen, m.gen, StopsAt(start, sequence), m.pos - 1);
    }
  }

  /** A message of an older chain: its key is taken for a new one, and a chain no peer has is opened. */
  lemma OnStaleKey(suite: Suite, y: Side, m: Message, sequence: nat, newKey: Bytes, sch: Schedule)
    requires ScheduleOk(sch) && SideOk(y, sch) && MessageOk(suite, m, sch) && m.gen + 1 < y.gen
    ensures
      var dh := Dh({sch.keys[y.gen], sch.keys[m.gen]});
      var s1 := ReadyToReceive(y.st, m.sealed.ephemeral, Priv(newKey));
      && s1.rk == Root(Root(RootKey(sch, y.gen), dh), Dh({newKey, sch.keys[m.gen]}))
      && s1.ckr == Some(Chain(RootKey(sch, y.gen), dh))
  {
    assert y.st.dhPeer != Some(sch.keys[m.gen]);
  }

  lemma StaleChainIsWrong(suite: Suite, y: Side, m: Message, sequence: nat, newKey: Bytes, sch: Schedule)
    requires ScheduleOk(sch) && SideOk(y, sch) && MessageOk(suite, m, sch) && m.gen + 1 < y.gen
    ensures TriedKey(y.st, m.sealed.ephemeral, sequence, Priv(newKey)) != Some(m.key)
  {
    OnStaleKey(suite, y, m, sequence, newKey, sch);
    hide ReadyToReceive, SideOk, ScheduleOk, Skip, RootKey;
    var s1 := ReadyToReceive(y.st, m.sealed.ephemeral, Priv(newKey));
    SkipAdvances(s1, m.sealed.ephemeral, sequence);
    var n := if sequence > s1.nr then sequence - s1.nr else 0;
    AdvanceKeepsBase(s1.ckr.value, n);
    AdvanceKeepsBase(ChainKey(sch, m.gen), m.pos - 1);
    RootInjective(sch, y.gen, m.gen - 1);
  }

  // ---------------------------------------------------------------- the exact condition

  /** Where a message that its receiver has passed stands. */
  lemma PassedPlace(x: Side, y: Side, ch: Channel, i: nat)
    requires PlacesOk(x, ch.messages) && PendingOk(y, ch) && i < ch.next
    ensures ch.messages[i].gen < y.gen
    ensures ch.messages[i].gen == y.gen - 1 ==> ch.messages[i].pos <= y.rcvd
  {
    if i < ch.next - 1 {
      assert Before(ch.messages[i], ch.messages[ch.next - 1]);
    }
  }

  /**
   * In every reachable state, for every message ever put on the channel and every sequence number
   * passed with it: RatchetDecrypt tries the message's own key if and only if the message was not
   * passed yet and the skip loop, from where the receiver stands, stops at the message's place.
   */
  lemma RightKeyExactly(suite: Suite, p: Pair, who: Party, i: nat, sequence: nat, newKey: Bytes)
    requires suite.OpensWhatItSeals() && Reachable(suite, p)
    requires i < |p.Incoming(who).messages| && IsFresh(p.sch, newKey)
    ensures
      var y, ch := p.SideOf(who), p.Incoming(who);
      var m := ch.messages[i];
      TriedKey(y.st, m.sealed.ephemeral, sequence, Priv(newKey)) == Some(m.key)
      <==> i >= ch.next && StopsAt(StartPosition(y, m), sequence) == m.pos - 1
  {
    hide TriedKey, SideOk, PlacesOk, PendingOk, ScheduleOk, MessageOk, StopsAt, GotOk, Reachable;
    ReachableOk(suite, p);
    PairOkFrom(suite, p, who);
    hide PairOk;
    var x, y, ch := p.SideOf(Other(who)), p.SideOf(who), p.Incoming(who);
    var m := ch.messages[i];
    assert MessageOk(suite, m, p.sch);
    SealedPlace(suite, m, p.sch);
    if i >= ch.next {
      PickedGeneration(y, ch, i);
      OnItsChain(suite, y, m, sequence, newKey, p.sch);
    } else {
      PassedPlace(x, y, ch, i);
      if m.gen == y.gen - 1 {
        OnItsChain(suite, y, m, sequence, newKey, p.sch);
        StopsNoEarlier(y.rcvd, sequence);
      } else {
        StaleChainIsWrong(suite, y, m, sequence, newKey, p.sch);
      }
    }
  }

  lemma StopsNoEarlier(start: nat, sequence: nat)
    ensures start <= StopsAt(start, sequence)
  {}

  /** With the counter RatchetEncrypt returned, below its wrap: right exactly when not yet passed. */
  lemma OwnCounterFindsPending(suite: Suite, p: Pair, who: Party, i: nat, newKey: Bytes)
    requires suite.OpensWhatItSeals() && Reachable(suite, p)
    requires i < |p.Incoming(who).messages| && IsFresh(p.sch, newKey) && p.Incoming(who).messages[i].pos < TWO_32
    ensures
      var y, ch := p.SideOf(who), p.Incoming(who);
      var m := ch.messages[i];
      TriedKey(y.st, m.sealed.ephemeral, m.sealed.sequence, Priv(newKey)) == Some(m.key) <==> i >= ch.next
  {
    hide TriedKey, Reachable, StopsAt, IsFresh, StartPosition;
    var m := p.Incoming(who).messages[i];
    RightKeyExactly(suite, p, who, i, m.sealed.sequence, newKey);
    PendingPlace(suite, p, who, i);
    if i >= p.Incoming(who).next {
      CounterStops(StartPosition(p.SideOf(who), m), m.pos);
    }
  }

  /** A message not passed yet lies ahead of where the receiver starts. */
  lemma PendingPlace(suite: Suite, p: Pair, who: Party, i: nat)
    requires suite.OpensWhatItSeals() && Reachable(suite, p) && i < |p.Incoming(who).messages|
    ensures p.Incoming(who).messages[i].sealed.sequence == p.Incoming(who).messages[i].pos % TWO_32
    ensures i >= p.Incoming(who).next ==>
              StartPosition(p.SideOf(who), p.Incoming(who).messages[i]) < p.Incoming(who).messages[i].pos
  {
    hide SideOk, PlacesOk, PendingOk, ScheduleOk, GotOk, Reachable, MessageOk;
    ReachableOk(suite, p);
    PairOkFrom(suite, p, who);
    hide PairOk, InStep, ParityOk;
    var x, y, ch := p.SideOf(Other(who)), p.SideOf(who), p.Incoming(who);
    assert MessageOk(suite, ch.messages[i], p.sch);
    SealedPlace(suite, ch.messages[i], p.sch);
    if i >= ch.next {
      PickedGeneration(y, ch, i);
      PickedPlace(x, y, ch, i);
    }
  }

  lemma CounterStops(start: nat, pos: nat)
    requires start < pos < TWO_32
    ensures StopsAt(start, pos) == pos - 1
  {}

  lemma SealedPlace(suite: Suite, m: Message, sch: Schedule)
    requires MessageOk(suite, m, sch)
    ensures 1 <= m.gen < |sch.keys| && 1 <= m.pos && m.sealed.sequence == m.pos % TWO_32
  {
    hide MessageKey;
  }

  /** With sequence 0, as sessions call it: right exactly for the next of a chain or the first of a new one. */
  lemma ZeroFindsNext(suite: Suite, p: Pair, who: Party, i: nat, newKey: Bytes)
    requires suite.OpensWhatItSeals() && Reachable(suite, p)
    requires i < |p.Incoming(who).messages| && IsFresh(p.sch, newKey)
    ensures
      var y, ch := p.SideOf(who), p.Incoming(who);
      var m := ch.messages[i];
      TriedKey(y.st, m.sealed.ephemeral, 0, Priv(newKey)) == Some(m.key) <==> MayPick(y, ch, i, 0)
  {
    RightKeyExactly(suite, p, who, i, 0, newKey);
    hide TriedKey, Reachable, IsFresh;
  }

  // ---------------------------------------------------------------- late messages

  /**
   * A message that comes late stays unread although its key is cached: with whatever sequence
   * number it comes, another key is tried.
   */
  lemma LateThoughCached(suite: Suite, p: Pair, who: Party, i: nat, sequence: nat, newKey: Bytes)
    requires suite.OpensWhatItSeals() && Reachable(suite, p)
    requires PassedOver(p.Incoming(who), i) && IsFresh(p.sch, newKey)
    ensures
      var st, m := p.SideOf(who).st, p.Incoming(who).messages[i];
      && Slot(m) in st.skipped && st.skipped[Slot(m)] == m.key
      && TriedKey(st, m.sealed.ephemeral, sequence, Priv(newKey)) != Some(m.key)
  {
    hide TriedKey, Reachable, IsFresh, GotOk;
    ReachableCaches(suite, p);
    CachesOkFrom(p, who);
    RightKeyExactly(suite, p, who, i, sequence, newKey);
  }

  /** Such a message exists: of two messages the second is delivered with its counter. */
  lemma OneMessageComesLate(suite: Suite, e: Bytes, f: Bytes, newKey: Bytes, second: Bytes, third: Bytes, fourth: Bytes,
                            plaintext: Bytes, nonce: Bytes)
    requires suite.OpensWhatItSeals() && FreshStart(e, f, newKey) && |nonce| == NONCE_SIZE
    requires forall k :: k in {second, third, fourth} ==> IsFresh(Schedule(e, [f, newKey]), k)
    ensures
      var send := (key: Bytes) => Send(Initiator, plaintext, [], None, key, nonce);
      var run := [send(second)] + [send(third)] + [Receive(Responder, 1, 2, fourth)];
      && Admissible(suite, Start(e, f, newKey), run)
      && PassedOver(Run(suite, Start(e, f, newKey), run).ab, 0)
  {
    hide FreshStart, IsFresh, PassedOver, Reachable, Start, Run, Admissible;
    var p0 := Start(e, f, newKey);
    var s1 := Send(Initiator, plaintext, [], None, second, nonce);
    var s2 := Send(Initiator, plaintext, [], None, third, nonce);
    assert [] + [s1] == [s1];
    NothingRun(suite, p0);
    NothingSent(suite, e, f, newKey);
    InitiatorGoesOn(suite, p0, [], s1);
    InitiatorGoesOn(suite, p0, [s1], s2);
    SecondFirst(suite, p0, [s1] + [s2], fourth);
  }

  /** The initiator has sent `n` messages on its first chain, and nothing was received. */
  ghost predicate OnlySent(suite: Suite, p: Pair, sch: Schedule, n: nat)
  {
    && PairOk(suite, p) && p.sch == sch && p.a.gen == 1 && p.a.sent == n && p.b.gen == 0
    && |p.ab.messages| == n && p.ab.next == 0
    && forall i :: 0 <= i < n ==>
         && p.ab.messages[i].gen == 1 && p.ab.messages[i].pos == i + 1
         && p.ab.messages[i].sealed.sequence == (i + 1) % TWO_32
  }

  lemma NothingSent(suite: Suite, e: Bytes, f: Bytes, newKey: Bytes)
    requires FreshStart(e, f, newKey)
    ensures OnlySent(suite, Start(e, f, newKey), Schedule(e, [f, newKey]), 0)
  {
    StartOk(suite, e, f, newKey);
    hide PairOk;
  }

  lemma InitiatorGoesOn(suite: Suite, p0: Pair, run: seq<Step>, s: Step)
    requires Admissible(suite, p0, run) && OnlySent(suite, Run(suite, p0, run), p0.sch, |run|)
    requires s.Send? && s.who.Initiator? && IsFresh(p0.sch, s.newKey) && |s.nonce| == NONCE_SIZE
    ensures Admissible(suite, p0, run + [s]) && OnlySent(suite, Run(suite, p0, run + [s]), p0.sch, |run| + 1)
  {
    hide PairOk, Do, IsFresh, Run, Admissible;
    var p := Run(suite, p0, run);
    InitiatorSends(suite, p, s);
    RunGoesOn(suite, p0, run, s);
  }

  /** With two messages sent, the second can be received first, and the first is passed over. */
  lemma SecondFirst(suite: Suite, p0: Pair, run: seq<Step>, newKey: Bytes)
    requires Admissible(suite, p0, run) && OnlySent(suite, Run(suite, p0, run), p0.sch, 2) && IsFresh(p0.sch, newKey)
    ensures
      var s := Receive(Responder, 1, 2, newKey);
      Admissible(suite, p0, run + [s]) && PassedOver(Run(suite, p0, run + [s]).ab, 0)
  {
    hide PairOk, DoReceive, IsFresh, Run, Admissible;
    var p, s := Run(suite, p0, run), Receive(Responder, 1, 2, newKey);
    RunGoesOn(suite, p0, run, s);
    ReceiveShape(suite, p, s);
    assert 1 in Do(suite, p, s).ab.got && 0 !in p.ab.got by {
      NothingGot(suite, p);
    }
  }

  lemma NothingGot(suite: Suite, p: Pair)
    requires PairOk(suite, p) && p.ab.next == 0
    ensures 0 !in p.ab.got
  {
    hide ScheduleOk, SideOk, PlacesOk, PendingOk, SentOk, ParityOk, InStep;
  }

  lemma InitiatorSends(suite: Suite, p: Pair, s: Step)
    requires PairOk(suite, p) && s.Send? && s.who.Initiator? && Enabled(p, s) && p.a.gen > 0
    ensures PairOk(suite, Do(suite, p, s))
    ensures
      var p' := Do(suite, p, s);
      && p'.b == p.b && p'.sch == p.sch && p'.a.gen == p.a.gen && p'.a.sent == p.a.sent + 1
      && |p'.ab.messages| == |p.ab.messages| + 1 && p'.ab == p.ab.(messages := p'.ab.messages)
      && p.ab.messages <= p'.ab.messages
      && var m := p'.ab.messages[|p.ab.messages|];
         m.gen == p.a.gen && m.pos == p.a.sent + 1 && m.sealed.sequence == (1 + p.a.sent) % TWO_32
  {
    hide ScheduleOk, PlacesOk, PendingOk, SentOk, GotOk, MessageOk, ParityOk;
    DoSendKeeps(suite, p, s);
    PairOkFrom(suite, p, Initiator);
    hide DoSend, SendCall;
    SendShape(suite, p, s);
  }

  lemma NothingRun(suite: Suite, p: Pair)
    ensures Admissible(suite, p, []) && Run(suite, p, []) == p
  {}

  lemma RunGoesOn(suite: Suite, p: Pair, run: seq<Step>, s: Step)
    requires Admissible(suite, p, run) && Enabled(Run(suite, p, run), s)
    ensures Admissible(suite, p, run + [s]) && Run(suite, p, run + [s]) == Do(suite, Run(suite, p, run), s)
  {
    hide Do, Enabled;
    assert (run + [s])[..|run + [s]| - 1] == run;
  }

  // ---------------------------------------------------------------- what a late message does to the ratchet

  lemma DecryptedState(suite: Suite, st: RatchetState, m: Message, sequence: nat, newKey: PrivateKey)
    requires |m.sealed.full| >= NONCE_SIZE && |m.sealed.ephemeral| == KEY_SIZE
    requires ReadyToReceive(st, m.sealed.ephemeral, newKey).ckr.Some?
    ensures
      var s1 := ReadyToReceive(st, m.sealed.ephemeral, newKey);
      var st' := Decrypt(suite, st, m.sealed.ephemeral, m.sealed.full, m.aad, sequence, newKey).0;
      st'.rk == s1.rk && st'.ckr == Some(Next(Skip(s1, m.sealed.ephemeral, sequence).ckr.value))
  {
    var s1 := ReadyToReceive(st, m.sealed.ephemeral, newKey);
    SkipAdvances(s1, m.sealed.ephemeral, sequence);
    hide ReadyToReceive, Skip;
  }

  /** The receiver after a late message of its own chain: one place beyond where the skip loop stopped. */
  function AfterLate(suite: Suite, y: Side, m: Message, sequence: nat, newKey: Bytes): Side
  {
    y.(st := Decrypt(suite, y.st, m.sealed.ephemeral, m.sealed.full, m.aad, sequence, Priv(newKey)).0,
       rcvd := StopsAt(y.rcvd, sequence) + 1)
  }

  /** RatchetDecrypt on the receiver's own chain: the skip loop, then one more place. */
  lemma DecryptsAlong(suite: Suite, st: RatchetState, m: Message, sequence: nat, newKey: PrivateKey)
    requires |m.sealed.full| >= NONCE_SIZE && |m.sealed.ephemeral| == KEY_SIZE
    requires ReadyToReceive(st, m.sealed.ephemeral, newKey) == st && st.ckr.Some?
    ensures
      var s2 := Skip(st, m.sealed.ephemeral, sequence);
      Decrypt(suite, st, m.sealed.ephemeral, m.sealed.full, m.aad, sequence, newKey).0 ==
      s2.(ckr := Some(Next(s2.ckr.value)), nr := Inc32(s2.nr))
  {
    hide ReadyToReceive, Skip;
  }

  lemma CounterAfter(start: nat, sequence: nat)
    ensures
      var nr := (1 + start) % TWO_32;
      Inc32(nr + if sequence > nr then sequence - nr else 0) == (1 + (StopsAt(start, sequence) + 1)) % TWO_32
  {}

  lemma LateSideOk(suite: Suite, y: Side, m: Message, sequence: nat, newKey: Bytes, sch: Schedule)
    requires ScheduleOk(sch) && SideOk(y, sch) && MessageOk(suite, m, sch) && m.gen == y.gen - 1
    ensures SideOk(AfterLate(suite, y, m, sequence, newKey), sch)
  {
    OwnChainStays(suite, y, m, newKey, sch);
    SealedSizes(suite, m, sch);
    hide ScheduleOk, MessageOk, ReadyToReceive, Skip, RootKey, ChainKey, Decrypt, Advance, StopsAt, Inc32;
    DecryptsAlong(suite, y.st, m, sequence, Priv(newKey));
    SkipAdvances(y.st, m.sealed.ephemeral, sequence);
    SkipStopsAt(y.st, ChainKey(sch, m.gen), y.rcvd, m.sealed.ephemeral, sequence);
    CounterAfter(y.rcvd, sequence);
    NextPlace(ChainKey(sch, m.gen), StopsAt(y.rcvd, sequence));
  }

  lemma NextPlace(k: Key, n: nat)
    ensures Next(Advance(k, n)) == Advance(k, n + 1)
  {}

  /**
   * Exactly what a late message of the receiver's own chain costs: it moves the chain on, so of the
   * pending messages those of that chain have their key found from one place beyond where the skip
   * loop stopped; those of a new chain are found as before.
   */
  lemma LateMessageTakesAPlace(suite: Suite, p: Pair, who: Party, i: nat, sequence: nat, newKey: Bytes,
                               k: nat, nextSequence: nat, nextKey: Bytes)
    requires suite.OpensWhatItSeals() && Reachable(suite, p)
    requires i < p.Incoming(who).next <= k < |p.Incoming(who).messages| && IsFresh(p.sch, nextKey)
    requires p.Incoming(who).messages[i].gen == p.SideOf(who).gen - 1
    ensures
      var y, late, m := p.SideOf(who), p.Incoming(who).messages[i], p.Incoming(who).messages[k];
      var st' := Decrypt(suite, y.st, late.sealed.ephemeral, late.sealed.full, late.aad, sequence, Priv(newKey)).0;
      var start := if m.gen == y.gen - 1 then StopsAt(y.rcvd, sequence) + 1 else 0;
      TriedKey(st', m.sealed.ephemeral, nextSequence, Priv(nextKey)) == Some(m.key)
      <==> StopsAt(start, nextSequence) == m.pos - 1
  {
    hide TriedKey, SideOk, PlacesOk, PendingOk, ScheduleOk, MessageOk, StopsAt, GotOk, Reachable, Decrypt;
    ReachableOk(suite, p);
    PairOkFrom(suite, p, who);
    hide PairOk;
    var y, ch := p.SideOf(who), p.Incoming(who);
    assert MessageOk(suite, ch.messages[i], p.sch) && MessageOk(suite, ch.messages[k], p.sch);
    SealedPlace(suite, ch.messages[k], p.sch);
    PickedGeneration(y, ch, k);
    LateSideOk(suite, y, ch.messages[i], sequence, newKey, p.sch);
    var y' := AfterLate(suite, y, ch.messages[i], sequence, newKey);
    OnItsChain(suite, y', ch.messages[k], nextSequence, nextKey, p.sch);
  }

  /** Where that leaves the ratchet: its root key as it was, its chain one place beyond the stop. */
  lemma LateMessageMovesChain(suite: Suite, p: Pair, who: Party, i: nat, sequence: nat, newKey: Bytes)
    requires suite.OpensWhatItSeals() && Reachable(suite, p)
    requires i < |p.Incoming(who).messages| && i < p.Incoming(who).next
    requires p.Incoming(who).messages[i].gen == p.SideOf(who).gen - 1
    ensures
      var y, m := p.SideOf(who), p.Incoming(who).messages[i];
      var st' := Decrypt(suite, y.st, m.sealed.ephemeral, m.sealed.full, m.aad, sequence, Priv(newKey)).0;
      && 1 <= m.gen < |p.sch.keys| && st'.rk == y.st.rk
      && st'.ckr == Some(Advance(ChainKey(p.sch, m.gen), StopsAt(y.rcvd, sequence) + 1))
  {
    hide PlacesOk, PendingOk, ScheduleOk, MessageOk, StopsAt, GotOk, Reachable, Decrypt, RootKey, ChainKey, Advance;
    ReachableOk(suite, p);
    PairOkFrom(suite, p, who);
    hide PairOk;
    var y, m := p.SideOf(who), p.Incoming(who).messages[i];
    assert MessageOk(suite, m, p.sch);
    SealedPlace(suite, m, p.sch);
    LateSideOk(suite, y, m, sequence, newKey, p.sch);
  }

  lemma OwnChainStays(suite: Suite, y: Side, m: Message, newKey: Bytes, sch: Schedule)
    requires ScheduleOk(sch) && SideOk(y, sch) && MessageOk(suite, m, sch) && m.gen == y.gen - 1
    ensures ReadyToReceive(y.st, m.sealed.ephemeral, Priv(newKey)) == y.st
  {}

  /**
   * Of an older chain, a late message derails the ratchet: its root key and its receiving chain are
   * then none of the common schedule's, however that goes on.
   */
  lemma LateMessageDerails(suite: Suite, p: Pair, who: Party, i: nat, sequence: nat, newKey: Bytes, later: Schedule)
    requires suite.OpensWhatItSeals() && Reachable(suite, p)
    requires i < |p.Incoming(who).messages| && i < p.Incoming(who).next
    requires p.Incoming(who).messages[i].gen != p.SideOf(who).gen - 1
    requires ScheduleOk(later) && later.handshake == p.sch.handshake && p.sch.keys <= later.keys
    ensures
      var y, m := p.SideOf(who), p.Incoming(who).messages[i];
      var st' := Decrypt(suite, y.st, m.sealed.ephemeral, m.sealed.full, m.aad, sequence, Priv(newKey)).0;
      && (forall g: nat :: g < |later.keys| ==> st'.rk != RootKey(later, g))
      && (forall g: nat, n: nat :: 1 <= g < |later.keys| ==> st'.ckr != Some(Advance(ChainKey(later, g), n)))
  {
    hide SideOk, PlacesOk, PendingOk, ScheduleOk, MessageOk, GotOk, Reachable, Decrypt, Skip, ReadyToReceive, RootKey,
         ChainKey;
    ReachableOk(suite, p);
    PairOkFrom(suite, p, who);
    hide PairOk;
    var x, y, ch := p.SideOf(Other(who)), p.SideOf(who), p.Incoming(who);
    var m := ch.messages[i];
    assert MessageOk(suite, m, p.sch);
    SealedSizes(suite, m, p.sch);
    SealedPlace(suite, m, p.sch);
    PassedPlace(x, y, ch, i);
    OnStaleKey(suite, y, m, sequence, newKey, p.sch);
    DecryptedState(suite, y.st, m, sequence, Priv(newKey));
    var s1 := ReadyToReceive(y.st, m.sealed.ephemeral, Priv(newKey));
    SkipAdvances(s1, m.sealed.ephemeral, sequence);
    AdvanceKeepsBase(s1.ckr.value, if sequence > s1.nr then sequence - s1.nr else 0);
    RootInLaterSchedule(p.sch, later, y.gen);
    var dh := Dh({p.sch.keys[y.gen], p.sch.keys[m.gen]});
    assert p.sch.keys[y.gen] == later.keys[y.gen] && p.sch.keys[m.gen] == later.keys[m.gen];
    forall g: nat | g < |later.keys|
      ensures Root(Root(RootKey(p.sch, y.gen), dh), Dh({newKey, p.sch.keys[m.gen]})) != RootKey(later, g)
    {
      StaleRootIsNone(later, y.gen, m.gen, Dh({newKey, p.sch.keys[m.gen]}), g);
    }
    forall g: nat, n: nat | 1 <= g < |later.keys|
      ensures Chain(RootKey(p.sch, y.gen), dh) != Base(Advance(ChainKey(later, g), n))
    {
      StaleChainIsNone(later, y.gen, m.gen, g, n);
    }
  }

  lemma StaleStepIsNone(sch: Schedule, g: nat, back: nat, j: nat)
    requires ScheduleOk(sch) && back < g < |sch.keys| && 1 <= j < |sch.keys|
    requires RootKey(sch, j - 1) == RootKey(sch, g)
    ensures StepSecret(sch, j) != Dh({sch.keys[g], sch.keys[back]})
  {
    if j - 1 != g {
      RootInjective(sch, j - 1, g);
    }
    hide RootKey;
    assert sch.keys[j] in StepSecret(sch, j).ends;
  }

  lemma StaleRootIsNone(sch: Schedule, g: nat, back: nat, dh: DhSecret, j: nat)
    requires ScheduleOk(sch) && back < g < |sch.keys| && j < |sch.keys|
    ensures RootKey(sch, j) != Root(Root(RootKey(sch, g), Dh({sch.keys[g], sch.keys[back]})), dh)
  {
    if j >= 2 && RootKey(sch, j - 2) == RootKey(sch, g) {
      StaleStepIsNone(sch, g, back, j - 1);
    }
  }

  lemma StaleChainIsNone(sch: Schedule, g: nat, back: nat, j: nat, n: nat)
    requires ScheduleOk(sch) && back < g < |sch.keys| && 1 <= j < |sch.keys|
    ensures Base(Advance(ChainKey(sch, j), n)) != Chain(RootKey(sch, g), Dh({sch.keys[g], sch.keys[back]}))
  {
    AdvanceKeepsBase(ChainKey(sch, j), n);
    if RootKey(sch, j - 1) == RootKey(sch, g) {
      StaleStepIsNone(sch, g, back, j);
    }
  }
}
