/** What the ratchet's cache of skipped keys holds after a lossy in-order run. */
module SkippedCache {
  import opened Common
  import opened Keys
  import opened Primitives
  import opened Ratchets
  import opened Schedules
  import opened Lockstep
  import opened RatchetTheorems

  /** Message `i` was passed over: it is lost, and a later message of its chain was delivered. */
  ghost predicate PassedOver(ch: Channel, i: nat)
  {
    && i < ch.next <= |ch.messages| && i !in ch.got
    && exists j :: j in ch.got && i < j < |ch.messages| && ch.messages[j].gen == ch.messages[i].gen
  }

  /** The cache slot of a message. */
  function Slot(m: Message): (Bytes, nat)
  {
    (m.sealed.ephemeral, m.pos)
  }

  /** The cache holds exactly the messages passed over, each under the key its sender used. */
  ghost predicate CacheOk(skipped: map<(Bytes, nat), Key>, ch: Channel)
  {
    && (forall i: nat :: PassedOver(ch, i) ==>
          Slot(ch.messages[i]) in skipped && skipped[Slot(ch.messages[i])] == ch.messages[i].key)
    && (forall slot :: slot in skipped ==> exists i: nat :: PassedOver(ch, i) && slot == Slot(ch.messages[i]))
  }

  ghost predicate CachesOk(p: Pair)
  {
    && GotOk(p.ab) && CacheOk(p.b.st.skipped, p.ab)
    && GotOk(p.ba) && CacheOk(p.a.st.skipped, p.ba)
  }

  // ---------------------------------------------------------------- the skip loop and the channel

  /** The skip loop fills the slots from the current counter up to `sequence`. */
  lemma {:induction false} SkipCaches(st: RatchetState, peer: Bytes, sequence: nat, slot: (Bytes, nat))
    requires st.ckr.Some?
    ensures
      var skipped := Skip(st, peer, sequence).skipped;
      if slot.0 == peer && st.nr <= slot.1 < sequence
      then slot in skipped && skipped[slot] == Msg(Advance(st.ckr.value, slot.1 - st.nr))
      else (slot in skipped <==> slot in st.skipped) && (slot in skipped ==> skipped[slot] == st.skipped[slot])
    decreases sequence - st.nr
  {
    if st.nr < sequence {
      var (next, key) := DeriveRatchetedKeys(st.ckr.value);
      var st' := st.(ckr := Some(next), skipped := st.skipped[(peer, st.nr) := key], nr := st.nr + 1);
      SkipCaches(st', peer, sequence, slot);
      if slot.0 == peer && st.nr < slot.1 < sequence {
        AdvanceNext(st.ckr.value, slot.1 - st.nr - 1);
      }
    }
  }

  /** Within a chain the messages sit side by side: `k` places back is the message `k` positions earlier. */
  lemma {:induction false} ChainIsContiguous(x: Side, ms: seq<Message>, i: nat, k: nat)
    requires PlacesOk(x, ms) && i < |ms| && k < ms[i].pos
    ensures k <= i && ms[i - k].gen == ms[i].gen && ms[i - k].pos == ms[i].pos - k
  {
    if k > 0 {
      ChainIsContiguous(x, ms, i, k - 1);
      var j := i - (k - 1);
      assert j > 0 ==> Follows(ms[j - 1], ms[j]);
    }
  }

  /** Conversely two messages of one chain are as far apart as their positions. */
  lemma ChainDistance(x: Side, ms: seq<Message>, i: nat, j: nat)
    requires PlacesOk(x, ms) && i <= j < |ms| && ms[i].gen == ms[j].gen
    ensures ms[j].pos - ms[i].pos == j - i
  {
    if i < j {
      assert Before(ms[i], ms[j]);
      var k := ms[j].pos - ms[i].pos;
      ChainIsContiguous(x, ms, j, k);
      assert ms[j - k].gen == ms[i].gen && ms[j - k].pos == ms[i].pos;
    }
  }

  /** A message below `next` that counts as passed over after receiving `i` did so before. */
  lemma PassedEarlier(x: Side, ch: Channel, i: nat, k: nat)
    requires PlacesOk(x, ch.messages) && GotOk(ch) && ch.next <= i < |ch.messages|
    requires PassedOver(ch.(next := i + 1, got := ch.got + {i}), k) && k < ch.next
    ensures PassedOver(ch, k)
  {
    var ms := ch.messages;
    var j :| j in ch.got + {i} && k < j < |ms| && ms[j].gen == ms[k].gen;
    if j !in ch.got {
      var n := ch.next - 1;
      assert n in ch.got && k < n;
      assert Before(ms[k], ms[n]) && Before(ms[n], ms[i]);
    }
  }

  /** Receiving message `i` passes over exactly the messages of its chain between `next` and `i`. */
  lemma NewlyPassed(x: Side, ch: Channel, i: nat, k: nat)
    requires PlacesOk(x, ch.messages) && GotOk(ch) && ch.next <= i < |ch.messages|
    ensures
      var ch' := ch.(next := i + 1, got := ch.got + {i});
      PassedOver(ch', k) <==> PassedOver(ch, k) || (ch.next <= k < i && ch.messages[k].gen == ch.messages[i].gen)
  {
    var ch' := ch.(next := i + 1, got := ch.got + {i});
    if PassedOver(ch, k) {
      var j :| j in ch.got && k < j < |ch.messages| && ch.messages[j].gen == ch.messages[k].gen;
      assert j in ch'.got;
    }
    assert i in ch'.got;
    if PassedOver(ch', k) && k < ch.next {
      PassedEarlier(x, ch, i, k);
    }
  }

  /** Those messages occupy exactly the positions after the start position and before `i`'s. */
  lemma NewSlots(x: Side, y: Side, ch: Channel, i: nat, k: nat)
    requires PlacesOk(x, ch.messages) && PendingOk(y, ch) && ch.next <= i < |ch.messages|
    requires k < |ch.messages| && ch.messages[k].gen == ch.messages[i].gen
    ensures ch.next <= k < i <==> StartPosition(y, ch.messages[i]) < ch.messages[k].pos < ch.messages[i].pos
  {
    var ms := ch.messages;
    if k <= i {
      ChainDistance(x, ms, k, i);
    } else {
      ChainDistance(x, ms, i, k);
    }
    var n := ch.next;
    if n > 0 {
      if ms[i].gen == y.gen - 1 {
        ChainDistance(x, ms, n - 1, i);
      }
    }
  }

  // ---------------------------------------------------------------- the steps keep the cache

  /** The receiving chain that `m` finds, whichever chain it belongs to. */
  lemma ReadyChain(suite: Suite, y: Side, m: Message, newKey: Bytes, sch: Schedule)
    requires ScheduleOk(sch) && SideOk(y, sch) && MessageOk(suite, m, sch)
    requires m.gen == y.gen - 1 || (m.gen == y.gen + 1 && |sch.keys| == y.gen + 2 && IsFresh(sch, newKey))
    ensures
      var s1 := ReadyToReceive(y.st, m.sealed.ephemeral, Priv(newKey));
      && s1.ckr == Some(Advance(ChainKey(sch, m.gen), StartPosition(y, m)))
      && s1.nr == (1 + StartPosition(y, m)) % TWO_32
      && s1.skipped == y.st.skipped
  {
    if m.gen == y.gen + 1 {
      DhStepInStep(y, newKey, sch);
      assert m.sealed.ephemeral == sch.keys[y.gen + 1];
    }
  }

  lemma ReceivedSkips(suite: Suite, y: Side, m: Message, sequence: nat, newKey: Bytes)
    requires |m.sealed.full| >= NONCE_SIZE && |m.sealed.ephemeral| == KEY_SIZE
    requires ReadyToReceive(y.st, m.sealed.ephemeral, Priv(newKey)).ckr.Some?
    ensures Received(suite, y, m, sequence, newKey).st.skipped ==
            Skip(ReadyToReceive(y.st, m.sealed.ephemeral, Priv(newKey)), m.sealed.ephemeral, sequence).skipped
  {
    hide ReadyToReceive, Skip;
  }

  /** The skip loop towards `m` from place `start` of its chain, slot by slot. */
  lemma SkipTowards(s1: RatchetState, sch: Schedule, start: nat, m: Message, sequence: nat, slot: (Bytes, nat))
    requires 1 <= m.gen < |sch.keys| && Reaches(start, m, sequence)
    requires s1.ckr == Some(Advance(ChainKey(sch, m.gen), start)) && s1.nr == (1 + start) % TWO_32
    ensures
      var skipped := Skip(s1, m.sealed.ephemeral, sequence).skipped;
      if slot.0 == m.sealed.ephemeral && start < slot.1 < m.pos
      then slot in skipped && skipped[slot] == MessageKey(sch, m.gen, slot.1)
      else (slot in skipped <==> slot in s1.skipped) && (slot in skipped ==> skipped[slot] == s1.skipped[slot])
  {
    SkipCaches(s1, m.sealed.ephemeral, sequence, slot);
    hide Skip, ChainKey, Advance;
    if slot.0 == m.sealed.ephemeral && start < slot.1 < m.pos {
      AdvanceSum(ChainKey(sch, m.gen), start, slot.1 - 1 - start);
    }
  }

  /** What the receive step does to the cache, slot by slot. */
  lemma ReceiveCaches(suite: Suite, y: Side, m: Message, sequence: nat, newKey: Bytes, sch: Schedule,
                      slot: (Bytes, nat))
    requires ScheduleOk(sch) && SideOk(y, sch) && MessageOk(suite, m, sch)
    requires m.gen == y.gen - 1 || (m.gen == y.gen + 1 && |sch.keys| == y.gen + 2 && IsFresh(sch, newKey))
    requires Reaches(StartPosition(y, m), m, sequence)
    ensures
      var skipped := Received(suite, y, m, sequence, newKey).st.skipped;
      if slot.0 == m.sealed.ephemeral && StartPosition(y, m) < slot.1 < m.pos
      then slot in skipped && skipped[slot] == MessageKey(sch, m.gen, slot.1)
      else (slot in skipped <==> slot in y.st.skipped) && (slot in skipped ==> skipped[slot] == y.st.skipped[slot])
  {
    ReadyChain(suite, y, m, newKey, sch);
    SealedSizes(suite, m, sch);
    hide ReadyToReceive, SideOk, StartPosition, Skip, Received, ScheduleOk, MessageOk, Reaches, Advance, ChainKey;
    hide MessageKey;
    ReceivedSkips(suite, y, m, sequence, newKey);
    SkipTowards(ReadyToReceive(y.st, m.sealed.ephemeral, Priv(newKey)), sch, StartPosition(y, m), m, sequence, slot);
  }

  lemma SealedSizes(suite: Suite, m: Message, sch: Schedule)
    requires ScheduleOk(sch) && MessageOk(suite, m, sch)
    ensures |m.sealed.full| >= NONCE_SIZE && |m.sealed.ephemeral| == KEY_SIZE && 1 <= m.gen < |sch.keys|
  {
    hide MessageKey;
  }

  /** A slot names one chain of the schedule. */
  lemma SlotNamesChain(suite: Suite, m: Message, n: Message, sch: Schedule)
    requires ScheduleOk(sch) && MessageOk(suite, m, sch) && MessageOk(suite, n, sch)
    requires m.sealed.ephemeral == n.sealed.ephemeral
    ensures m.gen == n.gen
  {}

  /** The setting of a receive step, as far as the cache is concerned. */
  ghost predicate CacheSetting(suite: Suite, x: Side, y: Side, ch: Channel, i: nat, sequence: nat, newKey: Bytes,
                               sch: Schedule)
  {
    && ScheduleOk(sch) && SideOk(y, sch) && PlacesOk(x, ch.messages) && SentOk(suite, ch.messages, sch)
    && PendingOk(y, ch) && GotOk(ch) && CacheOk(y.st.skipped, ch) && ch.next <= i < |ch.messages|
    && MessageOk(suite, ch.messages[i], sch)
    && (ch.messages[i].gen == y.gen - 1
        || (ch.messages[i].gen == y.gen + 1 && |sch.keys| == y.gen + 2 && IsFresh(sch, newKey)))
    && Reaches(StartPosition(y, ch.messages[i]), ch.messages[i], sequence)
  }

  lemma PassedAreCached(suite: Suite, x: Side, y: Side, ch: Channel, i: nat, sequence: nat, newKey: Bytes,
                        sch: Schedule, k: nat)
    requires CacheSetting(suite, x, y, ch, i, sequence, newKey, sch)
    requires PassedOver(ch.(next := i + 1, got := ch.got + {i}), k)
    ensures k < |ch.messages|
    ensures
      var skipped := Received(suite, y, ch.messages[i], sequence, newKey).st.skipped;
      Slot(ch.messages[k]) in skipped && skipped[Slot(ch.messages[k])] == ch.messages[k].key
  {
    hide Received, SideOk, PlacesOk, PendingOk, ScheduleOk, GotOk, Reaches, IsFresh, StartPosition;
    var ms := ch.messages;
    NewlyPassed(x, ch, i, k);
    ReceiveCaches(suite, y, ms[i], sequence, newKey, sch, Slot(ms[k]));
    assert MessageOk(suite, ms[k], sch);
    if ms[k].gen == ms[i].gen {
      NewSlots(x, y, ch, i, k);
    } else if ms[k].sealed.ephemeral == ms[i].sealed.ephemeral {
      SlotNamesChain(suite, ms[k], ms[i], sch);
    }
  }

  /** The message whose key the skip loop puts into `slot`. */
  lemma NewSlotIsPassed(suite: Suite, x: Side, y: Side, ch: Channel, i: nat, sch: Schedule, slot: (Bytes, nat))
    returns (k: nat)
    requires PlacesOk(x, ch.messages) && SentOk(suite, ch.messages, sch) && PendingOk(y, ch) && GotOk(ch)
    requires ch.next <= i < |ch.messages|
    requires slot.0 == ch.messages[i].sealed.ephemeral && StartPosition(y, ch.messages[i]) < slot.1 < ch.messages[i].pos
    ensures PassedOver(ch.(next := i + 1, got := ch.got + {i}), k) && k < i && slot == Slot(ch.messages[k])
  {
    hide PlacesOk, PendingOk, GotOk, PassedOver, StartPosition;
    var m := ch.messages[i];
    ChainIsContiguous(x, ch.messages, i, m.pos - slot.1);
    k := i - (m.pos - slot.1);
    NewSlots(x, y, ch, i, k);
    NewlyPassed(x, ch, i, k);
    assert MessageOk(suite, ch.messages[k], sch) && MessageOk(suite, m, sch);
  }

  lemma CachedArePassed(suite: Suite, x: Side, y: Side, ch: Channel, i: nat, sequence: nat, newKey: Bytes,
                        sch: Schedule, slot: (Bytes, nat))
    requires CacheSetting(suite, x, y, ch, i, sequence, newKey, sch)
    requires slot in Received(suite, y, ch.messages[i], sequence, newKey).st.skipped
    ensures exists k: nat ::
              && PassedOver(ch.(next := i + 1, got := ch.got + {i}), k) && k < |ch.messages|
              && slot == Slot(ch.messages[k])
  {
    hide Received, SideOk, PlacesOk, PendingOk, ScheduleOk, GotOk, Reaches, IsFresh, StartPosition, MessageOk, SentOk;
    var ms := ch.messages;
    var m := ms[i];
    ReceiveCaches(suite, y, m, sequence, newKey, sch, slot);
    if slot.0 == m.sealed.ephemeral && StartPosition(y, m) < slot.1 < m.pos {
      var k := NewSlotIsPassed(suite, x, y, ch, i, sch, slot);
    } else {
      var k: nat :| PassedOver(ch, k) && slot == Slot(ms[k]);
      NewlyPassed(x, ch, i, k);
    }
  }

  lemma ReceiveKeepsCache(suite: Suite, x: Side, y: Side, ch: Channel, i: nat, sequence: nat, newKey: Bytes,
                          sch: Schedule)
    requires CacheSetting(suite, x, y, ch, i, sequence, newKey, sch)
    requires GotOk(ch) && ch.next <= i < |ch.messages|
    ensures
      var ch' := ch.(next := i + 1, got := ch.got + {i});
      GotOk(ch') && CacheOk(Received(suite, y, ch.messages[i], sequence, newKey).st.skipped, ch')
  {
    hide PassedOver, Received, GotOk, CacheSetting;
    GotAdvances(ch, i);
    var ms := ch.messages;
    var ch' := ch.(next := i + 1, got := ch.got + {i});
    var skipped := Received(suite, y, ms[i], sequence, newKey).st.skipped;
    forall k: nat | PassedOver(ch', k)
      ensures k < |ms| && Slot(ms[k]) in skipped && skipped[Slot(ms[k])] == ms[k].key
    {
      PassedAreCached(suite, x, y, ch, i, sequence, newKey, sch, k);
    }
    forall slot | slot in skipped
      ensures exists k: nat :: PassedOver(ch', k) && k < |ms| && slot == Slot(ms[k])
    {
      CachedArePassed(suite, x, y, ch, i, sequence, newKey, sch, slot);
    }
  }

  lemma GotAdvances(ch: Channel, i: nat)
    requires GotOk(ch) && ch.next <= i < |ch.messages|
    ensures GotOk(ch.(next := i + 1, got := ch.got + {i}))
  {}

  lemma PassedAppends(ch: Channel, m: Message, k: nat)
    requires GotOk(ch)
    ensures PassedOver(ch.(messages := ch.messages + [m]), k) <==> PassedOver(ch, k)
    ensures PassedOver(ch, k) ==> k < |ch.messages|
  {
    var ch' := ch.(messages := ch.messages + [m]);
    if PassedOver(ch, k) {
      var j :| j in ch.got && k < j < |ch.messages| && ch.messages[j].gen == ch.messages[k].gen;
      assert ch'.messages[j].gen == ch'.messages[k].gen;
    }
  }

  /** A longer channel has passed over the same messages. */
  lemma CacheAppends(skipped: map<(Bytes, nat), Key>, ch: Channel, m: Message)
    requires GotOk(ch) && CacheOk(skipped, ch)
    ensures GotOk(ch.(messages := ch.messages + [m])) && CacheOk(skipped, ch.(messages := ch.messages + [m]))
  {
    var ch' := ch.(messages := ch.messages + [m]);
    assert GotOk(ch');
    hide PassedOver, GotOk;
    forall k: nat
      ensures PassedOver(ch', k) <==> PassedOver(ch, k)
      ensures PassedOver(ch, k) ==> k < |ch.messages| && ch'.messages[k] == ch.messages[k]
    {
      PassedAppends(ch, m, k);
    }
    forall slot | slot in skipped
      ensures exists k: nat :: PassedOver(ch', k) && slot == Slot(ch'.messages[k])
    {
      var k: nat :| PassedOver(ch, k) && slot == Slot(ch.messages[k]);
      assert PassedOver(ch', k);
    }
  }

  lemma CachesOkFrom(p: Pair, who: Party)
    ensures CachesOk(p) <==>
              && GotOk(p.Outgoing(who)) && CacheOk(p.SideOf(Other(who)).st.skipped, p.Outgoing(who))
              && GotOk(p.Incoming(who)) && CacheOk(p.SideOf(who).st.skipped, p.Incoming(who))
  {
    hide GotOk, CacheOk;
  }

  /** Sending leaves the sender's own cache alone. */
  lemma SendLeavesCache(suite: Suite, p: Pair, s: Step)
    requires s.Send?
    ensures SendCall(suite, p, s).0.skipped == p.SideOf(s.who).st.skipped
  {}

  lemma SendKeepsCaches(suite: Suite, p: Pair, s: Step)
    requires PairOk(suite, p) && s.Send? && Enabled(p, s) && CachesOk(p)
    ensures CachesOk(DoSend(suite, p, s))
  {
    hide PairOk, SideOk, PlacesOk, SentOk, PendingOk, ParityOk, InStep, CachesOk, GotOk, CacheOk, DoSend, SendCall,
         MessageOk;
    PairOkFrom(suite, p, s.who);
    SendShape(suite, p, s);
    CachesOkFrom(p, s.who);
    CachesOkFrom(DoSend(suite, p, s), s.who);
    var x := p.SideOf(s.who);
    if x.gen > 0 {
      var m := Outbound(suite, x, s.plaintext, CallersAad(x.st.dhLocal.pub, s.staticAad, s.getAad), s.nonce);
      CacheAppends(p.SideOf(Other(s.who)).st.skipped, p.Outgoing(s.who), m);
      SendLeavesCache(suite, p, s);
    }
  }

  lemma ReceiveKeepsCaches(suite: Suite, p: Pair, s: Step)
    requires suite.OpensWhatItSeals() && PairOk(suite, p) && s.Receive? && Enabled(p, s) && CachesOk(p)
    ensures CachesOk(DoReceive(suite, p, s))
  {
    hide PairOk, SideOk, PlacesOk, SentOk, PendingOk, ParityOk, CachesOk, GotOk, CacheOk, DoReceive, ReceiveCall,
         Received, ScheduleOk;
    PairOkFrom(suite, p, Other(s.who));
    ReceiveShape(suite, p, s);
    CachesOkFrom(p, s.who);
    CachesOkFrom(DoReceive(suite, p, s), s.who);
    PickedGeneration(p.SideOf(s.who), p.Incoming(s.who), s.i);
    PickedMessage(suite, p.SideOf(Other(s.who)), p.SideOf(s.who), p.Incoming(s.who), s.i, s.sequence, p.sch);
    ReceiveKeepsCache(suite, p.SideOf(Other(s.who)), p.SideOf(s.who), p.Incoming(s.who), s.i, s.sequence, s.newKey,
                      p.sch);
  }

  // ---------------------------------------------------------------- theorem

  /** In every reachable state each cache holds exactly the messages passed over, under their keys. */
  lemma {:induction false} CacheHoldsPassedOver(suite: Suite, e: Bytes, f: Bytes, newKey: Bytes, run: seq<Step>)
    requires suite.OpensWhatItSeals() && FreshStart(e, f, newKey)
    requires Admissible(suite, Start(e, f, newKey), run)
    ensures CachesOk(Run(suite, Start(e, f, newKey), run))
  {
    hide CachesOk, PairOk;
    var p0 := Start(e, f, newKey);
    if run == [] {
      StartCaches(e, f, newKey);
    } else {
      var before, s := run[..|run| - 1], run[|run| - 1];
      EveryRunStaysInLockstep(suite, e, f, newKey, before);
      CacheHoldsPassedOver(suite, e, f, newKey, before);
      if s.Send? {
        SendKeepsCaches(suite, Run(suite, p0, before), s);
      } else {
        ReceiveKeepsCaches(suite, Run(suite, p0, before), s);
      }
    }
  }

  lemma StartCaches(e: Bytes, f: Bytes, newKey: Bytes)
    ensures CachesOk(Start(e, f, newKey))
  {}

  lemma ReachableCaches(suite: Suite, p: Pair)
    requires suite.OpensWhatItSeals() && Reachable(suite, p)
    ensures CachesOk(p)
  {
    hide CachesOk;
    var e, f, newKey, run :|
      && FreshStart(e, f, newKey)
      && Admissible(suite, Start(e, f, newKey), run)
      && p == Run(suite, Start(e, f, newKey), run);
    CacheHoldsPassedOver(suite, e, f, newKey, run);
  }
}
