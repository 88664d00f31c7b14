/** What a stolen ratchet gives away: its three keys, its private key and its cache of skipped keys. */
module Secrecy {
  import opened Common
  import opened Keys
  import opened Primitives
  import opened Ratchets
  import opened Schedules
  import opened Lockstep
  import opened RatchetTheorems
  import opened SkippedCache

  /** Root key, chain keys and private key. */
  function ChainKnowledge(st: RatchetState): Knowledge
  {
    Knowledge({st.rk}
              + (if st.cks.Some? then {st.cks.value} else {})
              + (if st.ckr.Some? then {st.ckr.value} else {}),
              {st.dhLocal.pub})
  }

  /** Everything in a stolen ratchet. */
  function KnowledgeOf(st: RatchetState): Knowledge
  {
    var known := ChainKnowledge(st);
    known.(keys := known.keys + st.skipped.Values)
  }

  // ---------------------------------------------------------------- cached message keys

  predicate IsMessageKey(k: Key)
  {
    k.Msg?
  }

  /** No message key went into `k`. */
  predicate NoMessageKeyIn(k: Key)
  {
    match k
    case Master(_) => true
    case Root(prev, _) => NoMessageKeyIn(prev)
    case Chain(prev, _) => NoMessageKeyIn(prev)
    case Next(chain) => NoMessageKeyIn(chain)
    case Msg(_) => false
  }

  /** Nothing is derived from a message key. */
  lemma {:induction false} MessageKeysLeadNowhere(k: Key, known: Knowledge, extra: set<Key>)
    requires NoMessageKeyIn(k) && forall m :: m in extra ==> IsMessageKey(m)
    ensures Derivable(k, known.(keys := known.keys + extra)) <==> Derivable(k, known)
  {
    assert k !in extra;
    match k {
      case Master(_) =>
      case Root(prev, _) => MessageKeysLeadNowhere(prev, known, extra);
      case Chain(prev, _) => MessageKeysLeadNowhere(prev, known, extra);
      case Next(chain) => MessageKeysLeadNowhere(chain, known, extra);
    }
  }

  /** A message key is derivable with the cache when it is in the cache or was derivable without. */
  lemma WithCache(st: RatchetState, chain: Key)
    requires NoMessageKeyIn(chain) && forall k :: k in st.skipped.Values ==> IsMessageKey(k)
    ensures Derivable(Msg(chain), KnowledgeOf(st))
            <==> Msg(chain) in st.skipped.Values || Derivable(Msg(chain), ChainKnowledge(st))
  {
    hide ChainKnowledge;
    MessageKeysLeadNowhere(chain, ChainKnowledge(st), st.skipped.Values);
  }

  lemma {:induction false} RootHasNoMessageKey(sch: Schedule, g: nat)
    requires g < |sch.keys|
    ensures NoMessageKeyIn(RootKey(sch, g))
  {
    if g > 0 {
      RootHasNoMessageKey(sch, g - 1);
    }
  }

  lemma {:induction false} ChainHasNoMessageKey(sch: Schedule, g: nat, n: nat)
    requires 1 <= g < |sch.keys|
    ensures NoMessageKeyIn(Advance(ChainKey(sch, g), n))
  {
    if n == 0 {
      RootHasNoMessageKey(sch, g - 1);
    } else {
      ChainHasNoMessageKey(sch, g, n - 1);
    }
  }

  /** A cached key is the key of a message of the channel. */
  lemma CachedKey(suite: Suite, skipped: map<(Bytes, nat), Key>, ch: Channel, sch: Schedule, k: Key) returns (i: nat)
    requires CacheOk(skipped, ch) && SentOk(suite, ch.messages, sch) && k in skipped.Values
    ensures PassedOver(ch, i) && i < |ch.messages| && ch.messages[i].key == k
    ensures 1 <= ch.messages[i].gen < |sch.keys| && 1 <= ch.messages[i].pos
    ensures k == MessageKey(sch, ch.messages[i].gen, ch.messages[i].pos)
  {
    hide MessageKey;
    var slot :| slot in skipped && skipped[slot] == k;
    i :| PassedOver(ch, i) && slot == Slot(ch.messages[i]);
    assert MessageOk(suite, ch.messages[i], sch);
  }

  lemma CacheHoldsMessageKeys(suite: Suite, skipped: map<(Bytes, nat), Key>, ch: Channel, sch: Schedule)
    requires CacheOk(skipped, ch) && SentOk(suite, ch.messages, sch)
    ensures forall k :: k in skipped.Values ==> IsMessageKey(k)
  {
    hide CacheOk, SentOk, PassedOver;
    forall k | k in skipped.Values
      ensures IsMessageKey(k)
    {
      var i := CachedKey(suite, skipped, ch, sch, k);
    }
  }

  /** What a stolen side with its cache gives away of the schedule. */
  lemma ExposedWithCache(suite: Suite, x: Side, incoming: Channel, sch: Schedule, j: nat, pos: nat)
    requires SideOk(x, sch) && CacheOk(x.st.skipped, incoming) && SentOk(suite, incoming.messages, sch)
    requires 1 <= j < |sch.keys| && 1 <= pos
    ensures Derivable(MessageKey(sch, j, pos), KnowledgeOf(x.st)) <==>
              MessageKey(sch, j, pos) in x.st.skipped.Values || Derivable(MessageKey(sch, j, pos), ChainKnowledge(x.st))
  {
    hide CacheOk, SentOk, SideOk, ChainKnowledge, Derivable;
    CacheHoldsMessageKeys(suite, x.st.skipped, incoming, sch);
    ChainHasNoMessageKey(sch, j, pos - 1);
    WithCache(x.st, Advance(ChainKey(sch, j), pos - 1));
  }

  // ---------------------------------------------------------------- without the cache

  lemma SideHoldsExactly(x: Side, sch: Schedule)
    requires SideOk(x, sch)
    ensures HoldsExactly(ChainKnowledge(x.st), sch, x.gen, x.sent, x.rcvd)
  {}

  lemma OutgoingIsSafe(suite: Suite, who: Party, x: Side, ms: seq<Message>, sch: Schedule, i: nat)
    requires ScheduleOk(sch) && SideOk(x, sch) && PlacesOk(x, ms) && SentOk(suite, ms, sch) && ParityOk(who, x, ms)
    requires i < |ms|
    ensures !Derivable(ms[i].key, ChainKnowledge(x.st))
  {
    hide Derivable, HoldsExactly, ScheduleOk;
    SideHoldsExactly(x, sch);
    hide SideOk, ChainKnowledge;
    assert MessageOk(suite, ms[i], sch);
    MessageExposure(ChainKnowledge(x.st), sch, x.gen, x.sent, x.rcvd, ms[i].gen, ms[i].pos);
  }

  lemma IncomingExposure(suite: Suite, who: Party, x: Side, y: Side, ch: Channel, ms: seq<Message>, sch: Schedule,
                         i: nat)
    requires ScheduleOk(sch) && SideOk(y, sch) && PlacesOk(x, ch.messages) && SentOk(suite, ch.messages, sch)
    requires PendingOk(y, ch) && ParityOk(who, y, ms) && ParityOk(Other(who), x, ch.messages)
    requires i < |ch.messages|
    ensures Derivable(ch.messages[i].key, ChainKnowledge(y.st)) <==> i >= ch.next
  {
    hide Derivable, HoldsExactly, ScheduleOk;
    SideHoldsExactly(y, sch);
    hide SideOk, ChainKnowledge;
    var m := ch.messages[i];
    IncomingAhead(x, y, ch, i);
    hide PlacesOk, PendingOk;
    assert MessageOk(suite, m, sch);
    MessageExposure(ChainKnowledge(y.st), sch, y.gen, y.sent, y.rcvd, m.gen, m.pos);
  }

  // ---------------------------------------------------------------- theorems

  /** The key of a message, seen against the whole of a stolen ratchet. */
  lemma MessageWithCache(suite: Suite, p: Pair, who: Party, m: Message)
    requires suite.OpensWhatItSeals() && Reachable(suite, p) && MessageOk(suite, m, p.sch)
    ensures Derivable(m.key, KnowledgeOf(p.SideOf(who).st)) <==>
              m.key in p.SideOf(who).st.skipped.Values || Derivable(m.key, ChainKnowledge(p.SideOf(who).st))
  {
    hide Derivable, KnowledgeOf, ChainKnowledge, SideOk, CacheOk, SentOk, PlacesOk, PendingOk, ParityOk, ScheduleOk,
         GotOk, PairOk, CachesOk, Reachable, MessageKey;
    ReachableOk(suite, p);
    PairOkFrom(suite, p, who);
    ReachableCaches(suite, p);
    CachesOkFrom(p, who);
    ExposedWithCache(suite, p.SideOf(who), p.Incoming(who), p.sch, m.gen, m.pos);
  }

  lemma SentMessageOk(suite: Suite, p: Pair, who: Party, i: nat)
    requires suite.OpensWhatItSeals() && Reachable(suite, p) && i < |p.Outgoing(who).messages|
    ensures MessageOk(suite, p.Outgoing(who).messages[i], p.sch)
  {
    hide PlacesOk, PendingOk, ParityOk, ScheduleOk, GotOk, Reachable, MessageOk, SideOk;
    ReachableOk(suite, p);
    PairOkFrom(suite, p, who);
  }

  /** A cached key is that of the incoming message it belongs to, and of no other message. */
  lemma InCacheExactly(suite: Suite, p: Pair, who: Party, sender: Party, i: nat)
    requires suite.OpensWhatItSeals() && Reachable(suite, p) && i < |p.Outgoing(sender).messages|
    ensures p.Outgoing(sender).messages[i].key in p.SideOf(who).st.skipped.Values
            <==> sender == Other(who) && PassedOver(p.Incoming(who), i)
  {
    hide CacheOk, SentOk, PlacesOk, PendingOk, ParityOk, ScheduleOk, GotOk, PairOk, CachesOk, Reachable, PassedOver,
         SideOk;
    ReachableOk(suite, p);
    PairOkFrom(suite, p, who);
    hide PairOk, InStep;
    ReachableCaches(suite, p);
    CachesOkFrom(p, who);
    var skipped, ch := p.SideOf(who).st.skipped, p.Incoming(who);
    var key := p.Outgoing(sender).messages[i].key;
    if sender == Other(who) && PassedOver(ch, i) {
      PassedIsCached(skipped, ch, i);
    }
    if key in skipped.Values {
      var k := CachedKey(suite, skipped, ch, p.sch, key);
      MessageKeysAreUnique(suite, p, sender, i, Other(who), k);
    }
  }

  lemma PassedIsCached(skipped: map<(Bytes, nat), Key>, ch: Channel, i: nat)
    requires CacheOk(skipped, ch) && PassedOver(ch, i)
    ensures i < |ch.messages| && Slot(ch.messages[i]) in skipped && skipped[Slot(ch.messages[i])] == ch.messages[i].key
  {}

  /**
   * In every reachable state a stolen ratchet, its cache included, yields the key of no message its
   * owner sent, and of an incoming message if and only if the owner has not passed it, or passed
   * over it within a chain.
   */
  lemma StolenStateExposes(suite: Suite, p: Pair, who: Party)
    requires suite.OpensWhatItSeals() && Reachable(suite, p)
    ensures forall i :: 0 <= i < |p.Outgoing(who).messages| ==>
              !Derivable(p.Outgoing(who).messages[i].key, KnowledgeOf(p.SideOf(who).st))
    ensures forall i: nat :: i < |p.Incoming(who).messages| ==>
              (Derivable(p.Incoming(who).messages[i].key, KnowledgeOf(p.SideOf(who).st)) <==>
                 i >= p.Incoming(who).next || PassedOver(p.Incoming(who), i))
  {
    hide Derivable, KnowledgeOf, ChainKnowledge, SideOk, PlacesOk, SentOk, PendingOk, ParityOk, ScheduleOk, GotOk,
         PairOk, PassedOver, MessageOk, Reachable;
    ReachableOk(suite, p);
    PairOkFrom(suite, p, who);
    var x, y, outgoing, incoming := p.SideOf(who), p.SideOf(Other(who)), p.Outgoing(who), p.Incoming(who);
    forall i: nat | i < |outgoing.messages|
      ensures !Derivable(outgoing.messages[i].key, KnowledgeOf(x.st))
    {
      SentMessageOk(suite, p, who, i);
      MessageWithCache(suite, p, who, outgoing.messages[i]);
      InCacheExactly(suite, p, who, who, i);
      OutgoingIsSafe(suite, who, x, outgoing.messages, p.sch, i);
    }
    forall i: nat | i < |incoming.messages|
      ensures Derivable(incoming.messages[i].key, KnowledgeOf(x.st)) <==> i >= incoming.next || PassedOver(incoming, i)
    {
      SentMessageOk(suite, p, Other(who), i);
      MessageWithCache(suite, p, who, incoming.messages[i]);
      InCacheExactly(suite, p, who, Other(who), i);
      IncomingExposure(suite, who, y, x, incoming, outgoing.messages, p.sch, i);
    }
  }

  /**
   * Healing: with the state of generation `g` stolen, its cache included, a message of generation
   * `g + 2` or later, under any continuation of the schedule, is out of reach again.
   */
  lemma StolenStateHeals(suite: Suite, p: Pair, who: Party, later: Schedule, j: nat, pos: nat)
    requires suite.OpensWhatItSeals() && Reachable(suite, p)
    requires ScheduleOk(later) && later.handshake == p.sch.handshake && p.sch.keys <= later.keys
    requires p.SideOf(who).gen + 2 <= j < |later.keys| && 1 <= pos
    ensures !Derivable(MessageKey(later, j, pos), KnowledgeOf(p.SideOf(who).st))
  {
    hide MessageOk, SentOk, ScheduleOk, PlacesOk, PendingOk, GotOk, CacheOk, Derivable, KnowledgeOf, ChainKnowledge,
         Reachable;
    ReachableOk(suite, p);
    PairOkFrom(suite, p, who);
    ReachableCaches(suite, p);
    CachesOkFrom(p, who);
    var x, ch := p.SideOf(who), p.Incoming(who);
    SideInLaterSchedule(x, p.sch, later);
    SideHoldsExactly(x, later);
    hide SideOk, HoldsExactly, PairOk;
    MessageExposure(ChainKnowledge(x.st), later, x.gen, x.sent, x.rcvd, j, pos);
    CacheHoldsMessageKeys(suite, x.st.skipped, ch, p.sch);
    ChainHasNoMessageKey(later, j, pos - 1);
    WithCache(x.st, Advance(ChainKey(later, j), pos - 1));
    if MessageKey(later, j, pos) in x.st.skipped.Values {
      var i := CachedKey(suite, x.st.skipped, ch, p.sch, MessageKey(later, j, pos));
      MessageInLaterSchedule(p.sch, later, ch.messages[i].gen, ch.messages[i].pos);
      MessageKeyInjective(later, ch.messages[i].gen, j, ch.messages[i].pos, pos);
    }
  }

  lemma MessageInLaterSchedule(sch: Schedule, later: Schedule, g: nat, pos: nat)
    requires later.handshake == sch.handshake && sch.keys <= later.keys && 1 <= g < |sch.keys| && 1 <= pos
    ensures MessageKey(later, g, pos) == MessageKey(sch, g, pos)
  {
    RootInLaterSchedule(sch, later, g - 1);
  }
}
