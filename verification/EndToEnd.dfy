/**
 * The parts put together: what a recipient's replay filter keeps of a mailbox's deliveries, and two
 * sessions whose packets travel through the relay.
 */
module EndToEnd {
  import opened Common
  import opened Keys
  import opened Primitives
  import opened Replay
  import opened Packets
  import opened Relays
  import opened RelayRuns
  import opened FirstOccurrences
  import opened RelayOrder
  import opened RelayLoss
  import opened Ratchets
  import opened Schedules
  import opened Lockstep
  import opened Sessions
  import opened Conversation
  import Framing
  import SessionTheorems

  // ---------------------------------------------------------------- relay and replay filter

  function SequenceOf(x: Item): nat
  {
    Decode(ZERO_PACKET, x.raw).0.sequence
  }

  /** Sequence numbers go up strictly, from at least 1. */
  ghost predicate Rising(xs: seq<Item>)
  {
    && (forall x :: x in xs ==> SequenceOf(x) > 0)
    && forall i, j :: 0 <= i < j < |xs| ==> SequenceOf(xs[i]) < SequenceOf(xs[j])
  }

  /** A new window fed with the delivered packets: its final state, and the packets it let through. */
  function Filter(xs: seq<Item>): (BitWindow, seq<Item>)
  {
    if xs == [] then (EMPTY_WINDOW, [])
    else
      var (w, kept) := Filter(xs[..|xs| - 1]);
      var x := xs[|xs| - 1];
      var (w', ok) := CheckBits(w, SequenceOf(x));
      (w', if ok then kept + [x] else kept)
  }

  function SequencesOf(xs: seq<Item>): set<nat>
  {
    set x | x in xs :: SequenceOf(x)
  }

  /** The window after `w` pictured `xs`, on a packet that `xs` holds or that is newer than all of them. */
  lemma NextVerdict(w: BitWindow, xs: seq<Item>, x: Item)
    requires Represents(w, SequencesOf(xs)) && SequenceOf(x) > 0
    requires x in xs || forall y :: y in xs ==> SequenceOf(y) < SequenceOf(x)
    ensures CheckBits(w, SequenceOf(x)).1 <==> x !in xs
    ensures Represents(CheckBits(w, SequenceOf(x)).0, SequencesOf(xs + [x]))
  {
    CheckBitsRefines(w, SequencesOf(xs), SequenceOf(x));
    assert IsMax(SequencesOf(xs), w.maxSeq);
    hide Represents, CheckBits, SequenceOf;
    assert SequencesOf(xs + [x]) == SequencesOf(xs) + {SequenceOf(x)};
    if x in xs {
      assert SequenceOf(x) in SequencesOf(xs);
      assert SequencesOf(xs + [x]) == SequencesOf(xs);
    }
  }

  /** When the first occurrences rise, the filter keeps exactly them. */
  lemma {:induction false} FilterKeepsFirstOccurrences(xs: seq<Item>)
    requires Rising(Dedup(xs))
    ensures Represents(Filter(xs).0, SequencesOf(xs)) && Filter(xs).1 == Dedup(xs)
  {
    if xs == [] {
      EmptyRepresents();
      assert SequencesOf(xs) == {};
    } else {
      var front, x := xs[..|xs| - 1], xs[|xs| - 1];
      assert front + [x] == xs;
      DedupPrefix(front, [x]);
      hide Represents, CheckBits, SequenceOf;
      RisingPrefix(Dedup(front), Dedup(xs));
      FilterKeepsFirstOccurrences(front);
      LastIsNewest(front, x);
      NextVerdict(Filter(front).0, front, x);
    }
  }

  lemma RisingPrefix(xs: seq<Item>, ys: seq<Item>)
    requires xs <= ys && Rising(ys)
    ensures Rising(xs)
  {
    hide SequenceOf;
  }

  lemma LastIsNewest(front: seq<Item>, x: Item)
    requires Rising(Dedup(front + [x]))
    ensures SequenceOf(x) > 0
    ensures x in front || forall y :: y in front ==> SequenceOf(y) < SequenceOf(x)
  {
    DedupSnoc(front, x);
    hide SequenceOf, Dedup, Rising;
    if x in front {
      assert x in Dedup(front);
      RisingIsPositive(Dedup(front), x);
    } else {
      RisingLast(Dedup(front), x);
      assert forall y :: y in front ==> y in Dedup(front);
    }
  }

  lemma RisingIsPositive(xs: seq<Item>, x: Item)
    requires Rising(xs) && x in xs
    ensures SequenceOf(x) > 0
  {
    hide SequenceOf;
  }

  lemma RisingLast(xs: seq<Item>, x: Item)
    requires Rising(xs + [x])
    ensures SequenceOf(x) > 0
    ensures forall y :: y in xs ==> SequenceOf(y) < SequenceOf(x)
  {
    hide SequenceOf;
    var ys := xs + [x];
    assert x in ys;
    forall y | y in xs
      ensures SequenceOf(y) < SequenceOf(x)
    {
      var i :| 0 <= i < |xs| && xs[i] == y;
      assert ys[i] == y && ys[|xs|] == x;
    }
  }

  lemma RisingIsDistinct(xs: seq<Item>)
    requires Rising(xs)
    ensures Dedup(xs) == xs
  {
    hide SequenceOf;
    DedupOfDistinct(xs);
  }

  /**
   * Relay and replay filter: when one sender's packets, numbered upwards, go through the recipient's
   * mailbox, or directly in their turn, then whatever flushes fail at whatever index, the recipient's
   * window lets through each delivered packet once, in the order of sending, and nothing is skipped.
   */
  lemma FilteredDeliveryIsExact(now: int, run: seq<RelayStep>, fp: Bytes)
    requires RelayAdmissible(EmptyRelay(now), run, Orderly(fp))
    requires Rising(Log(RelayRun(EmptyRelay(now), run, Orderly(fp)).taken, fp))
    ensures
      var r := RelayRun(EmptyRelay(now), run, Orderly(fp));
      var kept := Filter(Log(r.sentTo, fp)).1;
      && kept <= Log(r.taken, fp)
      && (forall x :: x in kept <==> x in Log(r.sentTo, fp))
      && (Pending(r.boxes, fp) == [] ==> kept == Log(r.taken, fp))
  {
    var r := RelayRun(EmptyRelay(now), run, Orderly(fp));
    hide Rising, Filter, RelayRun, Log, Pending, Dedup, RelayAdmissible;
    FirstOccurrencesInOrder(now, run, fp);
    FilterOfDelivery(Log(r.sentTo, fp), Pending(r.boxes, fp), Log(r.taken, fp));
  }

  lemma FilterOfDelivery(sent: seq<Item>, pending: seq<Item>, taken: seq<Item>)
    requires Rising(taken) && Dedup(sent + pending) == Dedup(taken) && Dedup(sent) <= Dedup(taken)
    ensures
      var kept := Filter(sent).1;
      && kept <= taken
      && (forall x :: x in kept <==> x in sent)
      && (pending == [] ==> kept == taken)
  {
    hide Rising, Filter, Dedup;
    RisingIsDistinct(taken);
    RisingPrefix(Dedup(sent), Dedup(taken));
    FilterKeepsFirstOccurrences(sent);
    assert sent + [] == sent;
  }

  // ---------------------------------------------------------------- packets over a stream

  /** Marshal accepts packets that the connection refuses: those within 203 bytes of the limit. */
  lemma FramableExactly(p: Packet)
    requires Fits(p)
    ensures Framing.Framable(Encode(p)) <==> |p.payload| + MIN_PACKET_SIZE <= Framing.MAX_FRAME
  {
    hide Body;
  }

  /** One of them. */
  lemma MarshalledButRefused()
    ensures
      var p := ZERO_PACKET.(payload := Zeros(MAX_PAYLOAD));
      Fits(p) && |p.payload| <= MAX_PAYLOAD && !Framing.Framable(Encode(p))
  {
    hide Body;
  }

  /** Packets that this version writes and the connection takes. */
  ghost predicate Sendable(ps: seq<Packet>)
  {
    forall k :: 0 <= k < |ps| ==>
      Fits(ps[k]) && ps[k].version <= CURRENT_VERSION && |ps[k].payload| + MIN_PACKET_SIZE <= Framing.MAX_FRAME
  }

  function Encoded(ps: seq<Packet>): (r: seq<Bytes>)
    requires Sendable(ps)
    ensures |r| == |ps| && forall k :: 0 <= k < |ps| ==> r[k] == Encode(ps[k])
  {
    seq(|ps|, k requires 0 <= k < |ps| => Encode(ps[k]))
  }

  /** The packets that `got` unmarshals to are the first of `ps`. */
  ghost predicate UnmarshalsToFirst(got: seq<Bytes>, ps: seq<Packet>)
  {
    |got| <= |ps| && forall k :: 0 <= k < |got| ==> Decode(ZERO_PACKET, got[k]) == (ps[k], Parsed)
  }

  /**
   * Packets over a stream: of a list of packets marshalled and framed, a receiver reads back a
   * prefix from any prefix of the stream, and the whole list from the whole stream.
   */
  lemma PacketsOverAStream(ps: seq<Packet>, n: nat)
    requires Sendable(ps) && n <= |Framing.FrameAll(Encoded(ps))|
    ensures
      var stream := Framing.FrameAll(Encoded(ps));
      var got := Framing.ReceiveAll(stream[..n]).0;
      UnmarshalsToFirst(got, ps) && (n == |stream| ==> |got| == |ps|)
  {
    hide Sendable, Framing.ReceiveAll, Framing.FrameAll, Framing.Framable, UnmarshalsToFirst;
    var raws := Encoded(ps);
    var stream := Framing.FrameAll(raws);
    AllFramable(ps);
    Framing.CutStream(raws, n);
    Framing.FramingRoundTrip(raws);
    assert n == |stream| ==> stream[..n] == stream;
    FirstUnmarshal(ps, Framing.ReceiveAll(stream[..n]).0);
  }

  lemma AllFramable(ps: seq<Packet>)
    requires Sendable(ps)
    ensures forall raw :: raw in Encoded(ps) ==> Framing.Framable(raw)
  {
    hide Encode;
    forall raw | raw in Encoded(ps)
      ensures Framing.Framable(raw)
    {
      var k :| 0 <= k < |ps| && Encoded(ps)[k] == raw;
      FramableExactly(ps[k]);
    }
  }

  lemma FirstUnmarshal(ps: seq<Packet>, got: seq<Bytes>)
    requires Sendable(ps) && got <= Encoded(ps)
    ensures UnmarshalsToFirst(got, ps)
  {
    hide Decode, Encode;
    forall k | 0 <= k < |got|
      ensures Decode(ZERO_PACKET, got[k]) == (ps[k], Parsed)
    {
      assert got[k] == Encoded(ps)[k];
      UnmarshalUndoesMarshal(ps[k], ZERO_PACKET);
    }
  }

  // ---------------------------------------------------------------- sessions over the relay

  /** Which of the packets sent to `who` it was given, call by call. */
  function Given(run: seq<TalkStep>, who: Party): seq<nat>
  {
    if run == [] then []
    else
      var s := run[|run| - 1];
      Given(run[..|run| - 1], who) + (if s.Hear? && s.who == who then [s.i] else [])
  }

  lemma HeardAfterStep(suite: Suite, t: Talk, s: TalkStep, who: Party)
    requires suite.Correct() && TalkOk(suite, t) && Callable(t) && TalkEnabled(t, s)
    ensures DoTalk(suite, t, s).Heard(who) == t.Heard(who) + if s.Hear? && s.who == who then {s.i} else {}
  {
    hide TalkOk, DoSend, DoReceive, SayCall, HearCall;
    if s.Say? {
      SayKeepsIncoming(suite, t.pair, RatchetSend(suite, t, s), who);
    } else if s.i !in t.Heard(s.who) {
      ReceiveShape(suite, t.pair, Receive(s.who, s.i, 0, s.newKey));
    }
  }

  lemma SayKeepsIncoming(suite: Suite, p: Pair, s: Step, who: Party)
    requires s.Send?
    ensures DoSend(suite, p, s).Incoming(who).got == p.Incoming(who).got
  {
    hide Encrypt, Outbound;
  }

  /** The packets a session was given in a run are those it has heard. */
  lemma {:induction false} GivenIsHeard(suite: Suite, t0: Talk, run: seq<TalkStep>, who: Party)
    requires suite.Correct() && TalkOk(suite, t0) && t0.Heard(who) == {} && TalkAdmissible(suite, t0, run)
    ensures forall i: nat :: i in Given(run, who) <==> i in TalkRun(suite, t0, run).Heard(who)
  {
    hide TalkOk, DoTalk, Callable, TalkEnabled;
    if run != [] {
      var front, s := run[..|run| - 1], run[|run| - 1];
      GivenIsHeard(suite, t0, front, who);
      EveryTalkStaysOk(suite, t0, front);
      HeardAfterStep(suite, TalkRun(suite, t0, front), s, who);
    }
  }

  /** The state a conversation is in, and what has been heard in it. */
  lemma TalkFacts(suite: Suite, idA: Bytes, idB: Bytes, e: Bytes, f: Bytes, ratchetKey: Bytes, talk: seq<TalkStep>,
                  who: Party)
    requires suite.Correct() && FreshStart(e, f, ratchetKey)
    requires TalkAdmissible(suite, StartTalk(idA, idB, e, f, ratchetKey), talk)
    ensures
      var t := TalkRun(suite, StartTalk(idA, idB, e, f, ratchetKey), talk);
      TalkOk(suite, t) && forall i: nat :: i in Given(talk, who) <==> i in t.Heard(who)
  {
    var t0 := StartTalk(idA, idB, e, f, ratchetKey);
    StartTalkOk(suite, idA, idB, e, f, ratchetKey);
    assert t0.Heard(who) == {};
    hide *;
    EveryTalkStaysOk(suite, t0, talk);
    GivenIsHeard(suite, t0, talk, who);
  }

  /** The relay puts a session's packets into the mailbox of the session's peer. */
  lemma RoutedToThePeer(suite: Suite, from: Bytes, to: Bytes, p: Packet)
    requires Fits(p) && p.version <= CURRENT_VERSION && |p.payload| <= MAX_PAYLOAD
    requires SessionTheorems.Addressed(suite, from, to, p)
    ensures Routable(Encode(p)) && Recipient(Encode(p)) == suite.fingerprint(to)
  {
    hide Decode, Encode;
    UnmarshalUndoesMarshal(p, ZERO_PACKET);
  }

  lemma HandshakeRoutedToThePeer(suite: Suite, s: SessionState, typ: nat, key: PrivateKey)
    requires Holds(s) && s.peerId.Some? && typ < 256 && |key.pub| == KEY_SIZE
    ensures
      var raw := Encode(HandshakePacket(suite, s, typ, key));
      Routable(raw) && Recipient(raw) == suite.fingerprint(s.peerId.value)
  {
    hide Decode, Encode, Body;
    UnmarshalUndoesMarshal(HandshakePacket(suite, s, typ, key), ZERO_PACKET);
  }

  /** `taken`, what the relay took on for a recipient, are the first packets of `ps`, marshalled, in order. */
  ghost predicate Mailed(ps: seq<Packet>, taken: seq<Item>)
  {
    && |taken| <= |ps|
    && (forall k :: 0 <= k < |ps| ==> Fits(ps[k]) && |ps[k].payload| <= MAX_PAYLOAD)
    && forall k :: 0 <= k < |taken| ==> taken[k].raw == Encode(ps[k])
  }

  /** The packets given to a session were the first ones delivered, unmarshalled, in order. */
  ghost predicate TakenFrom(ps: seq<Packet>, delivered: seq<Item>, given: seq<nat>)
  {
    && |given| <= |delivered|
    && forall j :: 0 <= j < |given| ==>
      given[j] < |ps| && Decode(ZERO_PACKET, delivered[j].raw) == (ps[given[j]], Parsed)
  }

  lemma MailedSequence(outSequence: nat, ps: seq<Packet>, taken: seq<Item>, k: nat)
    requires Mailed(ps, taken) && NumbersOk(outSequence, ps) && k < |taken|
    requires ps[k].version <= CURRENT_VERSION
    ensures Decode(ZERO_PACKET, taken[k].raw) == (ps[k], Parsed) && SequenceOf(taken[k]) == ps[k].sequence > 0
  {
    hide Decode, Encode;
    UnmarshalUndoesMarshal(ps[k], ZERO_PACKET);
  }

  ghost predicate Versioned(ps: seq<Packet>)
  {
    forall k :: 0 <= k < |ps| ==> ps[k].version <= CURRENT_VERSION
  }

  lemma MailedRises(outSequence: nat, ps: seq<Packet>, taken: seq<Item>)
    requires Mailed(ps, taken) && NumbersOk(outSequence, ps) && Versioned(ps)
    ensures Rising(taken)
  {
    hide Mailed, SequenceOf, Decode;
    forall k | 0 <= k < |taken|
      ensures k < |ps| && SequenceOf(taken[k]) == ps[k].sequence > 0
    {
      MailedShorter(ps, taken);
      MailedSequence(outSequence, ps, taken, k);
    }
  }

  lemma MailedShorter(ps: seq<Packet>, taken: seq<Item>)
    requires Mailed(ps, taken)
    ensures |taken| <= |ps|
  {
    hide Encode;
  }

  /** Delivered packets are packets taken on, and their place among the latter is the index given. */
  lemma PlaceOfGiven(outSequence: nat, ps: seq<Packet>, taken: seq<Item>, delivered: seq<Item>, given: seq<nat>,
                     j: nat)
    requires Mailed(ps, taken) && NumbersOk(outSequence, ps) && Versioned(ps) && TakenFrom(ps, delivered, given)
    requires j < |given| && delivered[j] in taken
    ensures given[j] < |taken| && delivered[j] == taken[given[j]]
  {
    hide Mailed, Decode, SequenceOf;
    var k :| 0 <= k < |taken| && taken[k] == delivered[j];
    MailedShorter(ps, taken);
    MailedSequence(outSequence, ps, taken, k);
  }

  /** What was given of the packets delivered so far: as many of the first as there were different ones. */
  lemma FirstsAreGiven(front: seq<Item>, taken: seq<Item>, given: seq<nat>)
    requires Rising(taken) && Dedup(front) <= taken && |given| == |front|
    requires forall j :: 0 <= j < |front| ==> given[j] < |taken| && front[j] == taken[given[j]]
    ensures forall i: nat :: i in given <==> i < |Dedup(front)|
  {
    hide Dedup, SequenceOf;
    forall i: nat | i < |Dedup(front)|
      ensures i in given
    {
      assert taken[i] == Dedup(front)[i];
      assert taken[i] in front;
      var j :| 0 <= j < |front| && front[j] == taken[i];
      assert given[j] in given;
    }
    forall i: nat | i in given
      ensures i < |Dedup(front)|
    {
      var j :| 0 <= j < |given| && given[j] == i;
      assert front[j] in Dedup(front);
      var k :| 0 <= k < |Dedup(front)| && Dedup(front)[k] == front[j];
      assert taken[k] == taken[i];
    }
  }

  /** Among the first occurrences, the next delivered packet comes at most one past those before it. */
  lemma NextIsNearby(delivered: seq<Item>, taken: seq<Item>, m: nat)
    requires Dedup(delivered) <= taken && m < |delivered|
    ensures Dedup(delivered[..m]) <= taken
    ensures exists i: nat :: i <= |Dedup(delivered[..m])| && i < |taken| && taken[i] == delivered[m]
  {
    var front, x, rest := delivered[..m], delivered[m], delivered[m + 1..];
    assert delivered == (front + [x]) + rest;
    DedupPrefix(front + [x], rest);
    DedupPrefix(front, [x]);
    DedupSnoc(front, x);
    hide Dedup;
    var firsts, firsts' := Dedup(front), Dedup(front + [x]);
    if x in front {
      assert x in firsts;
      var i :| 0 <= i < |firsts| && firsts[i] == x;
      assert taken[i] == x;
    } else {
      assert firsts'[|firsts|] == x && taken[|firsts|] == x;
    }
  }

  /** The next delivered packet was given before, or all before it were and none after. */
  lemma NextDelivered(delivered: seq<Item>, taken: seq<Item>, given: seq<nat>)
    requires Rising(taken) && Dedup(delivered) <= taken && |given| < |delivered|
    requires forall j :: 0 <= j < |given| ==> given[j] < |taken| && delivered[j] == taken[given[j]]
    ensures exists i: nat ::
              && i < |taken| && taken[i] == delivered[|given|]
              && (i in given || forall j: nat :: j in given <==> j < i)
  {
    hide Dedup, Rising;
    NextIsNearby(delivered, taken, |given|);
    FirstsAreGiven(delivered[..|given|], taken, given);
  }

  lemma DirectionFacts(suite: Suite, t: Talk, who: Party)
    requires TalkOk(suite, t)
    ensures NumbersOk(t.SessionOf(Other(who)).outSequence, t.SentBy(Other(who))) && Versioned(t.SentBy(Other(who)))
    ensures GotOk(t.pair.Incoming(who)) && |t.SentBy(Other(who))| == |t.pair.Incoming(who).messages|
  {
    hide PairOk, SessionOk, Represents, NumbersOk, SignatureOk, Header;
    TalkOkFrom(suite, t, who);
    var ps := t.SentBy(Other(who));
    forall k | 0 <= k < |ps|
      ensures ps[k].version <= CURRENT_VERSION
    {
      assert Carries(suite, t.SessionOf(Other(who)).localId, ps[k], t.pair.Incoming(who).messages[k]);
    }
  }

  /**
   * `raw` is the `i`-th packet sent to `who`, who may take it now: a first delivery yields its
   * plaintext, a repeat is rejected.
   */
  ghost predicate Opens(suite: Suite, t: Talk, who: Party, raw: Bytes, i: nat, newKey: Bytes)
  {
    && Callable(t) && TalkEnabled(t, Hear(who, i, newKey))
    && Decode(ZERO_PACKET, raw) == (t.SentBy(Other(who))[i], Parsed)
    && i < |t.pair.Incoming(who).messages|
    && HearCall(suite, t, Hear(who, i, newKey)).1 ==
         if i !in t.Heard(who) then Ok(t.pair.Incoming(who).messages[i].plaintext) else Err(Replayed)
  }

  /** After the first so many packets, the next one opens. */
  lemma NextOneOpens(suite: Suite, t: Talk, who: Party, i: nat, newKey: Bytes)
    requires suite.Correct() && TalkOk(suite, t) && Callable(t) && IsFresh(t.pair.sch, newKey)
    requires i < |t.SentBy(Other(who))|
    requires forall j: nat :: j in t.Heard(who) <==> j < i
    ensures TalkEnabled(t, Hear(who, i, newKey)) && i < |t.pair.Incoming(who).messages|
    ensures HearCall(suite, t, Hear(who, i, newKey)).1 == Ok(t.pair.Incoming(who).messages[i].plaintext)
  {
    hide TalkOk, DoTalk, HearCall, TalkEnabled, Versioned, NumbersOk, Callable, IsFresh;
    DirectionFacts(suite, t, who);
    var ch := t.pair.Incoming(who);
    assert ch.got == t.Heard(who);
    assert forall j: nat :: j in ch.got <==> j < i;
    NextIsCount(ch, i);
    NextMayBeHeard(suite, t, who, newKey);
    FirstHearKeeps(suite, t, Hear(who, i, newKey));
  }

  lemma NextIsCount(ch: Channel, i: nat)
    requires GotOk(ch) && forall j: nat :: j in ch.got <==> j < i
    ensures ch.next == i
  {
    assert i > 0 ==> (i - 1) as nat in ch.got;
  }

  lemma RepeatIsRejected(suite: Suite, t: Talk, who: Party, i: nat, newKey: Bytes)
    requires suite.Correct() && TalkOk(suite, t) && Callable(t) && IsFresh(t.pair.sch, newKey)
    requires i in t.Heard(who) && i < |t.SentBy(Other(who))|
    ensures TalkEnabled(t, Hear(who, i, newKey)) && HearCall(suite, t, Hear(who, i, newKey)).1 == Err(Replayed)
  {
    hide TalkOk, DoTalk, HearCall, Callable, IsFresh;
    RepeatedHearRejected(suite, t, Hear(who, i, newKey));
  }

  /** What module RelayOrder says of deliveries, in terms of the packets given to a session. */
  lemma NextOpens(suite: Suite, t: Talk, who: Party, delivered: seq<Item>, taken: seq<Item>, given: seq<nat>,
                  newKey: Bytes)
    requires suite.Correct() && TalkOk(suite, t) && IsFresh(t.pair.sch, newKey)
    requires Mailed(t.SentBy(Other(who)), taken) && TakenFrom(t.SentBy(Other(who)), delivered, given)
    requires Dedup(delivered) <= Dedup(taken) && |given| < |delivered|
    requires forall i: nat :: i in given <==> i in t.Heard(who)
    ensures exists i: nat :: Opens(suite, t, who, delivered[|given|].raw, i, newKey)
  {
    hide TalkOk, Mailed, TakenFrom, Rising, Dedup, DoTalk, HearCall, TalkEnabled, Versioned, NumbersOk, Callable,
         Decode, SequenceOf, IsFresh;
    var ps, n := t.SentBy(Other(who)), t.SessionOf(Other(who)).outSequence;
    DirectionFacts(suite, t, who);
    TalkIsCallable(suite, t);
    MailedRises(n, ps, taken);
    RisingIsDistinct(taken);
    MailedShorter(ps, taken);
    PlacesOfGiven(n, ps, taken, delivered, given);
    NextDelivered(delivered, taken, given);
    var i: nat :|
      && i < |taken| && taken[i] == delivered[|given|]
              && (i in given || forall j: nat :: j in given <==> j < i);
    VersionAt(ps, i);
    MailedSequence(n, ps, taken, i);
    if i in given {
      RepeatIsRejected(suite, t, who, i, newKey);
    } else {
      NextOneOpens(suite, t, who, i, newKey);
    }
    assert Opens(suite, t, who, delivered[|given|].raw, i, newKey);
  }

  lemma VersionAt(ps: seq<Packet>, i: nat)
    requires Versioned(ps) && i < |ps|
    ensures ps[i].version <= CURRENT_VERSION
  {}

  lemma PlacesOfGiven(outSequence: nat, ps: seq<Packet>, taken: seq<Item>, delivered: seq<Item>, given: seq<nat>)
    requires Mailed(ps, taken) && NumbersOk(outSequence, ps) && Versioned(ps) && TakenFrom(ps, delivered, given)
    requires Dedup(delivered) <= taken
    ensures |given| <= |delivered|
    ensures forall j :: 0 <= j < |given| ==> given[j] < |taken| && delivered[j] == taken[given[j]]
  {
    hide Mailed, Decode, NumbersOk, Versioned, Dedup;
    forall j | 0 <= j < |given|
      ensures given[j] < |taken| && delivered[j] == taken[given[j]]
    {
      assert delivered[j] in Dedup(delivered);
      PlaceOfGiven(outSequence, ps, taken, delivered, given, j);
    }
  }

  /**
   * Sessions over the relay: the packets of one direction are marshalled and routed, through the
   * recipient's mailbox or directly in their turn, direct sends and flushes fail where they will,
   * sends cross, and the recipient takes what the relay delivers in the order it comes. Then at every
   * moment the next delivery is the next packet not yet heard, and opens to the plaintext that was
   * sent, or one heard before, and is rejected. So no run over the relay leaves the channel conditions
   * of module Conversation.
   */
  lemma DeliveriesOpenInOrder(suite: Suite, idA: Bytes, idB: Bytes, e: Bytes, f: Bytes, ratchetKey: Bytes,
                              talk: seq<TalkStep>, now: int, run: seq<RelayStep>, fp: Bytes, who: Party, newKey: Bytes)
    requires suite.Correct() && FreshStart(e, f, ratchetKey)
    requires TalkAdmissible(suite, StartTalk(idA, idB, e, f, ratchetKey), talk)
    requires RelayAdmissible(EmptyRelay(now), run, Orderly(fp))
    requires
      var t := TalkRun(suite, StartTalk(idA, idB, e, f, ratchetKey), talk);
      var r := RelayRun(EmptyRelay(now), run, Orderly(fp));
      && Mailed(t.SentBy(Other(who)), Log(r.taken, fp))
      && TakenFrom(t.SentBy(Other(who)), Log(r.sentTo, fp), Given(talk, who))
      && |Given(talk, who)| < |Log(r.sentTo, fp)| && IsFresh(t.pair.sch, newKey)
    ensures
      var t := TalkRun(suite, StartTalk(idA, idB, e, f, ratchetKey), talk);
      var r := RelayRun(EmptyRelay(now), run, Orderly(fp));
      exists i: nat :: Opens(suite, t, who, Log(r.sentTo, fp)[|Given(talk, who)|].raw, i, newKey)
  {
    hide *;
    TalkFacts(suite, idA, idB, e, f, ratchetKey, talk, who);
    FirstOccurrencesInOrder(now, run, fp);
    var t := TalkRun(suite, StartTalk(idA, idB, e, f, ratchetKey), talk);
    var r := RelayRun(EmptyRelay(now), run, Orderly(fp));
    NextOpens(suite, t, who, Log(r.sentTo, fp), Log(r.taken, fp), Given(talk, who), newKey);
  }

  /** Once the mailbox is empty and all deliveries were given, precisely the packets taken on have been heard. */
  lemma NothingIsMissed(suite: Suite, idA: Bytes, idB: Bytes, e: Bytes, f: Bytes, ratchetKey: Bytes,
                        talk: seq<TalkStep>, now: int, run: seq<RelayStep>, fp: Bytes, who: Party)
    requires suite.Correct() && FreshStart(e, f, ratchetKey)
    requires TalkAdmissible(suite, StartTalk(idA, idB, e, f, ratchetKey), talk)
    requires RelayAdmissible(EmptyRelay(now), run, Orderly(fp))
    requires
      var t := TalkRun(suite, StartTalk(idA, idB, e, f, ratchetKey), talk);
      var r := RelayRun(EmptyRelay(now), run, Orderly(fp));
      && Mailed(t.SentBy(Other(who)), Log(r.taken, fp))
      && TakenFrom(t.SentBy(Other(who)), Log(r.sentTo, fp), Given(talk, who))
      && |Given(talk, who)| == |Log(r.sentTo, fp)| && Pending(r.boxes, fp) == []
    ensures
      var t := TalkRun(suite, StartTalk(idA, idB, e, f, ratchetKey), talk);
      var r := RelayRun(EmptyRelay(now), run, Orderly(fp));
      forall i: nat :: i in t.Heard(who) <==> i < |Log(r.taken, fp)|
  {
    hide *;
    TalkFacts(suite, idA, idB, e, f, ratchetKey, talk, who);
    FirstOccurrencesInOrder(now, run, fp);
    var t := TalkRun(suite, StartTalk(idA, idB, e, f, ratchetKey), talk);
    var r := RelayRun(EmptyRelay(now), run, Orderly(fp));
    assert Log(r.sentTo, fp) + [] == Log(r.sentTo, fp);
    AllHeard(suite, t, who, Log(r.sentTo, fp), Log(r.taken, fp), Given(talk, who));
  }

  lemma AllHeard(suite: Suite, t: Talk, who: Party, delivered: seq<Item>, taken: seq<Item>, given: seq<nat>)
    requires TalkOk(suite, t)
    requires Mailed(t.SentBy(Other(who)), taken) && TakenFrom(t.SentBy(Other(who)), delivered, given)
    requires Dedup(delivered) == Dedup(taken) && |given| == |delivered|
    requires forall i: nat :: i in given <==> i in t.Heard(who)
    ensures forall i: nat :: i in t.Heard(who) <==> i < |taken|
  {
    hide TalkOk, Mailed, TakenFrom, Rising, Dedup, Versioned, NumbersOk, Decode;
    var ps, n := t.SentBy(Other(who)), t.SessionOf(Other(who)).outSequence;
    DirectionFacts(suite, t, who);
    MailedRises(n, ps, taken);
    RisingIsDistinct(taken);
    PlacesOfGiven(n, ps, taken, delivered, given);
    FirstsAreGiven(delivered, taken, given);
  }
}
