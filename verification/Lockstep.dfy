/**
 * Two ratchets and two message channels as a step system. Sends cross freely; each channel keeps
 * order and never delivers twice, but may lose messages when the receiver is given the sender's
 * counter. The invariant says that both ratchets walk one key schedule in lockstep.
 */
module Lockstep {
  import opened Common
  import opened Keys
  import opened Primitives
  import opened Ratchets
  import opened Schedules

  datatype Party = Initiator | Responder

  /** A sent message with its place in the schedule and the key it was sealed under. */
  datatype Message = Message(
    gen: nat, pos: nat, key: Key, plaintext: Bytes, aad: Bytes, nonce: Bytes, sealed: Sealed)

  /**
   * A ratchet with its history: `gen` root steps made, `sent` messages sent on the current sending
   * chain, `rcvd` positions of the current receiving chain used up.
   */
  datatype Side = Side(st: RatchetState, gen: nat, sent: nat, rcvd: nat)

  /** Messages in sending order; those before `next` were delivered (indices in `got`) or passed over. */
  datatype Channel = Channel(messages: seq<Message>, next: nat, got: set<nat>)

  datatype Pair = Pair(a: Side, b: Side, ab: Channel, ba: Channel, sch: Schedule)
  {
    function SideOf(who: Party): Side { if who.Initiator? then a else b }
    function Outgoing(who: Party): Channel { if who.Initiator? then ab else ba }
    function Incoming(who: Party): Channel { if who.Initiator? then ba else ab }

    /** `who` now has `side`, `sending` and `receiving` channels. */
    function With(who: Party, side: Side, sending: Channel, receiving: Channel, sch: Schedule): Pair
    {
      if who.Initiator? then Pair(side, b, sending, receiving, sch)
      else Pair(a, side, receiving, sending, sch)
    }
  }

  function Other(who: Party): Party
  {
    if who.Initiator? then Responder else Initiator
  }

  datatype Step =
    | Send(who: Party, plaintext: Bytes, staticAad: Bytes, getAad: Option<Bytes -> Bytes>, newKey: Bytes, nonce: Bytes)
    | Receive(who: Party, i: nat, sequence: nat, newKey: Bytes)

  // ---------------------------------------------------------------- the step system

  /** Both ratchets right after a handshake with key pairs `e` (initiator) and `f` (responder). */
  function Start(e: Bytes, f: Bytes, newKey: Bytes): Pair
  {
    var secret := Master(Dh({e, f}));
    Pair(Side(InitiatorState(secret, f, Priv(newKey)), 1, 0, 0),
         Side(ResponderState(secret, Priv(f)), 0, 0, 0),
         Channel([], 0, {}), Channel([], 0, {}), Schedule(e, [f, newKey]))
  }

  predicate FreshStart(e: Bytes, f: Bytes, newKey: Bytes)
  {
    |f| == |newKey| == KEY_SIZE && e != f && e != newKey && f != newKey
  }

  /** The place on `m`'s chain from which receiver `y` goes on: where it stands, or the start of a new chain. */
  function StartPosition(y: Side, m: Message): nat
  {
    if m.gen == y.gen - 1 then y.rcvd else 0
  }

  /**
   * A delivery takes any message not yet passed, with the counter RatchetEncrypt returned for it
   * and below the point where that counter wraps; or, with sequence 0 as sessions call it, the next
   * message of the receiver's chain or the first of a new one. Module Deliveries shows that this is
   * when the ratchet tries the right key.
   */
  predicate MayPick(y: Side, ch: Channel, i: nat, sequence: nat)
  {
    && ch.next <= i < |ch.messages|
    && var m := ch.messages[i];
       if sequence == 0 then m.pos == StartPosition(y, m) + 1 else sequence == m.sealed.sequence && m.pos < TWO_32
  }

  /** Delivered indices are below `next`, and the one just below it was delivered. */
  ghost predicate GotOk(ch: Channel)
  {
    && ch.next <= |ch.messages|
    && (forall j :: j in ch.got ==> j < ch.next)
    && (ch.next > 0 ==> ch.next - 1 in ch.got)
  }

  /** Generated keys are fresh, nonces have the right size, deliveries keep to the channel. */
  predicate Enabled(p: Pair, s: Step)
  {
    && IsFresh(p.sch, s.newKey)
    && match s
       case Send(_, _, _, _, _, nonce) => |nonce| == NONCE_SIZE
       case Receive(who, i, sequence, _) =>
         MayPick(p.SideOf(who), p.Incoming(who), i, sequence)
  }

  function SendCall(suite: Suite, p: Pair, s: Step): (RatchetState, Result<Sealed, RatchetError>)
    requires s.Send?
  {
    Encrypt(suite, p.SideOf(s.who).st, s.plaintext, s.staticAad, s.getAad, Priv(s.newKey), s.nonce)
  }

  function ReceiveCall(suite: Suite, p: Pair, s: Step): (RatchetState, Result<Bytes, RatchetError>)
    requires s.Receive? && s.i < |p.Incoming(s.who).messages|
  {
    var m := p.Incoming(s.who).messages[s.i];
    Decrypt(suite, p.SideOf(s.who).st, m.sealed.ephemeral, m.sealed.full, m.aad, s.sequence, Priv(s.newKey))
  }

  /** The AAD that the caller of RatchetEncrypt means. */
  function CallersAad(ephemeral: Bytes, staticAad: Bytes, getAad: Option<Bytes -> Bytes>): Bytes
  {
    match getAad
    case None => staticAad
    case Some(f) => f(ephemeral)
  }

  /** A send that the ratchet refuses puts nothing on the channel. */
  function DoSend(suite: Suite, p: Pair, s: Step): Pair
    requires s.Send?
  {
    var side := p.SideOf(s.who);
    var (st, r) := SendCall(suite, p, s);
    if r.Err? then p.With(s.who, side.(st := st), p.Outgoing(s.who), p.Incoming(s.who), p.sch)
    else
      var ready := ReadyToSend(side.st, Priv(s.newKey)).value;
      var aad := CallersAad(ready.dhLocal.pub, s.staticAad, s.getAad);
      var m := Message(side.gen, side.sent + 1, Msg(ready.cks.value), s.plaintext, aad, s.nonce, r.value);
      var ch := p.Outgoing(s.who);
      var ch' := ch.(messages := ch.messages + [m]);
      p.With(s.who, side.(st := st, sent := side.sent + 1), ch', p.Incoming(s.who), p.sch)
  }

  function DoReceive(suite: Suite, p: Pair, s: Step): Pair
    requires s.Receive? && s.i < |p.Incoming(s.who).messages|
  {
    var side, ch := p.SideOf(s.who), p.Incoming(s.who);
    var m := ch.messages[s.i];
    var (st, r) := ReceiveCall(suite, p, s);
    var newChain := side.st.dhPeer != Some(m.sealed.ephemeral);
    var side' := if newChain then Side(st, side.gen + 2, 0, m.pos) else side.(st := st, rcvd := m.pos);
    p.With(s.who, side', p.Outgoing(s.who), ch.(next := s.i + 1, got := ch.got + {s.i}),
           if newChain then Extend(p.sch, s.newKey) else p.sch)
  }

  function Do(suite: Suite, p: Pair, s: Step): Pair
    requires Enabled(p, s)
  {
    if s.Send? then DoSend(suite, p, s) else DoReceive(suite, p, s)
  }

  /** Every step of the run is enabled where it is taken. */
  predicate Admissible(suite: Suite, p: Pair, run: seq<Step>)
    decreases |run|, 0
  {
    run == [] || (Admissible(suite, p, run[..|run| - 1]) && Enabled(Run(suite, p, run[..|run| - 1]), run[|run| - 1]))
  }

  function Run(suite: Suite, p: Pair, run: seq<Step>): Pair
    requires Admissible(suite, p, run)
    decreases |run|, 1
  {
    if run == [] then p else Do(suite, Run(suite, p, run[..|run| - 1]), run[|run| - 1])
  }

  // ---------------------------------------------------------------- the invariant

  /** A ratchet holds exactly what its place in the schedule prescribes. */
  ghost predicate SideOk(x: Side, sch: Schedule)
  {
    && x.gen < |sch.keys|
    && x.st.dhLocal == Priv(sch.keys[x.gen])
    && x.st.rk == RootKey(sch, x.gen)
    && x.st.ns == (1 + x.sent) % TWO_32
    && x.st.nr == (1 + x.rcvd) % TWO_32
    && (x.gen == 0 ==> x.st.dhPeer == None && x.st.cks == None && x.sent == 0)
    && (x.gen >= 1 ==>
          && x.st.dhPeer == Some(sch.keys[x.gen - 1])
          && x.st.cks == Some(Advance(ChainKey(sch, x.gen), x.sent)))
    && (x.gen <= 1 ==> x.st.ckr == None && x.rcvd == 0)
    && (x.gen >= 2 ==> x.st.ckr == Some(Advance(ChainKey(sch, x.gen - 1), x.rcvd)))
  }

  /** `m` was sealed by its sender under the scheduled key of its place. */
  ghost predicate MessageOk(suite: Suite, m: Message, sch: Schedule)
  {
    && 1 <= m.gen < |sch.keys| && 1 <= m.pos
    && m.key == MessageKey(sch, m.gen, m.pos)
    && |m.nonce| == NONCE_SIZE
    && m.sealed == Sealed(sch.keys[m.gen], m.nonce + suite.seal(m.key, m.nonce, m.plaintext, m.aad), m.pos % TWO_32)
  }

  ghost predicate Before(m: Message, n: Message)
  {
    m.gen < n.gen || (m.gen == n.gen && m.pos < n.pos)
  }

  /** `n` is the message sent right after `m`. */
  ghost predicate Follows(m: Message, n: Message)
  {
    (m.gen == n.gen && n.pos == m.pos + 1) || (m.gen < n.gen && n.pos == 1)
  }

  /** The places of the messages of sender `x`: in order, without gaps, up to where it stands. */
  ghost predicate PlacesOk(x: Side, ms: seq<Message>)
  {
    && (forall i :: 0 <= i < |ms| ==>
          1 <= ms[i].gen <= x.gen && 1 <= ms[i].pos && (ms[i].gen == x.gen ==> ms[i].pos <= x.sent))
    && (forall i, j :: 0 <= i < j < |ms| ==> Before(ms[i], ms[j]))
    && (ms != [] ==> ms[0].pos == 1)
    && (forall i, j :: 0 <= i < j < |ms| && j == i + 1 ==> Follows(ms[i], ms[j]))
    && (x.sent == 0 ==> ms == [] || ms[|ms| - 1].gen < x.gen)
    && (x.sent > 0 ==> ms != [] && ms[|ms| - 1].gen == x.gen && ms[|ms| - 1].pos == x.sent)
  }

  /** What is on a channel was put there by a sender that kept to the schedule. */
  ghost predicate SentOk(suite: Suite, ms: seq<Message>, sch: Schedule)
  {
    forall i :: 0 <= i < |ms| ==> MessageOk(suite, ms[i], sch)
  }

  /** The initiator sends in odd generations, the responder in even ones. */
  ghost predicate ParityOk(who: Party, x: Side, ms: seq<Message>)
  {
    && Odd(x.gen) == who.Initiator?
    && forall i :: 0 <= i < |ms| ==> Odd(ms[i].gen) == who.Initiator?
  }

  predicate Odd(n: nat)
  {
    n % 2 == 1
  }

  /** What is still to come is in step with its receiver `y`. */
  ghost predicate PendingOk(y: Side, ch: Channel)
  {
    var ms := ch.messages;
    && ch.next <= |ms|
    && (ch.next == 0 ==> y.gen <= 1)
    && (ch.next > 0 ==> ms[ch.next - 1].gen == y.gen - 1 && ms[ch.next - 1].pos == y.rcvd)
    && (forall i :: ch.next <= i < |ms| ==> ms[i].gen == y.gen - 1 || ms[i].gen == y.gen + 1)
  }

  /** The two generations differ by one, and no key beyond the newer one exists. */
  ghost predicate InStep(x: Side, y: Side, sch: Schedule)
  {
    && ScheduleOk(sch)
    && (x.gen == y.gen + 1 || y.gen == x.gen + 1)
    && |sch.keys| == 1 + if x.gen < y.gen then y.gen else x.gen
  }

  /** The lockstep invariant, symmetric in the two parties. */
  ghost predicate PartsOk(suite: Suite, x: Side, y: Side, xy: Channel, yx: Channel, sch: Schedule)
  {
    && InStep(x, y, sch)
    && SideOk(x, sch) && SideOk(y, sch)
    && PlacesOk(x, xy.messages) && PlacesOk(y, yx.messages)
    && SentOk(suite, xy.messages, sch) && SentOk(suite, yx.messages, sch)
    && PendingOk(y, xy) && PendingOk(x, yx)
    && GotOk(xy) && GotOk(yx)
  }

  ghost predicate PairOk(suite: Suite, p: Pair)
  {
    && PartsOk(suite, p.a, p.b, p.ab, p.ba, p.sch)
    && ParityOk(Initiator, p.a, p.ab.messages)
    && ParityOk(Responder, p.b, p.ba.messages)
  }

  // ---------------------------------------------------------------- the ratchet operations in step

  /** What the skip loop does to the chain and the counters. */
  lemma {:induction false} SkipAdvances(st: RatchetState, peer: Bytes, sequence: nat)
    requires st.ckr.Some?
    ensures
      var n := if sequence > st.nr then sequence - st.nr else 0;
      var r := Skip(st, peer, sequence);
      r == st.(ckr := Some(Advance(st.ckr.value, n)), nr := st.nr + n, skipped := r.skipped)
    decreases sequence - st.nr
  {
    if st.nr < sequence {
      var (next, key) := DeriveRatchetedKeys(st.ckr.value);
      var st' := st.(ckr := Some(next), skipped := st.skipped[(peer, st.nr) := key], nr := st.nr + 1);
      SkipAdvances(st', peer, sequence);
      AdvanceNext(st.ckr.value, sequence - st.nr - 1);
    }
  }

  /** The side that results from receiving `m`. */
  function Received(suite: Suite, y: Side, m: Message, sequence: nat, newKey: Bytes): Side
  {
    var st := Decrypt(suite, y.st, m.sealed.ephemeral, m.sealed.full, m.aad, sequence, Priv(newKey)).0;
    if y.st.dhPeer != Some(m.sealed.ephemeral) then Side(st, y.gen + 2, 0, m.pos) else y.(st := st, rcvd := m.pos)
  }

  function Opened(suite: Suite, y: Side, m: Message, sequence: nat, newKey: Bytes): Result<Bytes, RatchetError>
  {
    Decrypt(suite, y.st, m.sealed.ephemeral, m.sealed.full, m.aad, sequence, Priv(newKey)).1
  }

  /** `sequence` leads a receiving chain at position `rcvd` to `m`. */
  ghost predicate Reaches(rcvd: nat, m: Message, sequence: nat)
  {
    rcvd < m.pos && ((sequence == 0 && m.pos == rcvd + 1) || (sequence == m.pos && m.pos < TWO_32))
  }

  /** The skip loop lands on the key of `m`'s place. */
  lemma LandsOnChain(st: RatchetState, chain: Key, rcvd: nat, m: Message, sequence: nat)
    requires Reaches(rcvd, m, sequence)
    requires st.ckr == Some(Advance(chain, rcvd)) && st.nr == (1 + rcvd) % TWO_32
    ensures
      var s2 := Skip(st, m.sealed.ephemeral, sequence);
      && s2.ckr == Some(Advance(chain, m.pos - 1))
      && Inc32(s2.nr) == (1 + m.pos) % TWO_32
      && s2 == st.(ckr := s2.ckr, nr := s2.nr, skipped := s2.skipped)
  {
    SkipAdvances(st, m.sealed.ephemeral, sequence);
    AdvanceSum(chain, rcvd, m.pos - 1 - rcvd);
    CounterLands(rcvd, m, sequence);
    hide Skip, Advance, Inc32, Reaches;
  }

  /** The counter at the end of the skip loop, and how far the loop went. */
  lemma CounterLands(rcvd: nat, m: Message, sequence: nat)
    requires Reaches(rcvd, m, sequence)
    ensures
      var nr := (1 + rcvd) % TWO_32;
      var n := if sequence > nr then sequence - nr else 0;
      rcvd + n == m.pos - 1 && Inc32(nr + n) == (1 + m.pos) % TWO_32
  {
    if sequence != 0 {
      assert (1 + rcvd) % TWO_32 == 1 + rcvd;
    }
  }

  /** The receiver's split of what was sealed, opened under the scheduled key. */
  lemma OpensSealed(suite: Suite, m: Message, sch: Schedule)
    requires suite.OpensWhatItSeals() && MessageOk(suite, m, sch)
    ensures suite.open(m.key, m.sealed.full[..NONCE_SIZE], m.sealed.full[NONCE_SIZE..], m.aad) == Some(m.plaintext)
  {
    hide MessageKey;
    assert m.sealed.full[..NONCE_SIZE] == m.nonce;
    assert m.sealed.full[NONCE_SIZE..] == suite.seal(m.key, m.nonce, m.plaintext, m.aad);
  }

  /** From a chain in step with `m`'s, the skip loop lands on `m`'s key and the plaintext comes out. */
  lemma OpensOnChain(suite: Suite, s1: RatchetState, rcvd: nat, m: Message, sequence: nat, sch: Schedule)
    requires suite.OpensWhatItSeals() && MessageOk(suite, m, sch) && Reaches(rcvd, m, sequence)
    requires s1.ckr == Some(Advance(ChainKey(sch, m.gen), rcvd)) && s1.nr == (1 + rcvd) % TWO_32
    ensures
      var s2 := Skip(s1, m.sealed.ephemeral, sequence);
      && s2.ckr == Some(Advance(ChainKey(sch, m.gen), m.pos - 1))
      && Msg(s2.ckr.value) == m.key
      && Inc32(s2.nr) == (1 + m.pos) % TWO_32
      && s2 == s1.(ckr := s2.ckr, nr := s2.nr, skipped := s2.skipped)
      && suite.open(m.key, m.sealed.full[..NONCE_SIZE], m.sealed.full[NONCE_SIZE..], m.aad) == Some(m.plaintext)
  {
    OpensSealed(suite, m, sch);
    LandsOnChain(s1, ChainKey(sch, m.gen), rcvd, m, sequence);
    hide Skip, Advance, ChainKey;
  }

  function Depth(k: Key): nat
  {
    match k
    case Master(_) => 0
    case Root(prev, _) => 1 + Depth(prev)
    case Chain(prev, _) => 1 + Depth(prev)
    case Next(chain) => 1 + Depth(chain)
    case Msg(chain) => 1 + Depth(chain)
  }

  lemma {:induction false} AdvanceDepth(k: Key, n: nat)
    ensures Depth(Advance(k, n)) == Depth(k) + n
  {
    if n > 0 {
      AdvanceDepth(k, n - 1);
    }
  }

  /**
   * How far the uint32 counter carries: given the counter RatchetEncrypt returned for position
   * `pos`, the skip loop lands on that position exactly when nothing was lost since the last one
   * or the counter did not wrap in between.
   */
  lemma CounterReachesExactly(st: RatchetState, chain: Key, rcvd: nat, pos: nat, peer: Bytes)
    requires st.ckr == Some(Advance(chain, rcvd)) && st.nr == (1 + rcvd) % TWO_32 && rcvd < pos
    ensures Skip(st, peer, pos % TWO_32).ckr == Some(Advance(chain, pos - 1))
            <==> pos == rcvd + 1 || (rcvd + 1) / TWO_32 == pos / TWO_32
  {
    var sequence := pos % TWO_32;
    var n := if sequence > st.nr then sequence - st.nr else 0;
    SkipAdvances(st, peer, sequence);
    AdvanceSum(chain, rcvd, n);
    AdvanceDepth(chain, rcvd + n);
    AdvanceDepth(chain, pos - 1);
    assert pos == TWO_32 * (pos / TWO_32) + sequence;
    assert rcvd + 1 == TWO_32 * ((rcvd + 1) / TWO_32) + st.nr;
  }

  /** A message of the chain the receiver already follows. */
  lemma ReceiveSameChain(suite: Suite, y: Side, m: Message, sequence: nat, newKey: Bytes, sch: Schedule)
    requires suite.OpensWhatItSeals() && ScheduleOk(sch) && SideOk(y, sch) && MessageOk(suite, m, sch)
    requires m.gen == y.gen - 1 && Reaches(y.rcvd, m, sequence)
    ensures y.st.dhPeer == Some(m.sealed.ephemeral)
    ensures Opened(suite, y, m, sequence, newKey) == Ok(m.plaintext)
    ensures SideOk(Received(suite, y, m, sequence, newKey), sch)
  {
    OpensOnChain(suite, y.st, y.rcvd, m, sequence, sch);
  }

  /** The root step made with the peer's new key. */
  lemma PeerRootStep(y: Side, sch: Schedule)
    requires ScheduleOk(sch) && SideOk(y, sch) && |sch.keys| == y.gen + 2
    ensures DeriveRootStep(y.st.rk, SharedSecret(y.st.dhLocal, sch.keys[y.gen + 1])) ==
            (RootKey(sch, y.gen + 1), ChainKey(sch, y.gen + 1))
  {
    hide ScheduleOk;
    var g := y.gen;
    assert {sch.keys[g], sch.keys[g + 1]} == {sch.keys[g + 1], sch.keys[g]};
  }

  /** The root step made with our own new key. */
  lemma OwnRootStep(sch: Schedule, newKey: Bytes)
    requires ScheduleOk(sch) && IsFresh(sch, newKey)
    ensures
      var g := |sch.keys| - 1;
      DeriveRootStep(RootKey(sch, g), SharedSecret(Priv(newKey), sch.keys[g])) ==
      (RootKey(Extend(sch, newKey), g + 1), ChainKey(Extend(sch, newKey), g + 1))
  {
    ExtendKeepsKeys(sch, newKey);
    hide ScheduleOk;
  }

  /** The two root steps on meeting the key of generation `y.gen + 1`. */
  lemma DhStepInStep(y: Side, newKey: Bytes, sch: Schedule)
    requires ScheduleOk(sch) && SideOk(y, sch) && |sch.keys| == y.gen + 2 && IsFresh(sch, newKey)
    ensures
      var s1 := DhStep(y.st, sch.keys[y.gen + 1], Priv(newKey));
      && s1.ckr == Some(ChainKey(sch, y.gen + 1)) && s1.nr == 1
      && SideOk(Side(s1, y.gen + 2, 0, 0), Extend(sch, newKey))
  {
    PeerRootStep(y, sch);
    OwnRootStep(sch, newKey);
    ExtendKeepsKeys(sch, newKey);
    hide ScheduleOk, IsFresh, RootKey, ChainKey, SharedSecret, DeriveRootStep;
  }

  /** Taking `m`'s key off the chain that the root steps opened. */
  lemma SideAfterNewChain(y: Side, s1: RatchetState, m: Message, s2: RatchetState, newKey: Bytes, sch: Schedule)
    requires ScheduleOk(sch) && IsFresh(sch, newKey) && |sch.keys| == y.gen + 2 && m.gen == y.gen + 1 && 1 <= m.pos
    requires SideOk(Side(s1, y.gen + 2, 0, 0), Extend(sch, newKey))
    requires s2 == s1.(ckr := s2.ckr, nr := s2.nr, skipped := s2.skipped)
    requires s2.ckr == Some(Advance(ChainKey(sch, m.gen), m.pos - 1))
    requires Inc32(s2.nr) == (1 + m.pos) % TWO_32
    ensures
      var s3 := s2.(ckr := Some(Next(s2.ckr.value)), nr := Inc32(s2.nr));
      SideOk(Side(s3, y.gen + 2, 0, m.pos), Extend(sch, newKey))
  {
    ExtendKeepsKeys(sch, newKey);
  }

  /** The first message seen of a new chain. */
  lemma ReceiveNewChain(suite: Suite, y: Side, m: Message, sequence: nat, newKey: Bytes, sch: Schedule)
    requires suite.OpensWhatItSeals() && ScheduleOk(sch) && SideOk(y, sch) && MessageOk(suite, m, sch)
    requires m.gen == y.gen + 1 && |sch.keys| == y.gen + 2 && Reaches(0, m, sequence) && IsFresh(sch, newKey)
    ensures y.st.dhPeer != Some(m.sealed.ephemeral)
    ensures Opened(suite, y, m, sequence, newKey) == Ok(m.plaintext)
    ensures SideOk(Received(suite, y, m, sequence, newKey), Extend(sch, newKey))
  {
    DhStepInStep(y, newKey, sch);
    var peer := m.sealed.ephemeral;
    assert peer == sch.keys[y.gen + 1];
    assert y.st.dhPeer != Some(peer);
    var s1 := DhStep(y.st, peer, Priv(newKey));
    OpensOnChain(suite, s1, 0, m, sequence, sch);
    hide MessageOk, ScheduleOk, Reaches;
    SideAfterNewChain(y, s1, m, Skip(s1, peer, sequence), newKey, sch);
  }

  /** The message that a send by `x` puts on its channel. */
  function Outbound(suite: Suite, x: Side, plaintext: Bytes, aad: Bytes, nonce: Bytes): Message
    requires x.st.cks.Some?
  {
    var key := Msg(x.st.cks.value);
    Message(x.gen, x.sent + 1, key, plaintext, aad, nonce,
            Sealed(x.st.dhLocal.pub, nonce + suite.seal(key, nonce, plaintext, aad), x.st.ns))
  }

  /** Sending keeps a side in step; the refused send is exactly the responder's before it received. */
  lemma SendInStep(suite: Suite, x: Side, plaintext: Bytes, staticAad: Bytes, getAad: Option<Bytes -> Bytes>,
                   newKey: Bytes, nonce: Bytes, sch: Schedule)
    requires SideOk(x, sch) && |nonce| == NONCE_SIZE
    ensures
      var (st, r) := Encrypt(suite, x.st, plaintext, staticAad, getAad, Priv(newKey), nonce);
      var aad := CallersAad(x.st.dhLocal.pub, staticAad, getAad);
      && (x.gen == 0 ==> st == x.st && r == Err(NoRemoteKey))
      && (x.gen > 0 ==>
            && ReadyToSend(x.st, Priv(newKey)) == Ok(x.st)
            && r == Ok(Outbound(suite, x, plaintext, aad, nonce).sealed)
            && SideOk(x.(st := st, sent := x.sent + 1), sch)
            && MessageOk(suite, Outbound(suite, x, plaintext, aad, nonce), sch))
  {}

  // ---------------------------------------------------------------- the steps keep the invariant

  /** Appending the next message of the sending chain. */
  lemma PlacesAppend(x: Side, x': Side, ms: seq<Message>, m: Message)
    requires PlacesOk(x, ms) && x'.gen == x.gen > 0 && x'.sent == x.sent + 1
    requires m.gen == x.gen && m.pos == x.sent + 1
    ensures PlacesOk(x', ms + [m])
  {
    var ms' := ms + [m];
    forall i | 0 <= i < |ms|
      ensures Before(ms'[i], m)
    {
      assert i < |ms| - 1 ==> Before(ms[i], ms[|ms| - 1]);
    }
    assert ms != [] ==> Follows(ms[|ms| - 1], m);
  }

  lemma SentOkAppends(suite: Suite, ms: seq<Message>, m: Message, sch: Schedule)
    requires SentOk(suite, ms, sch) && MessageOk(suite, m, sch)
    ensures SentOk(suite, ms + [m], sch)
  {
    forall i | 0 <= i < |ms + [m]|
      ensures MessageOk(suite, (ms + [m])[i], sch)
    {
      if i < |ms| {
        assert MessageOk(suite, ms[i], sch);
      }
    }
  }

  lemma PendingAppends(y: Side, ch: Channel, m: Message)
    requires PendingOk(y, ch) && (m.gen == y.gen - 1 || m.gen == y.gen + 1)
    ensures PendingOk(y, ch.(messages := ch.messages + [m]))
  {}

  /** These predicates read only the place of a side, not its fields. */
  lemma PlacesReadsPlace(x: Side, x': Side, ms: seq<Message>, ch: Channel)
    requires x'.gen == x.gen
    ensures x'.sent == x.sent && PlacesOk(x, ms) ==> PlacesOk(x', ms)
    ensures x'.rcvd == x.rcvd && PendingOk(x, ch) ==> PendingOk(x', ch)
  {}

  /** A receiver that makes two root steps has only older generations behind it on its own channel. */
  lemma PlacesStepOver(y: Side, y': Side, ms: seq<Message>)
    requires PlacesOk(y, ms) && y'.gen == y.gen + 2 && y'.sent == 0
    ensures PlacesOk(y', ms)
  {}

  lemma SentOkExtends(suite: Suite, ms: seq<Message>, sch: Schedule, newKey: Bytes)
    requires SentOk(suite, ms, sch) && ScheduleOk(sch) && IsFresh(sch, newKey)
    ensures SentOk(suite, ms, Extend(sch, newKey))
  {
    ExtendKeepsKeys(sch, newKey);
    forall i | 0 <= i < |ms|
      ensures MessageOk(suite, ms[i], Extend(sch, newKey))
    {
      assert MessageOk(suite, ms[i], sch);
    }
  }

  lemma SideOkExtends(x: Side, sch: Schedule, newKey: Bytes)
    requires SideOk(x, sch) && ScheduleOk(sch) && IsFresh(sch, newKey)
    ensures SideOk(x, Extend(sch, newKey))
  {
    ExtendKeepsKeys(sch, newKey);
  }

  /** The message a receive step picks is ahead of the receiver on the chain it belongs to. */
  lemma PickedPlace(x: Side, y: Side, ch: Channel, i: nat)
    requires PlacesOk(x, ch.messages) && PendingOk(y, ch) && ch.next <= i < |ch.messages|
    ensures
      var m := ch.messages[i];
      && (m.gen == y.gen - 1 ==> y.rcvd < m.pos && (i == ch.next ==> m.pos == y.rcvd + 1))
      && (m.gen == y.gen + 1 ==> 0 < m.pos && (i == ch.next ==> m.pos == 1))
  {
    var ms := ch.messages;
    if ch.next > 0 {
      assert Before(ms[ch.next - 1], ms[i]);
      assert i == ch.next ==> Follows(ms[ch.next - 1], ms[i]);
    }
  }

  lemma PickedGeneration(y: Side, ch: Channel, i: nat)
    requires PendingOk(y, ch) && ch.next <= i < |ch.messages|
    ensures ch.messages[i].gen == y.gen - 1 || ch.messages[i].gen == y.gen + 1
  {}

  lemma PickedMessage(suite: Suite, x: Side, y: Side, ch: Channel, i: nat, sequence: nat, sch: Schedule)
    requires PlacesOk(x, ch.messages) && SentOk(suite, ch.messages, sch) && PendingOk(y, ch)
    requires MayPick(y, ch, i, sequence)
    ensures MessageOk(suite, ch.messages[i], sch)
    ensures ch.messages[i].gen == y.gen - 1 ==> Reaches(y.rcvd, ch.messages[i], sequence)
    ensures ch.messages[i].gen == y.gen + 1 ==> Reaches(0, ch.messages[i], sequence)
  {
    PickedPlace(x, y, ch, i);
    assert MessageOk(suite, ch.messages[i], sch);
  }

  /** After message `i` was received, what follows it is still in step. */
  lemma PendingAdvances(x: Side, y: Side, y': Side, ch: Channel, i: nat, got: set<nat>)
    requires PlacesOk(x, ch.messages) && PendingOk(y, ch) && ch.next <= i < |ch.messages|
    requires x.gen <= y.gen + 1
    requires ch.messages[i].gen == y'.gen - 1 && ch.messages[i].pos == y'.rcvd
    requires y'.gen == y.gen || y'.gen == y.gen + 2
    ensures PendingOk(y', ch.(next := i + 1, got := got))
  {
    var ms := ch.messages;
    forall j | i < j < |ms|
      ensures ms[j].gen == y'.gen - 1 || ms[j].gen == y'.gen + 1
    {
      assert Before(ms[i], ms[j]);
    }
  }

  lemma ReceiveKeepsSame(suite: Suite, x: Side, y: Side, xy: Channel, yx: Channel, i: nat, sequence: nat, newKey: Bytes,
                         sch: Schedule)
    requires suite.OpensWhatItSeals() && PartsOk(suite, x, y, xy, yx, sch) && MayPick(y, xy, i, sequence)
    requires xy.messages[i].gen == y.gen - 1
    ensures
      var m := xy.messages[i];
      && y.st.dhPeer == Some(m.sealed.ephemeral)
      && Opened(suite, y, m, sequence, newKey) == Ok(m.plaintext)
      && PartsOk(suite, x, Received(suite, y, m, sequence, newKey), xy.(next := i + 1, got := xy.got + {i}), yx, sch)
  {
    hide SideOk, PlacesOk, SentOk, PendingOk, MessageOk, ScheduleOk;
    var m := xy.messages[i];
    PickedMessage(suite, x, y, xy, i, sequence, sch);
    ReceiveSameChain(suite, y, m, sequence, newKey, sch);
    hide Decrypt, Reaches;
    var y' := Received(suite, y, m, sequence, newKey);
    PlacesReadsPlace(y, y', yx.messages, yx);
    PendingAdvances(x, y, y', xy, i, xy.got + {i});
  }

  lemma ReceiveKeepsNew(suite: Suite, x: Side, y: Side, xy: Channel, yx: Channel, i: nat, sequence: nat, newKey: Bytes,
                        sch: Schedule)
    requires suite.OpensWhatItSeals() && PartsOk(suite, x, y, xy, yx, sch) && IsFresh(sch, newKey)
    requires MayPick(y, xy, i, sequence) && xy.messages[i].gen == y.gen + 1
    ensures
      var m := xy.messages[i];
      && y.st.dhPeer != Some(m.sealed.ephemeral)
      && Opened(suite, y, m, sequence, newKey) == Ok(m.plaintext)
      && PartsOk(suite, x, Received(suite, y, m, sequence, newKey), xy.(next := i + 1, got := xy.got + {i}), yx,
                 Extend(sch, newKey))
  {
    hide SideOk, PlacesOk, SentOk, PendingOk, MessageOk, ScheduleOk;
    var m := xy.messages[i];
    PickedMessage(suite, x, y, xy, i, sequence, sch);
    ReceiveNewChain(suite, y, m, sequence, newKey, sch);
    hide Decrypt, Reaches;
    var y' := Received(suite, y, m, sequence, newKey);
    ExtendKeepsKeys(sch, newKey);
    SideOkExtends(x, sch, newKey);
    SentOkExtends(suite, xy.messages, sch, newKey);
    SentOkExtends(suite, yx.messages, sch, newKey);
    PlacesStepOver(y, y', yx.messages);
    PendingAdvances(x, y, y', xy, i, xy.got + {i});
  }

  lemma SendKeeps(suite: Suite, x: Side, x': Side, y: Side, xy: Channel, yx: Channel, m: Message, sch: Schedule)
    requires PartsOk(suite, x, y, xy, yx, sch)
    requires x'.gen == x.gen > 0 && x'.sent == x.sent + 1 && x'.rcvd == x.rcvd && SideOk(x', sch)
    requires MessageOk(suite, m, sch) && m.gen == x.gen && m.pos == x.sent + 1
    ensures PartsOk(suite, x', y, xy.(messages := xy.messages + [m]), yx, sch)
  {
    hide SideOk, PlacesOk, SentOk, PendingOk, MessageOk, ScheduleOk;
    PlacesAppend(x, x', xy.messages, m);
    SentOkAppends(suite, xy.messages, m, sch);
    PendingAppends(y, xy, m);
    PlacesReadsPlace(x, x', xy.messages, yx);
  }

  /** PairOk, told from the point of view of either party. */
  lemma PairOkFrom(suite: Suite, p: Pair, who: Party)
    ensures PairOk(suite, p) <==>
              && PartsOk(suite, p.SideOf(who), p.SideOf(Other(who)), p.Outgoing(who), p.Incoming(who), p.sch)
              && ParityOk(who, p.SideOf(who), p.Outgoing(who).messages)
              && ParityOk(Other(who), p.SideOf(Other(who)), p.Incoming(who).messages)
  {
    hide ScheduleOk, SideOk, PlacesOk, SentOk, PendingOk, ParityOk;
  }

  lemma SendShape(suite: Suite, p: Pair, s: Step)
    requires s.Send? && SideOk(p.SideOf(s.who), p.sch) && |s.nonce| == NONCE_SIZE
    ensures p.SideOf(s.who).gen > 0 ==> p.SideOf(s.who).st.cks.Some?
    ensures
      var x := p.SideOf(s.who);
      var xy := p.Outgoing(s.who);
      if x.gen == 0 then DoSend(suite, p, s) == p && SendCall(suite, p, s) == (x.st, Err(NoRemoteKey))
      else
        var m := Outbound(suite, x, s.plaintext, CallersAad(x.st.dhLocal.pub, s.staticAad, s.getAad), s.nonce);
        var x' := x.(st := SendCall(suite, p, s).0, sent := x.sent + 1);
        && SendCall(suite, p, s).1 == Ok(m.sealed)
        && DoSend(suite, p, s) == p.With(s.who, x', xy.(messages := xy.messages + [m]), p.Incoming(s.who), p.sch)
        && SideOk(x', p.sch) && MessageOk(suite, m, p.sch)
  {
    SendInStep(suite, p.SideOf(s.who), s.plaintext, s.staticAad, s.getAad, s.newKey, s.nonce, p.sch);
    hide Encrypt, SideOk, MessageOk;
  }

  lemma DoSendKeeps(suite: Suite, p: Pair, s: Step)
    requires PairOk(suite, p) && s.Send? && Enabled(p, s)
    ensures PairOk(suite, DoSend(suite, p, s))
  {
    hide DoSend, SendCall, PairOk, InStep, SideOk, PlacesOk, SentOk, PendingOk, MessageOk;
    var x, y, xy, yx := p.SideOf(s.who), p.SideOf(Other(s.who)), p.Outgoing(s.who), p.Incoming(s.who);
    PairOkFrom(suite, p, s.who);
    SendShape(suite, p, s);
    PairOkFrom(suite, DoSend(suite, p, s), s.who);
    if x.gen > 0 {
      var x' := x.(st := SendCall(suite, p, s).0, sent := x.sent + 1);
      var m := Outbound(suite, x, s.plaintext, CallersAad(x.st.dhLocal.pub, s.staticAad, s.getAad), s.nonce);
      SendKeeps(suite, x, x', y, xy, yx, m, p.sch);
    }
  }

  lemma ReceiveShape(suite: Suite, p: Pair, s: Step)
    requires s.Receive? && s.i < |p.Incoming(s.who).messages|
    ensures
      var y, xy := p.SideOf(s.who), p.Incoming(s.who);
      var m := xy.messages[s.i];
      && ReceiveCall(suite, p, s).1 == Opened(suite, y, m, s.sequence, s.newKey)
      && DoReceive(suite, p, s) ==
           p.With(s.who, Received(suite, y, m, s.sequence, s.newKey), p.Outgoing(s.who),
                  xy.(next := s.i + 1, got := xy.got + {s.i}),
                  if y.st.dhPeer != Some(m.sealed.ephemeral) then Extend(p.sch, s.newKey) else p.sch)
  {
    hide Decrypt;
  }

  lemma DoReceiveKeeps(suite: Suite, p: Pair, s: Step)
    requires suite.OpensWhatItSeals() && PairOk(suite, p) && s.Receive? && Enabled(p, s)
    ensures PairOk(suite, DoReceive(suite, p, s))
    ensures ReceiveCall(suite, p, s).1 == Ok(p.Incoming(s.who).messages[s.i].plaintext)
  {
    hide DoReceive, ReceiveCall, Decrypt, PairOk, InStep, SideOk, PlacesOk, SentOk, PendingOk, MessageOk;
    var x, y, xy, yx := p.SideOf(Other(s.who)), p.SideOf(s.who), p.Incoming(s.who), p.Outgoing(s.who);
    var m := xy.messages[s.i];
    var y' := Received(suite, y, m, s.sequence, s.newKey);
    PairOkFrom(suite, p, Other(s.who));
    PickedGeneration(y, xy, s.i);
    ReceiveShape(suite, p, s);
    PairOkFrom(suite, DoReceive(suite, p, s), Other(s.who));
    if m.gen == y.gen - 1 {
      ReceiveKeepsSame(suite, x, y, xy, yx, s.i, s.sequence, s.newKey, p.sch);
    } else {
      ReceiveKeepsNew(suite, x, y, xy, yx, s.i, s.sequence, s.newKey, p.sch);
    }
  }

  lemma StartOk(suite: Suite, e: Bytes, f: Bytes, newKey: Bytes)
    requires FreshStart(e, f, newKey)
    ensures PairOk(suite, Start(e, f, newKey))
  {
    var p := Start(e, f, newKey);
    assert p.sch.keys[0] == f && p.sch.keys[1] == newKey;
    assert StepSecret(p.sch, 1) == Dh({newKey, f});
    assert RootKey(p.sch, 0) == Master(Dh({e, f}));
    assert RootKey(p.sch, 1) == Root(RootKey(p.sch, 0), StepSecret(p.sch, 1));
    assert Advance(ChainKey(p.sch, 1), 0) == ChainKey(p.sch, 1);
  }

  // ---------------------------------------------------------------- theorems over all runs

  /** In every reachable state the two ratchets are in lockstep. */
  lemma {:induction false} EveryRunStaysInLockstep(suite: Suite, e: Bytes, f: Bytes, newKey: Bytes, run: seq<Step>)
    requires suite.OpensWhatItSeals() && FreshStart(e, f, newKey)
    requires Admissible(suite, Start(e, f, newKey), run)
    ensures PairOk(suite, Run(suite, Start(e, f, newKey), run))
  {
    var p0 := Start(e, f, newKey);
    if run == [] {
      StartOk(suite, e, f, newKey);
    } else {
      var before, s := run[..|run| - 1], run[|run| - 1];
      EveryRunStaysInLockstep(suite, e, f, newKey, before);
      if s.Send? {
        DoSendKeeps(suite, Run(suite, p0, before), s);
      } else {
        DoReceiveKeeps(suite, Run(suite, p0, before), s);
      }
    }
  }
}
