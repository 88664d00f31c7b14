/** What lockstep buys: shared root keys, delivery, key uniqueness. */
module RatchetTheorems {
  import opened Common
  import opened Primitives
  import opened Ratchets
  import opened Schedules
  import opened Lockstep

  /** A state reached from a fresh start by some admissible run. */
  ghost predicate Reachable(suite: Suite, p: Pair)
  {
    exists e, f, newKey, run ::
      && FreshStart(e, f, newKey)
      && Admissible(suite, Start(e, f, newKey), run)
      && p == Run(suite, Start(e, f, newKey), run)
  }

  lemma ReachableOk(suite: Suite, p: Pair)
    requires suite.OpensWhatItSeals() && Reachable(suite, p)
    ensures PairOk(suite, p)
  {
    hide PairOk;
    var e, f, newKey, run :|
      && FreshStart(e, f, newKey)
      && Admissible(suite, Start(e, f, newKey), run)
      && p == Run(suite, Start(e, f, newKey), run);
    EveryRunStaysInLockstep(suite, e, f, newKey, run);
  }

  lemma ReachesNext(suite: Suite, p: Pair, s: Step)
    requires Reachable(suite, p) && Enabled(p, s)
    ensures Reachable(suite, Do(suite, p, s))
  {
    hide Do, Enabled, FreshStart, Start;
    var e, f, newKey, run :|
      && FreshStart(e, f, newKey)
      && Admissible(suite, Start(e, f, newKey), run)
      && p == Run(suite, Start(e, f, newKey), run);
    assert (run + [s])[..|run + [s]| - 1] == run;
    assert Admissible(suite, Start(e, f, newKey), run + [s]);
    assert Run(suite, Start(e, f, newKey), run + [s]) == Do(suite, p, s);
  }

  // ---------------------------------------------------------------- lockstep, spelled out

  /** A receiving chain stands where a message of the peer's sending chain put it. */
  lemma ReceivingChainPlace(x: Side, y: Side, ch: Channel)
    requires PlacesOk(x, ch.messages) && PendingOk(y, ch) && y.gen >= 2
    ensures exists m :: m in ch.messages && m.gen == y.gen - 1 && m.pos == y.rcvd
    ensures y.gen == x.gen + 1 ==> y.rcvd <= x.sent
  {
    assert ch.messages[ch.next - 1] in ch.messages;
  }

  /**
   * In every reachable state the generations differ by one, both root keys lie on the common
   * chain, a side can send exactly when it knows a peer key, and its receiving chain is the peer's
   * sending chain of that generation at a position the peer had reached.
   */
  lemma RootKeysInLockstep(suite: Suite, p: Pair, who: Party)
    requires suite.OpensWhatItSeals() && Reachable(suite, p)
    ensures p.a.gen == p.b.gen + 1 || p.b.gen == p.a.gen + 1
    ensures Odd(p.a.gen) && !Odd(p.b.gen)
    ensures
      var x, y := p.SideOf(who), p.SideOf(Other(who));
      && x.gen < |p.sch.keys| && x.st.rk == RootKey(p.sch, x.gen)
      && (x.st.cks.None? <==> x.st.dhPeer.None?)
      && (y.gen == x.gen + 1 && y.gen >= 2 ==>
            && y.rcvd <= x.sent
            && x.st.cks == Some(Advance(ChainKey(p.sch, x.gen), x.sent))
            && y.st.ckr == Some(Advance(ChainKey(p.sch, x.gen), y.rcvd)))
      && (y.gen >= 2 ==>
            exists m :: m in p.Outgoing(who).messages && m.gen == y.gen - 1 && m.pos == y.rcvd)
  {
    hide MessageOk, SentOk, ScheduleOk, PlacesOk, PendingOk;
    ReachableOk(suite, p);
    PairOkFrom(suite, p, who);
    var x, y, ch := p.SideOf(who), p.SideOf(Other(who)), p.Outgoing(who);
    if y.gen >= 2 {
      ReceivingChainPlace(x, y, ch);
    }
  }

  // ---------------------------------------------------------------- delivery

  /** Over lossy in-order channels every delivered message opens to the plaintext that was sent. */
  lemma EveryDeliveryOpens(suite: Suite, p: Pair, s: Step)
    requires suite.OpensWhatItSeals() && Reachable(suite, p)
    requires s.Receive? && Enabled(p, s)
    ensures ReceiveCall(suite, p, s).1 == Ok(p.Incoming(s.who).messages[s.i].plaintext)
  {
    hide PairOk;
    ReachableOk(suite, p);
    DoReceiveKeeps(suite, p, s);
  }

  /** A side is refused a send exactly when it is a responder that has received nothing yet. */
  lemma RefusedSends(suite: Suite, p: Pair, s: Step)
    requires suite.OpensWhatItSeals() && Reachable(suite, p) && s.Send? && Enabled(p, s)
    ensures SendCall(suite, p, s).1.Err? <==> s.who.Responder? && p.ab.next == 0
    ensures SendCall(suite, p, s).1.Err? ==> DoSend(suite, p, s) == p
  {
    hide MessageOk, SentOk, ScheduleOk, PlacesOk;
    ReachableOk(suite, p);
    PairOkFrom(suite, p, s.who);
    hide DoSend;
    SendShape(suite, p, s);
  }

  // ---------------------------------------------------------------- key uniqueness

  lemma PlacesDistinct(x: Side, ms: seq<Message>, i: nat, j: nat)
    requires PlacesOk(x, ms) && i < |ms| && j < |ms| && i != j
    ensures ms[i].gen != ms[j].gen || ms[i].pos != ms[j].pos
  {
    if i < j {
      assert Before(ms[i], ms[j]);
    } else {
      assert Before(ms[j], ms[i]);
    }
  }

  /** No two encryptions of a run, by one party or by both, use one message key. */
  lemma MessageKeysAreUnique(suite: Suite, p: Pair, who: Party, i: nat, whoElse: Party, j: nat)
    requires suite.OpensWhatItSeals() && Reachable(suite, p)
    requires i < |p.Outgoing(who).messages| && j < |p.Outgoing(whoElse).messages|
    requires p.Outgoing(who).messages[i].key == p.Outgoing(whoElse).messages[j].key
    ensures who == whoElse && i == j
  {
    hide SideOk, PendingOk, ScheduleOk;
    ReachableOk(suite, p);
    PairOkFrom(suite, p, who);
    var m, n := p.Outgoing(who).messages[i], p.Outgoing(whoElse).messages[j];
    assert MessageOk(suite, m, p.sch) && MessageOk(suite, n, p.sch);
    MessageKeyInjective(p.sch, m.gen, n.gen, m.pos, n.pos);
    if who == whoElse && i != j {
      PlacesDistinct(p.SideOf(who), p.Outgoing(who).messages, i, j);
    }
  }

  // ---------------------------------------------------------------- places and later schedules

  /** Where an incoming message stands relative to its receiver. */
  lemma IncomingAhead(x: Side, y: Side, ch: Channel, i: nat)
    requires PlacesOk(x, ch.messages) && PendingOk(y, ch) && i < |ch.messages|
    requires Odd(ch.messages[i].gen) != Odd(y.gen)
    ensures
      var m := ch.messages[i];
      i >= ch.next <==> (y.gen >= 2 && m.gen == y.gen - 1 && m.pos > y.rcvd) || m.gen == y.gen + 1
  {
    var ms := ch.messages;
    if i < ch.next - 1 {
      assert Before(ms[i], ms[ch.next - 1]);
    } else if i >= ch.next && ch.next > 0 {
      assert Before(ms[ch.next - 1], ms[i]);
    }
  }

  lemma {:induction false} RootInLaterSchedule(sch: Schedule, later: Schedule, g: nat)
    requires later.handshake == sch.handshake && sch.keys <= later.keys && g < |sch.keys|
    ensures RootKey(later, g) == RootKey(sch, g)
  {
    if g > 0 {
      RootInLaterSchedule(sch, later, g - 1);
    }
  }

  lemma SideInLaterSchedule(x: Side, sch: Schedule, later: Schedule)
    requires SideOk(x, sch) && later.handshake == sch.handshake && sch.keys <= later.keys
    ensures SideOk(x, later)
  {
    RootInLaterSchedule(sch, later, x.gen);
    if x.gen > 0 {
      RootInLaterSchedule(sch, later, x.gen - 1);
    }
    if x.gen > 1 {
      RootInLaterSchedule(sch, later, x.gen - 2);
    }
  }
}
