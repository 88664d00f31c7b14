/**
 * What a single ratchet call does, in terms of the primitives: what goes over the wire, what comes
 * out, and what is left in the ratchet, in every state and on every branch.
 */
module RatchetCalls {
  import opened Common
  import opened Keys
  import opened Primitives
  import opened Ratchets
  import opened Schedules
  import opened Lockstep
  import opened RatchetTheorems
  import opened SkippedCache
  import opened Deliveries

  // ---------------------------------------------------------------- NewRatchet

  /** NewRatchet refuses for the first thing that is missing, and uses nothing it does not need. */
  lemma NewStateExactly(secret: Option<Key>, isInitiator: bool, local: Option<PrivateKey>, remote: Option<Bytes>,
                        newKey: PrivateKey)
    ensures
      var r := NewState(secret, isInitiator, local, remote, newKey);
      if secret == None then r == Err(BadSecret)
      else if isInitiator && remote == None then r == Err(NoRemoteKey)
      else if isInitiator then
        var dh := Dh({newKey.pub, remote.value});
        var rk, ck := Root(secret.value, dh), Chain(secret.value, dh);
        r == Ok(RatchetState(newKey, remote, rk, Some(ck), None, 1, 1, 0, map[]))
      else if local == None then r == Err(NoLocalKey)
      else r == Ok(RatchetState(local.value, None, secret.value, None, None, 1, 1, 0, map[]))
  {}

  // ---------------------------------------------------------------- RatchetEncrypt

  /** The chain key that a send uses, and the public key that goes with it. */
  ghost predicate SendsOn(st: RatchetState, newKey: PrivateKey, chain: Key, ephemeral: Bytes)
  {
    if st.cks.Some? then chain == st.cks.value && ephemeral == st.dhLocal.pub
    else st.dhPeer.Some? && chain == Chain(st.rk, Dh({newKey.pub, st.dhPeer.value})) && ephemeral == newKey.pub
  }

  /**
   * RatchetEncrypt seals the plaintext under the next key of the sending chain with the caller's AAD,
   * static or made from the ephemeral key. It is refused exactly when there is neither a sending
   * chain nor a peer key to open one, and then changes nothing.
   */
  lemma EncryptExactly(suite: Suite, st: RatchetState, plaintext: Bytes, staticAad: Bytes,
                       getAad: Option<Bytes -> Bytes>, newKey: PrivateKey, nonce: Bytes)
    ensures
      var (st', r) := Encrypt(suite, st, plaintext, staticAad, getAad, newKey, nonce);
      if st.cks.None? && st.dhPeer.None? then st' == st && r == Err(NoRemoteKey)
      else
        && r.Ok?
        && (forall chain, ephemeral :: SendsOn(st, newKey, chain, ephemeral) ==>
              && r.value.ephemeral == ephemeral
              && (getAad == None ==> r.value.full == nonce + suite.seal(Msg(chain), nonce, plaintext, staticAad))
              && (getAad.Some? ==>
                    r.value.full == nonce + suite.seal(Msg(chain), nonce, plaintext, getAad.value(ephemeral)))
              && st'.cks == Some(Next(chain)))
        && (st.cks.Some? ==>
              && r.value.sequence == st.ns
              && st' == st.(cks := st'.cks, ns := (st.ns + 1) % 0x1_0000_0000))
        && (st.cks.None? ==>
              && r.value.sequence == 1
              && st' == st.(dhLocal := newKey, rk := Root(st.rk, Dh({newKey.pub, st.dhPeer.value})),
                            cks := st'.cks, pn := st.ns, ns := 2))
  {}

  // ---------------------------------------------------------------- RatchetDecrypt

  /** The receiving chain that RatchetDecrypt goes on from, and its counter. */
  ghost predicate ReceivesOn(st: RatchetState, ephemeral: Bytes, chain: Key, nr: nat)
  {
    if st.dhPeer == Some(ephemeral) then st.ckr == Some(chain) && nr == st.nr
    else chain == Chain(st.rk, Dh({st.dhLocal.pub, ephemeral})) && nr == 1
  }

  /** What the root steps make of the other fields. */
  function AfterRootSteps(st: RatchetState, ephemeral: Bytes, newKey: PrivateKey): RatchetState
  {
    if st.dhPeer == Some(ephemeral) then st
    else
      var recv, send := Dh({st.dhLocal.pub, ephemeral}), Dh({newKey.pub, ephemeral});
      RatchetState(newKey, Some(ephemeral), Root(Root(st.rk, recv), send), Some(Chain(Root(st.rk, recv), send)),
                   Some(Chain(st.rk, recv)), 1, 1, st.ns, st.skipped)
  }

  /**
   * RatchetDecrypt refuses short ciphertexts, ephemeral keys of the wrong size and, for a known peer
   * key, a missing chain; a refusal changes nothing. Otherwise it takes the key `n` places along the
   * receiving chain, where `n` is how far the sequence is ahead of the counter, and moves on by one
   * place more, whether or not the ciphertext then opens.
   */
  lemma DecryptExactly(suite: Suite, st: RatchetState, ephemeral: Bytes, full: Bytes, aad: Bytes, sequence: nat,
                       newKey: PrivateKey)
    ensures
      var (st', r) := Decrypt(suite, st, ephemeral, full, aad, sequence, newKey);
      if |full| < 24 then st' == st && r == Err(CiphertextTooShort)
      else if |ephemeral| != 32 then st' == st && r == Err(InvalidPeerKey)
      else if st.dhPeer == Some(ephemeral) && st.ckr == None then st' == st && r == Err(BadChainKey)
      else
        forall chain, nr: nat :: ReceivesOn(st, ephemeral, chain, nr) ==>
          var n := if sequence > nr then sequence - nr else 0;
          && st' == AfterRootSteps(st, ephemeral, newKey)
                      .(ckr := Some(Advance(chain, n + 1)), nr := (nr + n + 1) % 0x1_0000_0000, skipped := st'.skipped)
          && r == match suite.open(Msg(Advance(chain, n)), full[..24], full[24..], aad)
                  case None => Err(OpenFailed)
                  case Some(plaintext) => Ok(plaintext)
  {
    if |full| >= 24 && |ephemeral| == 32 {
      RootStepsAgree(st, ephemeral, newKey);
      var s1 := ReadyToReceive(st, ephemeral, newKey);
      if s1.ckr.Some? {
        SkipAdvances(s1, ephemeral, sequence);
      }
      hide ReadyToReceive, Skip;
    }
  }

  lemma RootStepsAgree(st: RatchetState, ephemeral: Bytes, newKey: PrivateKey)
    ensures ReadyToReceive(st, ephemeral, newKey) == AfterRootSteps(st, ephemeral, newKey)
  {}

  /** The cache afterwards: the places passed over, each under its label, and all it held before. */
  lemma DecryptCaches(suite: Suite, st: RatchetState, ephemeral: Bytes, full: Bytes, aad: Bytes, sequence: nat,
                      newKey: PrivateKey, chain: Key, nr: nat, slot: (Bytes, nat))
    requires |full| >= 24 && |ephemeral| == 32 && ReceivesOn(st, ephemeral, chain, nr)
    ensures
      var skipped := Decrypt(suite, st, ephemeral, full, aad, sequence, newKey).0.skipped;
      if slot.0 == ephemeral && nr <= slot.1 < sequence
      then slot in skipped && skipped[slot] == Msg(Advance(chain, slot.1 - nr))
      else (slot in skipped <==> slot in st.skipped) && (slot in skipped ==> skipped[slot] == st.skipped[slot])
  {
    RootStepsAgree(st, ephemeral, newKey);
    SkipCaches(ReadyToReceive(st, ephemeral, newKey), ephemeral, sequence, slot);
    hide ReadyToReceive, Skip;
  }

  // ---------------------------------------------------------------- what is sent comes out

  lemma {:induction false} RunKeepsMessages(suite: Suite, p: Pair, run: seq<Step>, who: Party)
    requires Admissible(suite, p, run)
    ensures p.Outgoing(who).messages <= Run(suite, p, run).Outgoing(who).messages
  {
    if run != [] {
      var front, s := run[..|run| - 1], run[|run| - 1];
      RunKeepsMessages(suite, p, front, who);
      StepKeepsMessages(suite, Run(suite, p, front), s, who);
      hide Do;
    }
  }

  lemma StepKeepsMessages(suite: Suite, p: Pair, s: Step, who: Party)
    requires Enabled(p, s)
    ensures p.Outgoing(who).messages <= Do(suite, p, s).Outgoing(who).messages
  {
    hide Encrypt, Decrypt, MayPick, IsFresh;
  }

  /** Reachable states go on to reachable states. */
  lemma {:induction false} ReachesOn(suite: Suite, p: Pair, run: seq<Step>)
    requires Reachable(suite, p) && Admissible(suite, p, run)
    ensures Reachable(suite, Run(suite, p, run))
  {
    hide Reachable, Do, Enabled;
    if run != [] {
      ReachesOn(suite, p, run[..|run| - 1]);
      ReachesNext(suite, Run(suite, p, run[..|run| - 1]), run[|run| - 1]);
    }
  }

  /** A send that is not refused puts the caller's plaintext and AAD on the channel. */
  lemma SendRecords(suite: Suite, p: Pair, s: Step)
    requires suite.OpensWhatItSeals() && Reachable(suite, p) && s.Send? && Enabled(p, s)
    requires SendCall(suite, p, s).1.Ok?
    ensures
      var n := |p.Outgoing(s.who).messages|;
      var sent := Do(suite, p, s).Outgoing(s.who).messages;
      && |sent| == n + 1 && sent[n].sealed == SendCall(suite, p, s).1.value && sent[n].plaintext == s.plaintext
      && (s.getAad == None ==> sent[n].aad == s.staticAad)
      && (s.getAad.Some? ==> sent[n].aad == s.getAad.value(sent[n].sealed.ephemeral))
  {
    hide MessageOk, SentOk, ScheduleOk, PlacesOk, PendingOk, GotOk, Reachable, Encrypt;
    ReachableOk(suite, p);
    PairOkFrom(suite, p, s.who);
    hide PairOk, DoSend, SendCall;
    SendShape(suite, p, s);
  }

  /**
   * What a caller sends comes out at the peer: at any later moment at which the message may be
   * received, RatchetDecrypt with what RatchetEncrypt returned and the AAD that the sender's caller
   * passed gives back the plaintext that the sender's caller passed.
   */
  lemma SentComesOut(suite: Suite, p: Pair, s: Step, run: seq<Step>, sequence: nat, newKey: Bytes)
    requires suite.OpensWhatItSeals() && Reachable(suite, p) && s.Send? && Enabled(p, s)
    requires SendCall(suite, p, s).1.Ok? && Admissible(suite, Do(suite, p, s), run)
    requires
      var receive := Receive(Other(s.who), |p.Outgoing(s.who).messages|, sequence, newKey);
      Enabled(Run(suite, Do(suite, p, s), run), receive)
    ensures
      var sealed := SendCall(suite, p, s).1.value;
      var aad := if s.getAad.Some? then s.getAad.value(sealed.ephemeral) else s.staticAad;
      var st := Run(suite, Do(suite, p, s), run).SideOf(Other(s.who)).st;
      Decrypt(suite, st, sealed.ephemeral, sealed.full, aad, sequence, Priv(newKey)).1 == Ok(s.plaintext)
  {
    var p1 := Do(suite, p, s);
    var n := |p.Outgoing(s.who).messages|;
    SendRecords(suite, p, s);
    ReachesNext(suite, p, s);
    hide Reachable, Do, SendCall, Decrypt, Run, Admissible;
    ReachesOn(suite, p1, run);
    RunKeepsMessages(suite, p1, run, s.who);
    var p2 := Run(suite, p1, run);
    assert p2.Incoming(Other(s.who)) == p2.Outgoing(s.who);
    EveryDeliveryOpens(suite, p2, Receive(Other(s.who), n, sequence, newKey));
    assert p2.Outgoing(s.who).messages[n] == p1.Outgoing(s.who).messages[n];
  }
}
