/**
 * The common key schedule of a conversation: the sequence of ratchet keys in the order they enter
 * the root chain, and the root, chain and message keys that this sequence determines.
 */
module Schedules {
  import opened Common
  import opened Keys

  /**
   * `handshake` is the initiator's handshake key and `keys[0]` the responder's. Every later
   * `keys[g]` opens generation `g`: odd generations are sent by the initiator, even ones by the
   * responder.
   */
  datatype Schedule = Schedule(handshake: Bytes, keys: seq<Bytes>)

  /** All key pairs of the schedule were generated independently. */
  predicate ScheduleOk(sch: Schedule)
  {
    && |sch.keys| > 0
    && sch.handshake !in sch.keys
    && (forall i :: 0 <= i < |sch.keys| ==> |sch.keys[i]| == KEY_SIZE)
    && forall i, j :: 0 <= i < j < |sch.keys| ==> sch.keys[i] != sch.keys[j]
  }

  /** A newly generated key: well-formed and unlike every earlier one. */
  predicate IsFresh(sch: Schedule, key: Bytes)
  {
    |key| == KEY_SIZE && key !in sch.keys && key != sch.handshake
  }

  function Extend(sch: Schedule, key: Bytes): Schedule
  {
    sch.(keys := sch.keys + [key])
  }

  function StepSecret(sch: Schedule, g: nat): DhSecret
    requires 1 <= g < |sch.keys|
  {
    Dh({sch.keys[g], sch.keys[g - 1]})
  }

  function MasterKey(sch: Schedule): Key
    requires |sch.keys| > 0
  {
    Master(Dh({sch.handshake, sch.keys[0]}))
  }

  /** The root key after `g` root steps. */
  function RootKey(sch: Schedule, g: nat): Key
    requires g < |sch.keys|
  {
    if g == 0 then MasterKey(sch) else Root(RootKey(sch, g - 1), StepSecret(sch, g))
  }

  /** The chain key that root step `g` opens. */
  function ChainKey(sch: Schedule, g: nat): Key
    requires 1 <= g < |sch.keys|
  {
    Chain(RootKey(sch, g - 1), StepSecret(sch, g))
  }

  /** A chain key moved `n` places on. */
  function Advance(k: Key, n: nat): Key
  {
    if n == 0 then k else Next(Advance(k, n - 1))
  }

  /** The key of the message at position `pos` (from 1) of generation `g`. */
  function MessageKey(sch: Schedule, g: nat, pos: nat): Key
    requires 1 <= g < |sch.keys| && 1 <= pos
  {
    Msg(Advance(ChainKey(sch, g), pos - 1))
  }

  // ---------------------------------------------------------------- facts about the schedule

  lemma {:induction false} ExtendKeepsRoot(sch: Schedule, key: Bytes, g: nat)
    requires g < |sch.keys|
    ensures RootKey(Extend(sch, key), g) == RootKey(sch, g)
  {
    if g > 0 {
      ExtendKeepsRoot(sch, key, g - 1);
    }
  }

  /** A new generation leaves every earlier key as it was. */
  lemma ExtendKeepsKeys(sch: Schedule, key: Bytes)
    requires ScheduleOk(sch) && IsFresh(sch, key)
    ensures ScheduleOk(Extend(sch, key))
    ensures forall g: nat :: g < |sch.keys| ==> RootKey(Extend(sch, key), g) == RootKey(sch, g)
    ensures forall g: nat :: 1 <= g < |sch.keys| ==> ChainKey(Extend(sch, key), g) == ChainKey(sch, g)
    ensures forall g: nat, pos: nat :: 1 <= g < |sch.keys| && 1 <= pos ==>
              MessageKey(Extend(sch, key), g, pos) == MessageKey(sch, g, pos)
  {
    forall g: nat | g < |sch.keys|
      ensures RootKey(Extend(sch, key), g) == RootKey(sch, g)
    {
      ExtendKeepsRoot(sch, key, g);
    }
    forall g: nat | 1 <= g < |sch.keys|
      ensures ChainKey(Extend(sch, key), g) == ChainKey(sch, g)
    {
      ExtendKeepsRoot(sch, key, g - 1);
    }
  }

  lemma {:induction false} AdvanceNext(k: Key, n: nat)
    ensures Advance(Next(k), n) == Advance(k, n + 1)
  {
    if n > 0 {
      AdvanceNext(k, n - 1);
    }
  }

  lemma {:induction false} AdvanceSum(k: Key, m: nat, n: nat)
    ensures Advance(Advance(k, m), n) == Advance(k, m + n)
  {
    if n > 0 {
      AdvanceSum(k, m, n - 1);
    }
  }

  /** Root keys of different generations differ: each is one step deeper than the last. */
  lemma {:induction false} RootInjective(sch: Schedule, g: nat, h: nat)
    requires g < |sch.keys| && h < |sch.keys| && g != h
    ensures RootKey(sch, g) != RootKey(sch, h)
  {
    if g > 0 && h > 0 {
      RootInjective(sch, g - 1, h - 1);
    }
  }

  lemma {:induction false} AdvanceInjective(sch: Schedule, g: nat, h: nat, m: nat, n: nat)
    requires 1 <= g < |sch.keys| && 1 <= h < |sch.keys|
    requires Advance(ChainKey(sch, g), m) == Advance(ChainKey(sch, h), n)
    ensures g == h && m == n
  {
    if m > 0 && n > 0 {
      AdvanceInjective(sch, g, h, m - 1, n - 1);
    } else if g != h {
      RootInjective(sch, g - 1, h - 1);
    }
  }

  /** One message key belongs to one position of one generation. */
  lemma MessageKeyInjective(sch: Schedule, g: nat, h: nat, m: nat, n: nat)
    requires 1 <= g < |sch.keys| && 1 <= h < |sch.keys| && 1 <= m && 1 <= n
    requires MessageKey(sch, g, m) == MessageKey(sch, h, n)
    ensures g == h && m == n
  {
    AdvanceInjective(sch, g, h, m - 1, n - 1);
  }

  // ---------------------------------------------------------------- what a state exposes

  /** The key material of a ratchet at generation `g`, `sent` and `rcvd` places along its chains. */
  ghost predicate HoldsExactly(known: Knowledge, sch: Schedule, g: nat, sent: nat, rcvd: nat)
  {
    && g < |sch.keys|
    && known.privates == {sch.keys[g]}
    && known.keys == {RootKey(sch, g)}
                     + (if g >= 1 then {Advance(ChainKey(sch, g), sent)} else {})
                     + (if g >= 2 then {Advance(ChainKey(sch, g - 1), rcvd)} else {})
  }

  lemma SecretKnown(known: Knowledge, sch: Schedule, g: nat, j: nat)
    requires ScheduleOk(sch) && g < |sch.keys| && known.privates == {sch.keys[g]}
    requires 1 <= j < |sch.keys|
    ensures KnowsSecret(known, StepSecret(sch, j)) <==> j == g || j == g + 1
  {
    assert forall p :: p in StepSecret(sch, j).ends <==> p == sch.keys[j] || p == sch.keys[j - 1];
  }

  /** Earlier root keys are out of reach, the next one is within it, and the ratchet then heals. */
  lemma {:induction false} RootExposure(known: Knowledge, sch: Schedule, g: nat, sent: nat, rcvd: nat, j: nat)
    requires ScheduleOk(sch) && HoldsExactly(known, sch, g, sent, rcvd) && j < |sch.keys|
    ensures Derivable(RootKey(sch, j), known) <==> j == g || j == g + 1
  {
    var k := RootKey(sch, j);
    AdvanceIsNotRoot(sch, g, sent);
    if g >= 2 {
      AdvanceIsNotRoot(sch, g - 1, rcvd);
    }
    if j != g {
      RootInjective(sch, j, g);
      assert k !in known.keys;
      if j == 0 {
        assert forall p :: p in MasterKey(sch).dh.ends ==> p == sch.handshake || p == sch.keys[0];
      } else {
        SecretKnown(known, sch, g, j);
        RootExposure(known, sch, g, sent, rcvd, j - 1);
      }
    }
  }

  lemma AdvanceIsNotRoot(sch: Schedule, g: nat, n: nat)
    requires g < |sch.keys|
    ensures g >= 1 ==> Advance(ChainKey(sch, g), n).Next? || Advance(ChainKey(sch, g), n).Chain?
    ensures RootKey(sch, g).Root? || RootKey(sch, g).Master?
  {}

  /** Position `n` of chain `j` is within reach from a held position onwards, or one step ahead. */
  ghost predicate ChainExposed(g: nat, sent: nat, rcvd: nat, j: nat, n: nat)
  {
    (j == g && n >= sent) || (g >= 2 && j == g - 1 && n >= rcvd) || j == g + 1
  }

  lemma {:induction false} ChainExposure(known: Knowledge, sch: Schedule, g: nat, sent: nat, rcvd: nat, j: nat, n: nat)
    requires ScheduleOk(sch) && HoldsExactly(known, sch, g, sent, rcvd) && 1 <= j < |sch.keys|
    ensures Derivable(Advance(ChainKey(sch, j), n), known) <==> ChainExposed(g, sent, rcvd, j, n)
  {
    var k := Advance(ChainKey(sch, j), n);
    AdvanceIsNotRoot(sch, g, sent);
    assert k.Next? || k.Chain?;
    if k in known.keys {
      HeldPosition(known, sch, g, sent, rcvd, j, n);
    } else {
      assert !(j == g && n == sent) && !(g >= 2 && j == g - 1 && n == rcvd);
      if n > 0 {
        ChainExposure(known, sch, g, sent, rcvd, j, n - 1);
      } else {
        RootExposure(known, sch, g, sent, rcvd, j - 1);
        SecretKnown(known, sch, g, j);
      }
    }
  }

  lemma HeldPosition(known: Knowledge, sch: Schedule, g: nat, sent: nat, rcvd: nat, j: nat, n: nat)
    requires HoldsExactly(known, sch, g, sent, rcvd) && 1 <= j < |sch.keys|
    requires Advance(ChainKey(sch, j), n) in known.keys
    ensures (j == g && n == sent) || (g >= 2 && j == g - 1 && n == rcvd)
  {
    var k := Advance(ChainKey(sch, j), n);
    AdvanceIsNotRoot(sch, g, sent);
    assert k.Next? || k.Chain?;
    if g >= 1 && k == Advance(ChainKey(sch, g), sent) {
      AdvanceInjective(sch, j, g, n, sent);
    } else {
      AdvanceInjective(sch, j, g - 1, n, rcvd);
    }
  }

  /**
   * Exactly which message keys a ratchet state gives away: the not yet used rest of its two
   * chains and the peer's next generation, nothing already used and nothing two or more
   * generations ahead.
   */
  lemma MessageExposure(known: Knowledge, sch: Schedule, g: nat, sent: nat, rcvd: nat, j: nat, pos: nat)
    requires ScheduleOk(sch) && HoldsExactly(known, sch, g, sent, rcvd)
    requires 1 <= j < |sch.keys| && 1 <= pos
    ensures Derivable(MessageKey(sch, j, pos), known) <==>
              (j == g && pos > sent) || (g >= 2 && j == g - 1 && pos > rcvd) || j == g + 1
  {
    ChainExposure(known, sch, g, sent, rcvd, j, pos - 1);
    AdvanceIsNotRoot(sch, g, sent);
    if g >= 2 {
      AdvanceIsNotRoot(sch, g - 1, rcvd);
    }
    assert MessageKey(sch, j, pos) !in known.keys;
  }
}
