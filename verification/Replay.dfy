/**
 * The 64-bit sliding replay window of pkg/protocol/replay.go: the bitmap the code keeps, the
 * plain set of accepted sequence numbers it stands for, and the proof that the two agree.
 */
module Replay {
  const WINDOW_SIZE: nat := 64

  // ---------------------------------------------------------------- the bitmap

  function Double(x: bv64): bv64
  {
    x << 1
  }

  function Or(x: bv64, y: bv64): bv64
  {
    x | y
  }

  /** `x & y != 0`. */
  predicate Meets(x: bv64, y: bv64)
  {
    x & y != 0
  }

  /** Go's `x << n`, which is defined as `x` shifted `n` times by one. */
  function Shl(x: bv64, n: nat): (r: bv64)
  {
    if n == 0 then x else Double(Shl(x, n - 1))
  }

  predicate Bit(bitmap: bv64, i: nat)
  {
    Meets(bitmap, Shl(1, i))
  }

  /** The two fields of ReplayWindow. */
  datatype BitWindow = BitWindow(maxSeq: nat, bitmap: bv64)

  const EMPTY_WINDOW := BitWindow(0, 0)

  /** CheckAndAdd as a function from the fields to the new fields and the verdict. */
  function CheckBits(w: BitWindow, seqNo: nat): (r: (BitWindow, bool))
  {
    if seqNo == 0 then (w, false)
    else if seqNo > w.maxSeq then
      var diff := seqNo - w.maxSeq;
      (BitWindow(seqNo, if diff >= WINDOW_SIZE then 1 else Or(Shl(w.bitmap, diff), 1)), true)
    else
      var diff := w.maxSeq - seqNo;
      if diff >= WINDOW_SIZE then (w, false)
      else if Bit(w.bitmap, diff) then (w, false)
      else (w.(bitmap := Or(w.bitmap, Shl(1, diff))), true)
  }

  class ReplayWindow {
    var maxSeq: nat
    var bitmap: bv64

    function State(): BitWindow
      reads this
    {
      BitWindow(maxSeq, bitmap)
    }

    constructor ()
      ensures State() == EMPTY_WINDOW
    {
      maxSeq, bitmap := 0, 0;
    }

    method CheckAndAdd(seqNo: nat) returns (ok: bool)
      modifies this
      ensures (State(), ok) == CheckBits(old(State()), seqNo)
    {
      if seqNo == 0 {
        return false;
      }
      if seqNo > maxSeq {
        var diff := seqNo - maxSeq;
        if diff >= WINDOW_SIZE {
          bitmap := 1;
        } else {
          var shifted := ShiftLeft(bitmap, diff);
          bitmap := Or(shifted, 1);
        }
        maxSeq := seqNo;
        return true;
      }
      var diff := maxSeq - seqNo;
      if diff >= WINDOW_SIZE {
        return false;
      }
      var bitPos := ShiftLeft(1, diff);
      if Meets(bitmap, bitPos) {
        return false;
      }
      bitmap := Or(bitmap, bitPos);
      return true;
    }
  }

  /** The machine shift: `n` doublings in a row. */
  method ShiftLeft(x: bv64, n: nat) returns (r: bv64)
    ensures r == Shl(x, n)
  {
    r := x;
    for i := 0 to n
      invariant r == Shl(x, i)
    {
      r := Double(r);
    }
  }

  // ---------------------------------------------------------------- what the bitmap means

  /** A number is admitted when it is nonzero, new, and less than 64 behind the newest one. */
  predicate Admits(accepted: set<nat>, maxSeq: nat, seqNo: nat)
  {
    seqNo != 0 && seqNo !in accepted && maxSeq < seqNo + 64
  }

  /** `maxSeq` is the largest accepted number, or 0 when nothing was accepted. */
  ghost predicate IsMax(accepted: set<nat>, maxSeq: nat)
  {
    && (forall n :: n in accepted ==> 0 < n <= maxSeq)
    && (maxSeq != 0 ==> maxSeq in accepted)
  }

  /** The fields `w` are a faithful picture of the accepted numbers. */
  ghost predicate Represents(w: BitWindow, accepted: set<nat>)
  {
    && IsMax(accepted, w.maxSeq)
    && forall i: nat :: i < 64 ==> (Bit(w.bitmap, i) <==> i < w.maxSeq && w.maxSeq - i in accepted)
  }

  /** The plain-set form of CheckAndAdd. */
  function Record(accepted: set<nat>, maxSeq: nat, seqNo: nat): set<nat>
  {
    if Admits(accepted, maxSeq, seqNo) then accepted + {seqNo} else accepted
  }

  /** Feeding a whole list of sequence numbers to the window. */
  function CheckAll(w: BitWindow, inputs: seq<nat>): (r: (BitWindow, seq<bool>))
    ensures |r.1| == |inputs|
  {
    if inputs == [] then (w, [])
    else
      var (w1, verdicts) := CheckAll(w, inputs[..|inputs| - 1]);
      var (w2, ok) := CheckBits(w1, inputs[|inputs| - 1]);
      (w2, verdicts + [ok])
  }

  /** The numbers among `inputs` that got a positive verdict. */
  function Accepted(inputs: seq<nat>, verdicts: seq<bool>): set<nat>
    requires |inputs| == |verdicts|
  {
    set i | 0 <= i < |inputs| && verdicts[i] :: inputs[i]
  }

  // ---------------------------------------------------------------- bit lemmas

  /** `x` has at most one bit set. */
  predicate AtMostOneBit(x: bv64)
  {
    x & (x - 1) == 0
  }

  const TOP_BIT: bv64 := 0x8000_0000_0000_0000

  // The word-level facts, each a statement about single machine operations.

  lemma DoubleKeepsOneBit(m: bv64)
    requires AtMostOneBit(m)
    ensures AtMostOneBit(Double(m))
  {}

  lemma TopBitFallsOff(m: bv64)
    requires AtMostOneBit(m)
    ensures Meets(m, TOP_BIT) || m == 0 ==> Double(m) == 0
  {}

  lemma DoubleBoth(b: bv64, m: bv64)
    requires !Meets(m, TOP_BIT)
    ensures Meets(Double(b), Double(m)) <==> Meets(b, m)
  {}

  lemma DoubleIsEven(b: bv64)
    ensures !Meets(Double(b), 1) && !Meets(1, Double(b))
  {}

  lemma OrOfNeither(a: bv64, b: bv64, m: bv64)
    requires !Meets(a, m) && !Meets(b, m)
    ensures !Meets(Or(a, b), m)
  {
    assert (a | b) & m == (a & m) | (b & m);
  }

  lemma OrOfEither(a: bv64, b: bv64, m: bv64)
    requires Meets(a, m)
    ensures Meets(Or(a, b), m) && Meets(Or(b, a), m)
  {}

  lemma OrMeets(a: bv64, b: bv64, m: bv64)
    ensures Meets(Or(a, b), m) <==> Meets(a, m) || Meets(b, m)
  {
    if Meets(a, m) {
      OrOfEither(a, b, m);
    } else if Meets(b, m) {
      OrOfEither(b, a, m);
    } else {
      OrOfNeither(a, b, m);
    }
  }

  lemma ZeroMeetsNothing(m: bv64)
    ensures !Meets(0, m)
  {}

  // The same facts along the bits of a window.

  lemma {:induction false} PowerHasOneBit(n: nat)
    ensures AtMostOneBit(Shl(1, n))
  {
    if n > 0 {
      PowerHasOneBit(n - 1);
      DoubleKeepsOneBit(Shl(1, n - 1));
    }
  }

  lemma {:induction false} ZeroStaysZero(n: nat, k: nat)
    requires n <= k && Shl(1, n) == 0
    ensures Shl(1, k) == 0
  {
    if n < k {
      ZeroStaysZero(n, k - 1);
    }
  }

  lemma TopPower()
    ensures Shl(1, 63) == TOP_BIT
  {
    assert Shl(1, 9) == 0x200;
    assert Shl(1, 18) == 0x4_0000;
    assert Shl(1, 27) == 0x800_0000;
    assert Shl(1, 36) == 0x10_0000_0000;
    assert Shl(1, 45) == 0x2000_0000_0000;
    assert Shl(1, 54) == 0x40_0000_0000_0000;
  }

  /** The single bit of `1 << n` has not reached the top before n = 63. */
  lemma TopBitClear(n: nat)
    requires n < 63
    ensures !Meets(Shl(1, n), TOP_BIT)
  {
    if Meets(Shl(1, n), TOP_BIT) {
      PowerHasOneBit(n);
      TopBitFallsOff(Shl(1, n));
      ZeroStaysZero(n + 1, 63);
      TopPower();
    }
  }

  lemma BitOfDoubled(b: bv64, i: nat)
    requires i < WINDOW_SIZE
    ensures Bit(Double(b), i) <==> i > 0 && Bit(b, i - 1)
  {
    if i > 0 {
      TopBitClear(i - 1);
      DoubleBoth(b, Shl(1, i - 1));
    } else {
      DoubleIsEven(b);
    }
  }

  lemma {:induction false} BitOfShl(b: bv64, d: nat, i: nat)
    requires i < WINDOW_SIZE
    ensures Bit(Shl(b, d), i) <==> i >= d && Bit(b, i - d)
  {
    if d > 0 {
      BitOfDoubled(Shl(b, d - 1), i);
      if i > 0 {
        BitOfShl(b, d - 1, i - 1);
      }
    }
  }

  lemma BitOfOne(i: nat)
    ensures Bit(1, i) <==> i == 0
  {
    if i > 0 {
      DoubleIsEven(Shl(1, i - 1));
    }
  }

  lemma BitOfOr(a: bv64, b: bv64, i: nat)
    ensures Bit(Or(a, b), i) <==> Bit(a, i) || Bit(b, i)
  {
    OrMeets(a, b, Shl(1, i));
  }

  // ---------------------------------------------------------------- refinement

  /** Bit `i` after a newer number slides the window forward by `diff`. */
  lemma SlidBit(bitmap: bv64, diff: nat, i: nat)
    requires 0 < diff && i < WINDOW_SIZE
    ensures Bit(Or(Shl(bitmap, diff), 1), i) <==> i == 0 || (i >= diff && Bit(bitmap, i - diff))
  {
    BitOfOne(i);
    BitOfOr(Shl(bitmap, diff), 1, i);
    BitOfShl(bitmap, diff, i);
  }

  /** Bit `i` after an older number marks position `diff`. */
  lemma MarkedBit(bitmap: bv64, diff: nat, i: nat)
    requires i < WINDOW_SIZE
    ensures Bit(Or(bitmap, Shl(1, diff)), i) <==> i == diff || Bit(bitmap, i)
  {
    BitOfOr(bitmap, Shl(1, diff), i);
    BitOfShl(1, diff, i);
    if i >= diff {
      BitOfOne(i - diff);
    }
  }

  /** One call: the verdict is the set-level one, and the new fields picture the new set. */
  lemma CheckBitsRefines(w: BitWindow, accepted: set<nat>, seqNo: nat)
    requires Represents(w, accepted)
    ensures CheckBits(w, seqNo).1 <==> Admits(accepted, w.maxSeq, seqNo)
    ensures Represents(CheckBits(w, seqNo).0, Record(accepted, w.maxSeq, seqNo))
    ensures !CheckBits(w, seqNo).1 ==> CheckBits(w, seqNo).0 == w
  {
    var (w1, ok) := CheckBits(w, seqNo);
    if seqNo > w.maxSeq {
      var diff := seqNo - w.maxSeq;
      forall i: nat | i < WINDOW_SIZE
        ensures Bit(w1.bitmap, i) <==> i < w1.maxSeq && w1.maxSeq - i in accepted + {seqNo}
      {
        BitOfOne(i);
        SlidBit(w.bitmap, diff, i);
      }
    } else if ok {
      forall i: nat | i < WINDOW_SIZE
        ensures Bit(w1.bitmap, i) <==> i < w1.maxSeq && w1.maxSeq - i in accepted + {seqNo}
      {
        MarkedBit(w.bitmap, w.maxSeq - seqNo, i);
      }
    }
  }

  lemma EmptyRepresents()
    ensures Represents(EMPTY_WINDOW, {})
  {
    forall i: nat
      ensures !Bit(0, i)
    {
      ZeroMeetsNothing(Shl(1, i));
    }
  }

  lemma AcceptedSnoc(inputs: seq<nat>, verdicts: seq<bool>, seqNo: nat, ok: bool)
    requires |inputs| == |verdicts|
    ensures Accepted(inputs + [seqNo], verdicts + [ok]) == Accepted(inputs, verdicts) + (if ok then {seqNo} else {})
  {
    var xs, vs := inputs + [seqNo], verdicts + [ok];
    forall n | n in Accepted(inputs, verdicts)
      ensures n in Accepted(xs, vs)
    {
      var i :| 0 <= i < |inputs| && verdicts[i] && inputs[i] == n;
      assert vs[i] && xs[i] == n;
    }
    if ok {
      assert vs[|inputs|] && xs[|inputs|] == seqNo;
    }
  }

  /** No two positive verdicts on one number. */
  ghost predicate AcceptedOnce(inputs: seq<nat>, verdicts: seq<bool>)
    requires |inputs| == |verdicts|
  {
    forall i, j :: 0 <= i < j < |inputs| && verdicts[i] && verdicts[j] ==> inputs[i] != inputs[j]
  }

  /**
   * Every run from the empty window: the fields picture exactly the numbers accepted so far
   * (so maxSeq is their maximum), and no number is accepted twice.
   */
  lemma {:induction false} EveryRunRefinesTheSet(inputs: seq<nat>)
    ensures
      var (w, verdicts) := CheckAll(EMPTY_WINDOW, inputs);
      Represents(w, Accepted(inputs, verdicts)) && AcceptedOnce(inputs, verdicts)
  {
    if inputs == [] {
      EmptyRepresents();
      assert Accepted(inputs, []) == {};
    } else {
      var last := |inputs| - 1;
      var before, seqNo := inputs[..last], inputs[last];
      EveryRunRefinesTheSet(before);
      var (w1, verdicts1) := CheckAll(EMPTY_WINDOW, before);
      var accepted1 := Accepted(before, verdicts1);
      CheckBitsRefines(w1, accepted1, seqNo);
      AcceptedSnoc(before, verdicts1, seqNo, CheckBits(w1, seqNo).1);
      assert before + [seqNo] == inputs;
      forall i | 0 <= i < last && verdicts1[i]
        ensures before[i] in accepted1
      {}
    }
  }

  /** What a caller sees after any run: the verdict on the next number, in terms of the history. */
  lemma VerdictAfterAnyRun(inputs: seq<nat>, next: nat)
    ensures
      var (w, verdicts) := CheckAll(EMPTY_WINDOW, inputs);
      CheckBits(w, next).1 <==> Admits(Accepted(inputs, verdicts), w.maxSeq, next)
  {
    EveryRunRefinesTheSet(inputs);
    var (w, verdicts) := CheckAll(EMPTY_WINDOW, inputs);
    CheckBitsRefines(w, Accepted(inputs, verdicts), next);
  }
}
