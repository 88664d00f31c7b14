/** Big-endian integers of a fixed width, as encoding/binary writes and reads them. */
module BigEndian {
  import opened Common

  /** 256 to the power `w`. */
  function Limit(w: nat): nat
  {
    if w == 0 then 1 else 256 * Limit(w - 1)
  }

  /** The low `w` bytes of `n`, most significant first. */
  function Put(n: nat, w: nat): (r: Bytes)
    ensures |r| == w
  {
    if w == 0 then [] else Put(n / 256, w - 1) + [(n % 256) as byte]
  }

  function Get(b: Bytes): nat
  {
    if b == [] then 0 else Get(b[..|b| - 1]) * 256 + b[|b| - 1] as nat
  }

  lemma {:induction false} GetBound(b: Bytes)
    ensures Get(b) < Limit(|b|)
  {
    if b != [] {
      GetBound(b[..|b| - 1]);
    }
  }

  /** Reading back what was written gives the number modulo the width. */
  lemma {:induction false} GetPut(n: nat, w: nat)
    requires n < Limit(w)
    ensures Get(Put(n, w)) == n
  {
    if w > 0 {
      GetPut(n / 256, w - 1);
      assert Put(n, w)[..w - 1] == Put(n / 256, w - 1);
    }
  }

  /** Writing back what was read gives the same bytes. */
  lemma {:induction false} PutGet(b: Bytes)
    ensures Put(Get(b), |b|) == b
  {
    if b != [] {
      var front := b[..|b| - 1];
      PutGet(front);
      assert Get(b) / 256 == Get(front) && Get(b) % 256 == b[|b| - 1] as nat;
    }
  }

  lemma Widths()
    ensures Limit(2) == 0x1_0000 && Limit(4) == TWO_32 && Limit(8) == TWO_64
  {
    assert Limit(1) == 0x100 && Limit(3) == 0x100_0000;
    assert Limit(5) == 0x100_0000_0000 && Limit(6) == 0x1_0000_0000_0000 && Limit(7) == 0x100_0000_0000_0000;
  }

  lemma PutSnoc(n: nat, w: nat)
    ensures Put(n, w + 1) == Put(n / 256, w) + [(n % 256) as byte]
  {}

  /** The widths in use, byte by byte, most significant first; reading is the sum Go computes with shifts. */
  lemma BytesOfTwo(n: nat, b: Bytes)
    requires |b| == 2
    ensures Put(n, 2) == [(n / 0x100 % 256) as byte, (n % 256) as byte]
    ensures Get(b) == b[0] as nat * 0x100 + b[1] as nat
  {
    PutSnoc(n, 1);
    PutSnoc(n / 256, 0);
    GetSnoc(b[..1], b[1]);
    GetSnoc([], b[0]);
    assert b == b[..1] + [b[1]] && b[..1] == [] + [b[0]];
  }

  lemma BytesOfFour(n: nat, b: Bytes)
    requires |b| == 4
    ensures Put(n, 4) == [(n / 0x100_0000 % 256) as byte, (n / 0x1_0000 % 256) as byte, (n / 0x100 % 256) as byte,
                          (n % 256) as byte]
    ensures Get(b) == b[0] as nat * 0x100_0000 + b[1] as nat * 0x1_0000 + b[2] as nat * 0x100 + b[3] as nat
  {
    assert n / 256 / 256 == n / 0x1_0000 && n / 256 / 256 / 256 == n / 0x100_0000;
    PutSnoc(n, 3);
    PutSnoc(n / 256, 2);
    BytesOfTwo(n / 256 / 256, b[..2]);
    GetSnoc(b[..3], b[3]);
    GetSnoc(b[..2], b[2]);
    assert b == b[..3] + [b[3]] && b[..3] == b[..2] + [b[2]];
  }

  lemma HalvesOfEight(n: nat, b: Bytes)
    requires |b| == 8
    ensures Put(n, 8) == Put(n / TWO_32, 4) + Put(n, 4)
    ensures Get(b) == Get(b[..4]) * TWO_32 + Get(b[4..])
  {
    assert n / 256 / 256 / 256 / 256 == n / TWO_32;
    PutSnoc(n, 7);
    PutSnoc(n / 256, 6);
    PutSnoc(n / 256 / 256, 5);
    PutSnoc(n / 256 / 256 / 256, 4);
    PutSnoc(n, 3);
    PutSnoc(n / 256, 2);
    PutSnoc(n / 256 / 256, 1);
    PutSnoc(n / 256 / 256 / 256, 0);
    GetSnoc(b[..7], b[7]);
    GetSnoc(b[..6], b[6]);
    GetSnoc(b[..5], b[5]);
    GetSnoc(b[..4], b[4]);
    assert b == b[..7] + [b[7]] && b[..7] == b[..6] + [b[6]] && b[..6] == b[..5] + [b[5]] && b[..5] == b[..4] + [b[4]];
    BytesOfFour(0, b[4..]);
  }

  lemma GetSnoc(b: Bytes, x: byte)
    ensures Get(b + [x]) == Get(b) * 256 + x as nat
  {
    assert (b + [x])[..|b|] == b;
  }
}
