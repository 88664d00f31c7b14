/** The packet format of pkg/protocol/packet.go, byte by byte. */
module Packets {
  import opened Common
  import opened BigEndian

  const CURRENT_VERSION: nat := 0x0100
  const TYPE_HANDSHAKE_INIT: nat := 0x01
  const TYPE_HANDSHAKE_RESP: nat := 0x02
  const TYPE_DATA: nat := 0x03
  const HEADER_SIZE: nat := 111
  const MIN_PACKET_SIZE: nat := 203
  const MAX_PAYLOAD: nat := 10 * 1024 * 1024

  datatype Packet = Packet(
    version: nat,
    typ: nat,
    epoch: nat,
    sequence: nat,
    sender: Bytes,
    recipient: Bytes,
    ephemeral: Bytes,
    nonce: Bytes,
    payload: Bytes,
    signature: Bytes)

  /** Go's zero value of the Packet struct. */
  const ZERO_PACKET := Packet(0, 0, 0, 0, Zeros(32), Zeros(32), Zeros(32), Zeros(24), [], Zeros(64))

  /** What the field types of the Go struct guarantee. */
  predicate Fits(p: Packet)
  {
    && p.version < 0x1_0000 && p.typ < 256 && p.epoch < TWO_32 && p.sequence < TWO_64
    && |p.sender| == |p.recipient| == |p.ephemeral| == 32
    && |p.nonce| == 24 && |p.signature| == 64
  }

  datatype PacketError = PayloadTooLarge | BufferTooSmall | UnsupportedVersion | LengthMismatch

  // ---------------------------------------------------------------- the format

  function Header(p: Packet): (r: Bytes)
    requires Fits(p)
    ensures |r| == HEADER_SIZE
  {
    Put(p.version, 2) + [p.typ as byte] + Put(p.epoch, 4) + Put(p.sequence, 8) + p.sender + p.recipient + p.ephemeral
  }

  /** Everything but the signature. */
  function Body(p: Packet): (r: Bytes)
    requires Fits(p)
    ensures |r| == 139 + |p.payload|
  {
    Header(p) + p.nonce + Put(|p.payload|, 4) + p.payload
  }

  function Encode(p: Packet): (r: Bytes)
    requires Fits(p)
    ensures |r| == MIN_PACKET_SIZE + |p.payload|
  {
    Body(p) + p.signature
  }

  /** Parsed, turned away with an error, or a slice-bounds panic after uint32 offset wrap-around. */
  datatype Outcome = Parsed | Rejected(error: PacketError) | Panicked

  /** The fixed-offset fields after the version. */
  function ReadFixed(p: Packet, b: Bytes): Packet
    requires |b| >= MIN_PACKET_SIZE
  {
    p.(typ := b[2] as nat, epoch := Get(b[3..7]), sequence := Get(b[7..15]),
       sender := b[15..47], recipient := b[47..79], ephemeral := b[79..111], nonce := b[111..135])
  }

  /** Unmarshal on a 64-bit machine: the receiver afterwards, partly filled on an error. */
  function Decode(p: Packet, b: Bytes): (Packet, Outcome)
  {
    if |b| < MIN_PACKET_SIZE then (p, Rejected(BufferTooSmall)) else
    var p1 := p.(version := Get(b[0..2]));
    if p1.version > CURRENT_VERSION then (p1, Rejected(UnsupportedVersion)) else
    var p2 := ReadFixed(p1, b);
    var payloadLen := Get(b[135..139]);
    if |b| != MIN_PACKET_SIZE + payloadLen then (p2, Rejected(LengthMismatch)) else
    var end := (139 + payloadLen) % TWO_32;
    if end < 139 then (p2.(payload := Zeros(payloadLen)), Panicked) else
    var p3 := p2.(payload := b[139..end]);
    if (end + 64) % TWO_32 < end then (p3, Panicked) else
    (p3.(signature := b[end..end + 64]), Parsed)
  }

  /** A buffer whose version and length fields are in order. */
  predicate WellFormed(b: Bytes)
  {
    |b| >= MIN_PACKET_SIZE && Get(b[0..2]) <= CURRENT_VERSION && |b| == MIN_PACKET_SIZE + Get(b[135..139])
  }

  // ---------------------------------------------------------------- the methods

  /** Go's copy into `buf[at..]`. */
  method CopyAt(buf: array<byte>, at: nat, src: Bytes)
    requires at + |src| <= buf.Length
    modifies buf
    ensures buf[..at + |src|] == old(buf[..at]) + src
  {
    forall i | 0 <= i < |src| {
      buf[at + i] := src[i];
    }
  }

  /** The part of the buffer that Marshal, SignedBytes and ComputeAAD all fill alike. */
  method FillHeader(p: Packet, buf: array<byte>)
    requires Fits(p) && buf.Length >= HEADER_SIZE
    modifies buf
    ensures buf[..HEADER_SIZE] == Header(p)
  {
    CopyAt(buf, 0, Put(p.version, 2));
    CopyAt(buf, 2, [p.typ as byte]);
    CopyAt(buf, 3, Put(p.epoch, 4));
    CopyAt(buf, 7, Put(p.sequence, 8));
    CopyAt(buf, 15, p.sender);
    CopyAt(buf, 47, p.recipient);
    CopyAt(buf, 79, p.ephemeral);
  }

  method FillBody(p: Packet, buf: array<byte>)
    requires Fits(p) && buf.Length >= 139 + |p.payload|
    modifies buf
    ensures buf[..139 + |p.payload|] == Body(p)
  {
    FillHeader(p, buf);
    CopyAt(buf, 111, p.nonce);
    CopyAt(buf, 135, Put(|p.payload|, 4));
    CopyAt(buf, 139, p.payload);
  }

  method Marshal(p: Packet) returns (r: Result<Bytes, PacketError>)
    requires Fits(p)
    ensures r == if |p.payload| > MAX_PAYLOAD then Err(PayloadTooLarge) else Ok(Encode(p))
  {
    if |p.payload| > MAX_PAYLOAD {
      return Err(PayloadTooLarge);
    }
    var buf := new byte[MIN_PACKET_SIZE + |p.payload|];
    FillBody(p, buf);
    var sigOffset := 139 + |p.payload|;
    CopyAt(buf, sigOffset, p.signature);
    assert buf[..] == buf[..sigOffset + 64];
    return Ok(buf[..]);
  }

  method SignedBytes(p: Packet) returns (r: Bytes)
    requires Fits(p)
    ensures r == Body(p)
  {
    var buf := new byte[139 + |p.payload|];
    FillBody(p, buf);
    assert buf[..] == buf[..139 + |p.payload|];
    return buf[..];
  }

  method ComputeAAD(p: Packet) returns (r: Bytes)
    requires Fits(p)
    ensures r == Header(p)
  {
    var aad := new byte[HEADER_SIZE];
    FillHeader(p, aad);
    assert aad[..] == aad[..HEADER_SIZE];
    return aad[..];
  }

  /** A Packet variable, the receiver of Unmarshal. */
  class PacketVar {
    var value: Packet

    constructor ()
      ensures value == ZERO_PACKET
    {
      value := ZERO_PACKET;
    }

    /** The precondition leaves out exactly the calls that end in a panic; see UnmarshalPanics. */
    method Unmarshal(b: Bytes) returns (r: Result<(), PacketError>)
      requires Decode(value, b).1 != Panicked
      modifies this
      ensures value == Decode(old(value), b).0
      ensures Decode(old(value), b).1 == match r { case Ok(_) => Parsed case Err(e) => Rejected(e) }
    {
      Widths();
      if |b| < MIN_PACKET_SIZE {
        return Err(BufferTooSmall);
      }
      value := value.(version := Get(b[0..2]));
      if value.version > CURRENT_VERSION {
        return Err(UnsupportedVersion);
      }
      value := value.(typ := b[2] as nat);
      value := value.(epoch := Get(b[3..7]));
      value := value.(sequence := Get(b[7..15]));
      value := value.(sender := b[15..47]);
      value := value.(recipient := b[47..79]);
      value := value.(ephemeral := b[79..111]);
      value := value.(nonce := b[111..135]);
      var payloadLen := Get(b[135..139]);
      var expectedTotal := MIN_PACKET_SIZE + payloadLen;
      if |b| != expectedTotal {
        return Err(LengthMismatch);
      }
      var sigOffset := (139 + payloadLen) % TWO_32;
      value := value.(payload := b[139..sigOffset]);
      var sigEnd := (sigOffset + 64) % TWO_32;
      value := value.(signature := b[sigOffset..sigEnd]);
      return Ok(());
    }
  }

  // ---------------------------------------------------------------- properties

  /** The slice expressions panic on well-formed buffers of 4 GiB and more, and on no others. */
  lemma UnmarshalPanics(p: Packet, b: Bytes)
    ensures Decode(p, b).1 == Panicked <==> WellFormed(b) && |b| >= TWO_32
  {
    if |b| >= MIN_PACKET_SIZE {
      GetBound(b[135..139]);
      Widths();
    }
  }

  /** What each rejection leaves in the receiver: the fields read before it, the others as they were. */
  lemma UnmarshalRejects(p: Packet, b: Bytes)
    ensures
      var (q, outcome) := Decode(p, b);
      if |b| < 203 then q == p && outcome == Rejected(BufferTooSmall)
      else
        var version := b[0] as nat * 0x100 + b[1] as nat;
        var length :=
          b[135] as nat * 0x100_0000 + b[136] as nat * 0x1_0000 + b[137] as nat * 0x100 + b[138] as nat;
        if version > 0x0100 then q == p.(version := version) && outcome == Rejected(UnsupportedVersion)
        else if |b| != 203 + length then
          && outcome == Rejected(LengthMismatch) && q.payload == p.payload && q.signature == p.signature
          && q.version == version && q.typ == b[2] as nat && q.epoch == Get(b[3..7]) && q.sequence == Get(b[7..15])
          && q.sender == b[15..47] && q.recipient == b[47..79] && q.ephemeral == b[79..111] && q.nonce == b[111..135]
        else !outcome.Rejected?
  {
    if |b| >= 203 {
      BytesOfTwo(0, b[0..2]);
      BytesOfFour(0, b[135..139]);
    }
  }

  /** Short of that, exactly the well-formed buffers are accepted. */
  lemma UnmarshalAccepts(p: Packet, b: Bytes)
    requires |b| < TWO_32
    ensures Decode(p, b).1 == Parsed <==> WellFormed(b)
  {
    UnmarshalPanics(p, b);
  }

  /** Where the fields lie in an encoded packet. */
  lemma Layout(p: Packet)
    requires Fits(p)
    ensures
      var b := Encode(p);
      && b[..HEADER_SIZE] == Header(p)
      && b[..139 + |p.payload|] == Body(p)
      && b[111..135] == p.nonce && b[135..139] == Put(|p.payload|, 4)
      && b[139..139 + |p.payload|] == p.payload
      && b[139 + |p.payload|..] == p.signature
  {
    var b := Encode(p);
    assert b == Header(p) + (p.nonce + (Put(|p.payload|, 4) + (p.payload + p.signature)));
    assert b[111..] == p.nonce + (Put(|p.payload|, 4) + (p.payload + p.signature));
    assert b[135..] == Put(|p.payload|, 4) + (p.payload + p.signature);
    assert b[139..] == p.payload + p.signature;
  }

  lemma HeaderLayout(p: Packet)
    requires Fits(p)
    ensures
      var h := Header(p);
      && h[0..2] == Put(p.version, 2) && h[2] as nat == p.typ
      && h[3..7] == Put(p.epoch, 4) && h[7..15] == Put(p.sequence, 8)
      && h[15..47] == p.sender && h[47..79] == p.recipient && h[79..111] == p.ephemeral
  {}

  /** The bytes of the version and length fields, and the sizes that Marshal accepts. */
  lemma LayoutOfNumbers(p: Packet)
    requires Fits(p)
    ensures
      var b := Encode(p);
      && b[0..2] == [(p.version / 0x100 % 256) as byte, (p.version % 256) as byte]
      && b[2] == p.typ as byte
      && b[135..139] == Put(|p.payload|, 4)
      && b[135] as nat == |p.payload| / 0x100_0000 % 256 && b[138] as nat == |p.payload| % 256
      && |b| == 203 + |p.payload|
    ensures MAX_PAYLOAD == 10 * 1024 * 1024
  {
    Layout(p);
    HeaderLayout(p);
    HeaderSlices(Encode(p), Header(p));
    BytesOfTwo(p.version, [0, 0]);
    BytesOfFour(|p.payload|, [0, 0, 0, 0]);
    assert Encode(p)[135] == Encode(p)[135..139][0] && Encode(p)[138] == Encode(p)[135..139][3];
  }

  /** Reading a header back: the numbers in it are the fields. */
  lemma HeaderDetermines(p: Packet)
    requires Fits(p)
    ensures
      var h := Header(p);
      && Get(h[0..2]) == p.version && h[2] as nat == p.typ && Get(h[3..7]) == p.epoch && Get(h[7..15]) == p.sequence
      && h[15..47] == p.sender && h[47..79] == p.recipient && h[79..111] == p.ephemeral
  {
    HeaderLayout(p);
    Widths();
    GetPut(p.version, 2);
    GetPut(p.epoch, 4);
    GetPut(p.sequence, 8);
  }

  lemma HeaderSlices(b: Bytes, h: Bytes)
    requires HEADER_SIZE <= |b| && b[..HEADER_SIZE] == h
    ensures b[0..2] == h[0..2] && b[2] == h[2] && b[3..7] == h[3..7] && b[7..15] == h[7..15]
    ensures b[15..47] == h[15..47] && b[47..79] == h[47..79] && b[79..111] == h[79..111]
  {}

  /** Unmarshal undoes Marshal, whatever the receiver held before. */
  lemma UnmarshalUndoesMarshal(p: Packet, receiver: Packet)
    requires Fits(p) && p.version <= CURRENT_VERSION && |p.payload| <= MAX_PAYLOAD
    ensures Decode(receiver, Encode(p)) == (p, Parsed)
  {
    var b := Encode(p);
    Layout(p);
    HeaderDetermines(p);
    HeaderSlices(b, Header(p));
    Widths();
    GetPut(|p.payload|, 4);
    assert b[139 + |p.payload|..139 + |p.payload| + 64] == b[139 + |p.payload|..];
  }

  /** A packet that took its header fields from `b` writes the same header. */
  lemma HeaderRebuilds(p: Packet, b: Bytes)
    requires |b| >= MIN_PACKET_SIZE && p.version == Get(b[0..2]) && p == ReadFixed(p, b)
    requires |p.signature| == 64
    ensures Fits(p) && Header(p) == b[..HEADER_SIZE]
  {
    Widths();
    GetBound(b[0..2]);
    GetBound(b[3..7]);
    GetBound(b[7..15]);
    PutGet(b[0..2]);
    PutGet(b[3..7]);
    PutGet(b[7..15]);
    assert b[..HEADER_SIZE] == b[0..2] + [b[2]] + b[3..7] + b[7..15] + b[15..47] + b[47..79] + b[79..111];
  }

  /** An accepted buffer is the encoding of the packet it was read into. */
  lemma MarshalUndoesUnmarshal(b: Bytes, receiver: Packet)
    requires Decode(receiver, b).1 == Parsed
    ensures Fits(Decode(receiver, b).0) && Encode(Decode(receiver, b).0) == b
  {
    var p := Decode(receiver, b).0;
    UnmarshalPanics(receiver, b);
    HeaderRebuilds(p, b);
    PutGet(b[135..139]);
    Widths();
    var n := Get(b[135..139]);
    assert p.nonce == b[111..135] && p.payload == b[139..139 + n];
    assert b[..139 + n] == b[..HEADER_SIZE] + b[111..135] + b[135..139] + b[139..139 + n];
    assert p.signature == b[139 + n..];
  }

  /** The AAD binds every header field: equal AAD, equal fields. */
  lemma AadBindsHeader(p: Packet, q: Packet)
    requires Fits(p) && Fits(q) && Header(p) == Header(q)
    ensures p.version == q.version && p.typ == q.typ && p.epoch == q.epoch && p.sequence == q.sequence
    ensures p.sender == q.sender && p.recipient == q.recipient && p.ephemeral == q.ephemeral
  {
    HeaderDetermines(p);
    HeaderDetermines(q);
  }

  /** The signed bytes bind the whole packet but the signature, for payloads Marshal accepts. */
  lemma SignatureBindsPacket(p: Packet, q: Packet)
    requires Fits(p) && Fits(q) && |p.payload| <= MAX_PAYLOAD && |q.payload| <= MAX_PAYLOAD
    requires Body(p) == Body(q)
    ensures p == q.(signature := p.signature)
  {
    Layout(p);
    Layout(q);
    var n := 139 + |p.payload|;
    assert Body(p) == Body(q) && |p.payload| == |q.payload|;
    assert Body(p)[..HEADER_SIZE] == Header(p) && Body(q)[..HEADER_SIZE] == Header(q);
    AadBindsHeader(p, q);
    assert Body(p)[111..135] == p.nonce && Body(q)[111..135] == q.nonce;
    assert Body(p)[139..n] == p.payload && Body(q)[139..n] == q.payload;
  }
}
