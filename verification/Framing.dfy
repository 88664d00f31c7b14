/** The length-prefixed framing of pkg/transport/transport.go over a byte stream. */
module Framing {
  import opened Common
  import opened BigEndian

  const MAX_FRAME: nat := 10 * 1024 * 1024

  datatype FrameError = FrameTooLarge | HeaderCut | PayloadCut | WriteFailed

  function Frame(p: Bytes): Bytes
  {
    Put(|p|, 4) + p
  }

  /** The bytes a sender puts on the stream for a list of packets. */
  function FrameAll(ps: seq<Bytes>): Bytes
  {
    if ps == [] then [] else Frame(ps[0]) + FrameAll(ps[1..])
  }

  predicate Framable(p: Bytes)
  {
    |p| <= MAX_FRAME
  }

  /** ReceivePacket on a stream that ends after `s`: the outcome and what is left unread. */
  function Receive(s: Bytes): (Result<Bytes, FrameError>, Bytes)
  {
    if |s| < 4 then (Err(HeaderCut), [])
    else
      var payloadLen := Get(s[..4]);
      if payloadLen > MAX_FRAME then (Err(FrameTooLarge), s[4..])
      else if |s| < 4 + payloadLen then (Err(PayloadCut), [])
      else (Ok(s[4..4 + payloadLen]), s[4 + payloadLen..])
  }

  /** Receive as long as whole frames come: the packets, and the bytes after the last of them. */
  function ReceiveAll(s: Bytes): (seq<Bytes>, Bytes)
    decreases |s|
  {
    var (r, rest) := Receive(s);
    if r.Err? then ([], s)
    else
      var (ps, leftover) := ReceiveAll(rest);
      ([r.value] + ps, leftover)
  }

  function UpTo(s: Bytes, n: nat): Bytes
  {
    if n < |s| then s[..n] else s
  }

  class FramedConn {
    var outgoing: Bytes
    var incoming: Bytes

    constructor (incoming: Bytes)
      ensures outgoing == [] && this.incoming == incoming
    {
      outgoing, this.incoming := [], incoming;
    }

    /** Write to a connection that takes `room` more bytes before it fails. */
    method Write(buf: Bytes, room: nat) returns (ok: bool)
      modifies this`outgoing
      ensures ok <==> |buf| <= room
      ensures outgoing == old(outgoing) + UpTo(buf, room)
    {
      ok := |buf| <= room;
      outgoing := outgoing + UpTo(buf, room);
    }

    /** A packet that is refused leaves no trace; one whose write fails leaves part of its frame. */
    method SendPacket(packet: Bytes, room: nat) returns (r: Result<(), FrameError>)
      modifies this`outgoing
      ensures r == if !Framable(packet) then Err(FrameTooLarge)
                   else if |Frame(packet)| <= room then Ok(()) else Err(WriteFailed)
      ensures outgoing == old(outgoing) + if Framable(packet) then UpTo(Frame(packet), room) else []
    {
      if |packet| > MAX_FRAME {
        return Err(FrameTooLarge);
      }
      var lenBuf := Put(|packet|, 4);
      var ok := Write(lenBuf, room);
      if !ok {
        assert UpTo(Frame(packet), room) == UpTo(lenBuf, room);
        return Err(WriteFailed);
      }
      ok := Write(packet, room - 4);
      assert UpTo(Frame(packet), room) == lenBuf + UpTo(packet, room - 4);
      return if ok then Ok(()) else Err(WriteFailed);
    }

    /** Read exactly `n` bytes, or all there is. */
    method ReadFull(n: nat) returns (ok: bool, buf: Bytes)
      modifies this`incoming
      ensures ok <==> n <= |old(incoming)|
      ensures if ok then buf == old(incoming)[..n] && incoming == old(incoming)[n..] else incoming == []
    {
      ok := n <= |incoming|;
      if ok {
        buf, incoming := incoming[..n], incoming[n..];
      } else {
        buf, incoming := incoming, [];
      }
    }

    method ReceivePacket() returns (r: Result<Bytes, FrameError>)
      modifies this`incoming
      ensures (r, incoming) == Receive(old(incoming))
    {
      var ok, lenBuf := ReadFull(4);
      if !ok {
        return Err(HeaderCut);
      }
      var payloadLen := Get(lenBuf);
      if payloadLen > MAX_FRAME {
        return Err(FrameTooLarge);
      }
      var whole, buf := ReadFull(payloadLen);
      if !whole {
        return Err(PayloadCut);
      }
      assert old(incoming)[4..][..payloadLen] == old(incoming)[4..4 + payloadLen];
      assert old(incoming)[4..][payloadLen..] == old(incoming)[4 + payloadLen..];
      return Ok(buf);
    }
  }

  /** One frame at the head of a stream. */
  lemma ReceiveFrame(p: Bytes, rest: Bytes)
    requires Framable(p)
    ensures Receive(Frame(p) + rest) == (Ok(p), rest)
  {
    var s := Frame(p) + rest;
    Widths();
    GetPut(|p|, 4);
    assert s[..4] == Put(|p|, 4);
    assert s[4..4 + |p|] == p;
    assert s[4 + |p|..] == rest;
  }

  /** Every outcome of ReceivePacket, from the bytes of the stream. */
  lemma ReceiveExactly(s: Bytes)
    ensures
      if |s| < 4 then Receive(s) == (Err(HeaderCut), [])
      else
        var length := s[0] as nat * 0x100_0000 + s[1] as nat * 0x1_0000 + s[2] as nat * 0x100 + s[3] as nat;
        if length > 10 * 1024 * 1024 then Receive(s) == (Err(FrameTooLarge), s[4..])
        else if |s| - 4 < length then Receive(s) == (Err(PayloadCut), [])
        else exists p :: |p| == length && p <= s[4..] && Receive(s) == (Ok(p), s[4..][length..])
  {
    if |s| >= 4 {
      BytesOfFour(0, s[..4]);
      var length := Get(s[..4]);
      if length <= MAX_FRAME && |s| - 4 >= length {
        assert s[4..4 + length] == s[4..][..length] && s[4 + length..] == s[4..][length..];
      }
    }
  }

  /** A frame that was received is the frame of what was received. */
  lemma ReceivedIsFrame(s: Bytes)
    requires Receive(s).0.Ok?
    ensures s == Frame(Receive(s).0.value) + Receive(s).1 && Framable(Receive(s).0.value)
  {
    PutGet(s[..4]);
  }

  /** Any stream is the frames of the packets received from it, then the leftover. */
  lemma {:induction false} ReceiveAllSound(s: Bytes)
    ensures s == FrameAll(ReceiveAll(s).0) + ReceiveAll(s).1
    ensures Receive(ReceiveAll(s).1).0.Err?
    decreases |s|
  {
    var (r, rest) := Receive(s);
    if r.Ok? {
      ReceivedIsFrame(s);
      ReceiveAllSound(rest);
      var (ps, leftover) := ReceiveAll(rest);
      assert ([r.value] + ps)[1..] == ps;
      assert Frame(r.value) + (FrameAll(ps) + leftover) == (Frame(r.value) + FrameAll(ps)) + leftover;
    }
  }

  /**
   * The stream `s` yields the first of the packets `ps`, and the bytes after them are the
   * beginning of the next frame.
   */
  ghost predicate YieldsPrefix(s: Bytes, ps: seq<Bytes>)
  {
    var (got, leftover) := ReceiveAll(s);
    && got <= ps
    && s == FrameAll(got) + leftover
    && (got < ps ==> leftover < Frame(ps[|got|]))
    && (got == ps ==> leftover == [])
  }

  lemma EmptyStream()
    ensures YieldsPrefix([], [])
  {}

  lemma OneMoreFrame(p: Bytes, s: Bytes, ps: seq<Bytes>)
    requires Framable(p) && YieldsPrefix(s, ps)
    ensures YieldsPrefix(Frame(p) + s, [p] + ps)
  {
    ReceiveFrame(p, s);
    var (got, leftover) := ReceiveAll(s);
    assert ReceiveAll(Frame(p) + s) == ([p] + got, leftover);
    hide Frame, ReceiveAll, Receive;
    assert ([p] + got)[1..] == got;
    assert Frame(p) + (FrameAll(got) + leftover) == (Frame(p) + FrameAll(got)) + leftover;
    if [p] + got < [p] + ps {
      assert got < ps;
      assert ([p] + ps)[|[p] + got|] == ps[|got|];
    } else if [p] + got == [p] + ps {
      assert ([p] + got)[1..] == ([p] + ps)[1..];
      assert ([p] + ps)[1..] == ps;
    }
  }

  /** A stream cut anywhere yields the packets whose frames lie wholly before the cut. */
  lemma {:induction false} CutStream(ps: seq<Bytes>, n: nat)
    requires (forall p :: p in ps ==> Framable(p)) && n <= |FrameAll(ps)|
    ensures YieldsPrefix(FrameAll(ps)[..n], ps)
  {
    hide Frame, Receive;
    var s := FrameAll(ps)[..n];
    if ps == [] {
      EmptyStream();
      assert s == [];
    } else {
      var p, rest := ps[0], FrameAll(ps[1..]);
      if n < |Frame(p)| {
        assert s == Frame(p)[..n];
        CutFrame(p, n);
        assert ReceiveAll(s) == ([], s);
        assert FrameAll([]) + s == s;
      } else {
        var m := n - |Frame(p)|;
        assert s == Frame(p) + rest[..m];
        CutStream(ps[1..], m);
        hide YieldsPrefix;
        OneMoreFrame(p, rest[..m], ps[1..]);
        assert [p] + ps[1..] == ps;
      }
    }
  }

  /** Part of a frame is not taken for a packet. */
  lemma CutFrame(p: Bytes, n: nat)
    requires Framable(p) && n < |Frame(p)|
    ensures Receive(Frame(p)[..n]).0.Err? && Frame(p)[..n] < Frame(p)
  {
    var s := Frame(p)[..n];
    Widths();
    GetPut(|p|, 4);
    if n >= 4 {
      assert s[..4] == Put(|p|, 4);
    }
  }

  /** Round trip: the whole stream yields exactly the packets, with nothing left over. */
  lemma FramingRoundTrip(ps: seq<Bytes>)
    requires forall p :: p in ps ==> Framable(p)
    ensures ReceiveAll(FrameAll(ps)) == (ps, [])
  {
    var s := FrameAll(ps);
    CutStream(ps, |s|);
    assert s[..|s|] == s;
    var (got, leftover) := ReceiveAll(s);
    assert ps[..|got|] == got;
    if |got| < |ps| {
      FramesGrow(ps, |got|);
    }
    assert got == ps;
  }

  lemma {:induction false} FramesGrow(ps: seq<Bytes>, k: nat)
    requires k < |ps|
    ensures |FrameAll(ps[..k])| + |Frame(ps[k])| <= |FrameAll(ps)|
  {
    if k > 0 {
      FramesGrow(ps[1..], k - 1);
      assert ps[..k][1..] == ps[1..][..k - 1];
    }
  }
}
