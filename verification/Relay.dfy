/**
 * The relay server of pkg/server/server.go: the mailbox operations that run under the lock, and
 * the server methods, among other calls that run whenever a method does not hold the lock. Clocks
 * and the outcome of each network send are parameters.
 */
module Relays {
  import opened Common
  import opened Packets

  /** Nanoseconds, as in Go's time.Duration. */
  const MAILBOX_TTL: int := 72 * 3600 * 1_000_000_000

  datatype Entry<T> = Entry(packets: seq<T>, createdAt: int)

  type Boxes<T> = map<Bytes, Entry<T>>

  // ---------------------------------------------------------------- critical sections

  function Pending<T>(boxes: Boxes<T>, fp: Bytes): seq<T>
  {
    if fp in boxes then boxes[fp].packets else []
  }

  /** enqueueMailbox. */
  function Enqueue<T>(boxes: Boxes<T>, fp: Bytes, x: T, now: int): Boxes<T>
  {
    if fp in boxes then boxes[fp := boxes[fp].(packets := boxes[fp].packets + [x])]
    else boxes[fp := Entry([x], now)]
  }

  /** Put the unsent tail of a failed flush in front of whatever the mailbox holds now. */
  function Requeue<T>(boxes: Boxes<T>, fp: Bytes, unsent: seq<T>, now: int): Boxes<T>
  {
    if fp in boxes then boxes[fp := boxes[fp].(packets := unsent + boxes[fp].packets)]
    else boxes[fp := Entry(unsent, now)]
  }

  predicate Expired<T>(e: Entry<T>, now: int)
  {
    e.createdAt < now - MAILBOX_TTL
  }

  /** evictExpiredMailboxes. */
  function Evict<T>(boxes: Boxes<T>, now: int): Boxes<T>
  {
    map fp | fp in boxes && !Expired(boxes[fp], now) :: boxes[fp]
  }

  /** The packet as RoutePacket sees it: unmarshalled into a zero value. */
  predicate Routable(raw: Bytes)
  {
    Decode(ZERO_PACKET, raw).1 == Parsed
  }

  function Recipient(raw: Bytes): Bytes
  {
    Decode(ZERO_PACKET, raw).0.recipient
  }

  // ---------------------------------------------------------------- the class

  type ConnId = nat

  datatype ServerError = BadPacket(error: PacketError) | DeliveryFailed(index: nat)

  /**
   * What a method finds when it takes the lock again after sending: whatever the other calls made
   * of the two maps meanwhile. Without interference it is what the method left.
   */
  datatype Maps = Maps(mailboxes: Boxes<Bytes>, clients: map<Bytes, ConnId>)

  /**
   * What RoutePacket makes of the maps and what it sends; `others` is what it finds after a direct
   * send.
   */
  function Routing(before: Maps, raw: Bytes, sendOk: bool, now: int, others: Maps): (Maps, seq<(ConnId, Bytes)>)
  {
    var fp := Recipient(raw);
    if !Routable(raw) then (before, [])
    else if fp !in before.clients then (before.(mailboxes := Enqueue(before.mailboxes, fp, raw, now)), [])
    else if sendOk then (others, [(before.clients[fp], raw)])
    else (Maps(Enqueue(others.mailboxes, fp, raw, now), others.clients - {fp}), [])
  }

  /** Likewise DeliverMailbox, with its result. */
  function Delivery(before: Maps, fp: Bytes, conn: ConnId, failAt: nat, now: int, others: Maps)
    : (Maps, Result<(), ServerError>, seq<(ConnId, Bytes)>)
  {
    var pkts := Pending(before.mailboxes, fp);
    if pkts == [] then (before, Ok(()), [])
    else if failAt < |pkts| then
      (others.(mailboxes := Requeue(others.mailboxes, fp, pkts[failAt..], now)), Err(DeliveryFailed(failAt)),
       OnWire(conn, pkts[..failAt]))
    else (others.(mailboxes := others.mailboxes - {fp}), Ok(()), OnWire(conn, pkts))
  }

  class Server {
    var mailboxes: Boxes<Bytes>
    var clients: map<Bytes, ConnId>

    constructor ()
      ensures State() == Maps(map[], map[])
    {
      mailboxes, clients := map[], map[];
    }

    function State(): Maps
      reads this
    {
      Maps(mailboxes, clients)
    }

    /** The last step of AuthenticateClient. */
    method RegisterClient(fp: Bytes, conn: ConnId)
      modifies this`clients
      ensures clients == old(clients)[fp := conn]
    {
      clients := clients[fp := conn];
    }

    method EnqueueMailbox(fp: Bytes, raw: Bytes, now: int)
      modifies this`mailboxes
      ensures mailboxes == Enqueue(old(mailboxes), fp, raw, now)
    {
      var entry := if fp in mailboxes then mailboxes[fp] else Entry([], now);
      assert fp !in mailboxes ==> entry.packets + [raw] == [raw];
      mailboxes := mailboxes[fp := entry.(packets := entry.packets + [raw])];
    }

    /** `sendOk` is the outcome of a direct send, if one is made; `sent` is what went out. */
    method RoutePacket(raw: Bytes, sendOk: bool, now: int, others: Maps)
      returns (r: Result<(), ServerError>, sent: seq<(ConnId, Bytes)>)
      requires Decode(ZERO_PACKET, raw).1 != Panicked
      modifies this
      ensures r == match Decode(ZERO_PACKET, raw).1 case Rejected(e) => Err(BadPacket(e)) case _ => Ok(())
      ensures (State(), sent) == Routing(old(State()), raw, sendOk, now, others)
    {
      sent := [];
      var pkt := new PacketVar();
      var parsed := pkt.Unmarshal(raw);
      if parsed.Err? {
        return Err(BadPacket(parsed.error)), sent;
      }
      var recipientFP := pkt.value.recipient;
      if recipientFP in clients {
        var conn := clients[recipientFP];
        mailboxes, clients := others.mailboxes, others.clients;
        if sendOk {
          sent := [(conn, raw)];
        } else {
          clients := clients - {recipientFP};
          EnqueueMailbox(recipientFP, raw, now);
        }
        return Ok(()), sent;
      }
      EnqueueMailbox(recipientFP, raw, now);
      return Ok(()), sent;
    }

    /** The locked section of DeliverMailbox after a failed send. */
    method PutBack(fp: Bytes, unsent: seq<Bytes>, now: int)
      modifies this`mailboxes
      ensures mailboxes == Requeue(old(mailboxes), fp, unsent, now)
    {
      if fp in mailboxes {
        var curEntry := mailboxes[fp];
        mailboxes := mailboxes[fp := curEntry.(packets := unsent + curEntry.packets)];
      } else {
        mailboxes := mailboxes[fp := Entry(unsent, now)];
      }
    }

    /** `failAt` is the index of the first send that fails; `sent` is what went out. */
    method DeliverMailbox(fp: Bytes, conn: ConnId, failAt: nat, now: int, others: Maps)
      returns (r: Result<(), ServerError>, sent: seq<(ConnId, Bytes)>)
      modifies this
      ensures (State(), r, sent) == Delivery(old(State()), fp, conn, failAt, now, others)
    {
      sent := [];
      if fp !in mailboxes || |mailboxes[fp].packets| == 0 {
        return Ok(()), sent;
      }
      var pkts := mailboxes[fp].packets;
      mailboxes, clients := others.mailboxes, others.clients;
      var sentCount := 0;
      while sentCount < |pkts|
        invariant sentCount <= |pkts| && sentCount <= failAt
        invariant sent == OnWire(conn, pkts[..sentCount])
        invariant State() == others
      {
        if sentCount == failAt {
          PutBack(fp, pkts[sentCount..], now);
          return Err(DeliveryFailed(sentCount)), sent;
        }
        sent := sent + [(conn, pkts[sentCount])];
        assert OnWire(conn, pkts[..sentCount + 1]) == OnWire(conn, pkts[..sentCount]) + [(conn, pkts[sentCount])];
        sentCount := sentCount + 1;
      }
      assert pkts[..sentCount] == pkts;
      mailboxes := mailboxes - {fp};
      return Ok(()), sent;
    }

    /** Go ranges over the map in no particular order. */
    method EvictExpiredMailboxes(now: int)
      modifies this`mailboxes
      ensures mailboxes == Evict(old(mailboxes), now)
    {
      var cutoff := now - MAILBOX_TTL;
      var todo := mailboxes.Keys;
      while todo != {}
        invariant todo <= mailboxes.Keys <= old(mailboxes).Keys
        invariant forall fp :: fp in mailboxes ==> mailboxes[fp] == old(mailboxes)[fp]
        invariant forall fp :: fp in mailboxes && fp !in todo ==> !Expired(old(mailboxes)[fp], now)
        invariant forall fp :: fp in old(mailboxes) && fp !in mailboxes ==> Expired(old(mailboxes)[fp], now)
      {
        var fp :| fp in todo;
        if mailboxes[fp].createdAt < cutoff {
          mailboxes := mailboxes - {fp};
        }
        todo := todo - {fp};
      }
    }
  }

  /** The same packets, in order, on one connection. */
  function OnWire(conn: ConnId, pkts: seq<Bytes>): (r: seq<(ConnId, Bytes)>)
    ensures |r| == |pkts|
  {
    seq(|pkts|, i requires 0 <= i < |pkts| => (conn, pkts[i]))
  }
}
