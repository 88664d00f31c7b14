/**
 * The relay at lock granularity: route and flush calls of any number of threads, each cut into the
 * sections that run under the lock and the sends in between, with the clock and the eviction sweep.
 */
module RelayRuns {
  import opened Common
  import opened Relays

  /** A routed packet, tagged so that two identical packets stay distinguishable. */
  datatype Item = Item(id: nat, fp: Bytes, raw: Bytes)

  /** A route call that found its recipient online and is sending. */
  datatype Flight = Flight(item: Item, conn: ConnId)

  /** A DeliverMailbox call that took its snapshot; as history, what was enqueued for `fp` since then. */
  datatype Flush = Flush(fp: Bytes, conn: ConnId, pkts: seq<Item>, sent: nat, late: set<Item>)

  /**
   * The server and its calls under way. Of the history, `taken` lists for each recipient what was
   * enqueued or directly sent, `sentTo` what was sent, and `since` when an item was enqueued.
   */
  datatype Relay = Relay(
    boxes: Boxes<Item>,
    clients: map<Bytes, ConnId>,
    now: int,
    flights: map<nat, Flight>,
    flushes: map<nat, Flush>,
    // history
    routed: seq<Item>,
    registered: set<(Bytes, ConnId)>,
    wire: set<(ConnId, Item)>,
    sentTo: map<Bytes, seq<Item>>,
    taken: map<Bytes, seq<Item>>,
    since: map<nat, int>,
    evicted: set<Item>,
    dropped: set<Item>)

  function EmptyRelay(now: int): Relay
  {
    Relay(map[], map[], now, map[], map[], [], {}, {}, map[], map[], map[], {}, {})
  }

  datatype RelayStep =
    | Register(fp: Bytes, conn: ConnId)
    | Tick(now: int)
    | RouteIn(tid: nat, raw: Bytes)
    | RouteSent(tid: nat)
    | RouteFailed(tid: nat)
    | FlushStart(tid: nat, fp: Bytes, conn: ConnId)
    | FlushSent(tid: nat)
    | FlushFailed(tid: nat)
    | FlushDone(tid: nat)
    | Sweep

  function Log(m: map<Bytes, seq<Item>>, fp: Bytes): seq<Item>
  {
    if fp in m then m[fp] else []
  }

  function Append(m: map<Bytes, seq<Item>>, x: Item): map<Bytes, seq<Item>>
  {
    m[x.fp := Log(m, x.fp) + [x]]
  }

  // ---------------------------------------------------------------- effects

  function MarkLate(flushes: map<nat, Flush>, x: Item): map<nat, Flush>
  {
    map t | t in flushes :: if flushes[t].fp == x.fp then flushes[t].(late := flushes[t].late + {x}) else flushes[t]
  }

  /** enqueueMailbox for one item. */
  function PutIn(r: Relay, x: Item): Relay
  {
    r.(boxes := Enqueue(r.boxes, x.fp, x, r.now), taken := Append(r.taken, x),
       since := r.since[x.id := r.now], flushes := MarkLate(r.flushes, x))
  }

  /** A successful SendPacket on `conn`. */
  function SendOut(r: Relay, conn: ConnId, x: Item): Relay
  {
    r.(wire := r.wire + {(conn, x)}, sentTo := Append(r.sentTo, x))
  }

  function NewItem(r: Relay, raw: Bytes): Item
  {
    Item(|r.routed|, Recipient(raw), raw)
  }

  predicate WasSent(r: Relay, x: Item)
  {
    x in Log(r.sentTo, x.fp)
  }

  /** What the final delete of flush `f` throws away without anyone having sent it. */
  function ThrownAway(r: Relay, f: Flush): set<Item>
  {
    set x | x in Pending(r.boxes, f.fp) && x in f.late && !WasSent(r, x) && x !in r.evicted
  }

  function ExpiredBoxes(r: Relay): set<Bytes>
  {
    set fp | fp in r.boxes && Expired(r.boxes[fp], r.now)
  }

  function ItemsOf(boxes: Boxes<Item>, fps: set<Bytes>): set<Item>
  {
    set fp, x | fp in fps && fp in boxes && x in boxes[fp].packets :: x
  }

  // ---------------------------------------------------------------- steps

  /** Threads are distinct, flushes go to registered connections, the clock does not go back. */
  predicate RelayEnabled(r: Relay, s: RelayStep)
  {
    match s
    case Register(_, _) => true
    case Tick(now) => r.now <= now
    case RouteIn(tid, _) => tid !in r.flights
    case RouteSent(tid) => tid in r.flights
    case RouteFailed(tid) => tid in r.flights
    case FlushStart(tid, fp, conn) => tid !in r.flushes && (fp, conn) in r.registered
    case FlushSent(tid) => tid in r.flushes && r.flushes[tid].sent < |r.flushes[tid].pkts|
    case FlushFailed(tid) => tid in r.flushes && r.flushes[tid].sent < |r.flushes[tid].pkts|
    case FlushDone(tid) => tid in r.flushes && r.flushes[tid].sent == |r.flushes[tid].pkts|
    case Sweep => true
  }

  function DoRegister(r: Relay, fp: Bytes, conn: ConnId): Relay
  {
    r.(clients := r.clients[fp := conn], registered := r.registered + {(fp, conn)})
  }

  /** Unmarshal, look the recipient up, and either go on to send or enqueue. */
  function DoRouteIn(r: Relay, tid: nat, raw: Bytes): Relay
  {
    if !Routable(raw) then r
    else
      var x := NewItem(r, raw);
      var r1 := r.(routed := r.routed + [x]);
      if x.fp in r.clients then r1.(flights := r.flights[tid := Flight(x, r.clients[x.fp])]) else PutIn(r1, x)
  }

  function DoRouteSent(r: Relay, tid: nat): Relay
    requires tid in r.flights
  {
    var x := r.flights[tid].item;
    SendOut(r.(flights := r.flights - {tid}, taken := Append(r.taken, x)), r.flights[tid].conn, x)
  }

  function DoRouteFailed(r: Relay, tid: nat): Relay
    requires tid in r.flights
  {
    var x := r.flights[tid].item;
    PutIn(r.(clients := r.clients - {x.fp}, flights := r.flights - {tid}), x)
  }

  function DoFlushStart(r: Relay, tid: nat, fp: Bytes, conn: ConnId): Relay
  {
    var pkts := Pending(r.boxes, fp);
    if pkts == [] then r else r.(flushes := r.flushes[tid := Flush(fp, conn, pkts, 0, {})])
  }

  function DoFlushSent(r: Relay, tid: nat): Relay
    requires tid in r.flushes && r.flushes[tid].sent < |r.flushes[tid].pkts|
  {
    var f := r.flushes[tid];
    SendOut(r, f.conn, f.pkts[f.sent]).(flushes := r.flushes[tid := f.(sent := f.sent + 1)])
  }

  function DoFlushFailed(r: Relay, tid: nat): Relay
    requires tid in r.flushes && r.flushes[tid].sent < |r.flushes[tid].pkts|
  {
    var f := r.flushes[tid];
    r.(boxes := Requeue(r.boxes, f.fp, f.pkts[f.sent..], r.now), flushes := r.flushes - {tid})
  }

  /** The final delete, whatever the mailbox holds by then. */
  function DoFlushDone(r: Relay, tid: nat): Relay
    requires tid in r.flushes
  {
    var f := r.flushes[tid];
    r.(boxes := r.boxes - {f.fp}, flushes := r.flushes - {tid}, dropped := r.dropped + ThrownAway(r, f))
  }

  function DoSweep(r: Relay): Relay
  {
    r.(boxes := Evict(r.boxes, r.now), evicted := r.evicted + ItemsOf(r.boxes, ExpiredBoxes(r)))
  }

  function DoRelay(r: Relay, s: RelayStep): Relay
    requires RelayEnabled(r, s)
  {
    match s
    case Register(fp, conn) => DoRegister(r, fp, conn)
    case Tick(now) => r.(now := now)
    case RouteIn(tid, raw) => DoRouteIn(r, tid, raw)
    case RouteSent(tid) => DoRouteSent(r, tid)
    case RouteFailed(tid) => DoRouteFailed(r, tid)
    case FlushStart(tid, fp, conn) => DoFlushStart(r, tid, fp, conn)
    case FlushSent(tid) => DoFlushSent(r, tid)
    case FlushFailed(tid) => DoFlushFailed(r, tid)
    case FlushDone(tid) => DoFlushDone(r, tid)
    case Sweep => DoSweep(r)
  }

  /** What flush `f` put out of its hands: nothing enqueued since its snapshot is still unsent. */
  predicate Clean(r: Relay, f: Flush)
  {
    forall x :: x in f.late ==> WasSent(r, x)
  }

  /** The creation time that the mailbox of a failed flush has afterwards. */
  function Stamp(r: Relay, fp: Bytes): int
  {
    if fp in r.boxes then r.boxes[fp].createdAt else r.now
  }

  /** The entry that a failed flush for `fp` goes into falls to the next sweep. */
  predicate StampExpired(r: Relay, fp: Bytes)
  {
    Stamp(r, fp) < r.now - MAILBOX_TTL
  }

  /** No packet that flush `f` puts back is older than the entry it goes into. */
  predicate NoneOlder(r: Relay, f: Flush)
    requires f.sent <= |f.pkts|
  {
    forall x :: x in f.pkts[f.sent..] && x.id in r.since ==> Stamp(r, f.fp) <= r.since[x.id]
  }

  /** Whatever the mailbox of `fp` still holds has been sent. */
  predicate NothingUnsent(r: Relay, fp: Bytes)
  {
    forall x :: x in Pending(r.boxes, fp) ==> x in Log(r.sentTo, fp)
  }

  /** For `fp`, direct sends overtake nothing, final deletes are clean, and the mailbox does not expire. */
  predicate OrderlyStep(r: Relay, s: RelayStep, fp: Bytes)
    requires RelayEnabled(r, s)
  {
    && (s.RouteSent? && r.flights[s.tid].item.fp == fp ==> NothingUnsent(r, fp))
    && (s.FlushDone? && r.flushes[s.tid].fp == fp ==> Clean(r, r.flushes[s.tid]))
    && (s.Sweep? ==> fp !in ExpiredBoxes(r))
  }

  /** Side conditions under which the relay's promises are made. */
  datatype Mode =
    | Anything
    | CleanDeletes          // what was enqueued between a flush's snapshot and its final delete has been sent
    | DatedRequeues         // no failed flush puts a packet into a younger entry that has not expired
    | Orderly(fp: Bytes)    // as OrderlyStep
    | OneFlush(fp: Bytes)   // as OrderlyStep, and flushes for `fp` do not overlap

  predicate Allowed(r: Relay, s: RelayStep, mode: Mode)
    requires RelayEnabled(r, s)
  {
    match mode
    case Anything => true
    case CleanDeletes => s.FlushDone? ==> Clean(r, r.flushes[s.tid])
    case DatedRequeues =>
      s.FlushFailed? ==> NoneOlder(r, r.flushes[s.tid]) || StampExpired(r, r.flushes[s.tid].fp)
    case Orderly(fp) => OrderlyStep(r, s, fp)
    case OneFlush(fp) =>
      OrderlyStep(r, s, fp) && (s.FlushStart? && s.fp == fp ==> forall t :: t in r.flushes ==> r.flushes[t].fp != fp)
  }

  predicate RelayAdmissible(r: Relay, run: seq<RelayStep>, mode: Mode)
    decreases |run|, 0
  {
    run == [] ||
    (RelayAdmissible(r, run[..|run| - 1], mode) &&
     var before := RelayRun(r, run[..|run| - 1], mode);
     RelayEnabled(before, run[|run| - 1]) && Allowed(before, run[|run| - 1], mode))
  }

  function RelayRun(r: Relay, run: seq<RelayStep>, mode: Mode): Relay
    requires RelayAdmissible(r, run, mode)
    decreases |run|, 1
  {
    if run == [] then r else DoRelay(RelayRun(r, run[..|run| - 1], mode), run[|run| - 1])
  }

  /** One more step. */
  lemma RunSnoc(r: Relay, run: seq<RelayStep>, mode: Mode, s: RelayStep)
    requires RelayAdmissible(r, run, mode)
    requires RelayEnabled(RelayRun(r, run, mode), s) && Allowed(RelayRun(r, run, mode), s, mode)
    ensures RelayAdmissible(r, run + [s], mode)
    ensures RelayRun(r, run + [s], mode) == DoRelay(RelayRun(r, run, mode), s)
  {
    hide DoRelay, RelayEnabled, Allowed;
    assert (run + [s])[..|run + [s]| - 1] == run;
  }

  // ---------------------------------------------------------------- isolation

  /** `x` is a routed packet, unmodified, and addressed to `fp`. */
  predicate Belongs(routed: seq<Item>, x: Item, fp: Bytes)
  {
    && x.id < |routed| && routed[x.id] == x
    && Routable(x.raw) && x.fp == Recipient(x.raw) == fp
  }

  ghost predicate AllBelong(routed: seq<Item>, xs: seq<Item>, fp: Bytes)
  {
    forall x :: x in xs ==> Belongs(routed, x, fp)
  }

  ghost predicate BoxesIsolated(r: Relay)
  {
    forall fp :: fp in r.boxes ==> AllBelong(r.routed, r.boxes[fp].packets, fp)
  }

  ghost predicate FlightsIsolated(r: Relay)
  {
    forall t :: t in r.flights ==>
      && Belongs(r.routed, r.flights[t].item, r.flights[t].item.fp)
      && (r.flights[t].item.fp, r.flights[t].conn) in r.registered
  }

  ghost predicate FlushesIsolated(r: Relay)
  {
    forall t :: t in r.flushes ==>
      AllBelong(r.routed, r.flushes[t].pkts, r.flushes[t].fp) && (r.flushes[t].fp, r.flushes[t].conn) in r.registered
  }

  ghost predicate WireIsolated(r: Relay)
  {
    forall c, x :: (c, x) in r.wire ==> Belongs(r.routed, x, x.fp) && (x.fp, c) in r.registered
  }

  ghost predicate ClientsRegistered(r: Relay)
  {
    forall fp :: fp in r.clients ==> (fp, r.clients[fp]) in r.registered
  }

  /**
   * Each packet in mailbox `fp` is addressed to `fp`, and each packet on the wire is one that was
   * routed, unmodified, on a connection that was registered under its recipient.
   */
  ghost predicate Isolated(r: Relay)
  {
    BoxesIsolated(r) && FlightsIsolated(r) && FlushesIsolated(r) && WireIsolated(r) && ClientsRegistered(r)
  }

  lemma RoutedGrows(r: Relay, x: Item)
    requires Isolated(r)
    ensures Isolated(r.(routed := r.routed + [x]))
  {
    forall y: Item, fp | Belongs(r.routed, y, fp)
      ensures Belongs(r.routed + [x], y, fp)
    {}
  }

  lemma PutInIsolated(r: Relay, x: Item)
    requires Isolated(r) && Belongs(r.routed, x, x.fp)
    ensures Isolated(PutIn(r, x))
  {
    hide Belongs;
    var r' := PutIn(r, x);
    forall fp | fp in r'.boxes
      ensures AllBelong(r.routed, r'.boxes[fp].packets, fp)
    {
      assert fp in r.boxes ==> AllBelong(r.routed, r.boxes[fp].packets, fp);
    }
  }

  lemma SendOutIsolated(r: Relay, conn: ConnId, x: Item)
    requires Isolated(r) && Belongs(r.routed, x, x.fp) && (x.fp, conn) in r.registered
    ensures Isolated(SendOut(r, conn, x))
  {
    hide Belongs;
  }

  lemma FlushStartIsolated(r: Relay, tid: nat, fp: Bytes, conn: ConnId)
    requires Isolated(r) && (fp, conn) in r.registered
    ensures Isolated(DoFlushStart(r, tid, fp, conn))
  {
    hide Belongs, AllBelong;
    var pkts := Pending(r.boxes, fp);
    if pkts != [] {
      assert fp in r.boxes && AllBelong(r.routed, r.boxes[fp].packets, fp);
      var r' := DoFlushStart(r, tid, fp, conn);
      assert BoxesIsolated(r');
    }
  }

  lemma FlushFailedIsolated(r: Relay, tid: nat)
    requires Isolated(r) && RelayEnabled(r, FlushFailed(tid))
    ensures Isolated(DoFlushFailed(r, tid))
  {
    hide Belongs;
    var f := r.flushes[tid];
    var r' := DoFlushFailed(r, tid);
    assert AllBelong(r.routed, f.pkts, f.fp);
    forall fp | fp in r'.boxes
      ensures AllBelong(r.routed, r'.boxes[fp].packets, fp)
    {
      assert fp in r.boxes ==> AllBelong(r.routed, r.boxes[fp].packets, fp);
    }
  }

  lemma RemovalIsolated(r: Relay, flushes: map<nat, Flush>, boxes: Boxes<Item>, evicted: set<Item>, dropped: set<Item>)
    requires Isolated(r)
    requires forall t :: t in flushes ==> t in r.flushes && flushes[t] == r.flushes[t]
    requires forall fp :: fp in boxes ==> fp in r.boxes && boxes[fp] == r.boxes[fp]
    ensures Isolated(r.(boxes := boxes, flushes := flushes, evicted := evicted, dropped := dropped))
  {
    hide Belongs, AllBelong;
  }

  lemma FlightsChangeIsolated(r: Relay, flights: map<nat, Flight>, taken: map<Bytes, seq<Item>>)
    requires Isolated(r)
    requires forall t :: t in flights ==> t in r.flights && flights[t] == r.flights[t]
    ensures Isolated(r.(flights := flights, taken := taken))
  {
    hide Belongs, AllBelong;
  }

  lemma FlightStartsIsolated(r: Relay, tid: nat, x: Item)
    requires Isolated(r) && Belongs(r.routed, x, x.fp) && x.fp in r.clients
    ensures Isolated(r.(flights := r.flights[tid := Flight(x, r.clients[x.fp])]))
  {
    hide Belongs, AllBelong;
  }

  lemma ClientLeavesIsolated(r: Relay, fp: Bytes)
    requires Isolated(r)
    ensures Isolated(r.(clients := r.clients - {fp}))
  {
    hide Belongs, AllBelong;
  }

  lemma NewItemBelongs(r: Relay, raw: Bytes)
    requires Routable(raw)
    ensures Belongs(r.routed + [NewItem(r, raw)], NewItem(r, raw), NewItem(r, raw).fp)
  {}

  lemma RouteInIsolated(r: Relay, tid: nat, raw: Bytes)
    requires Isolated(r)
    ensures Isolated(DoRouteIn(r, tid, raw))
  {
    hide Isolated, Belongs, PutIn;
    if Routable(raw) {
      var x := NewItem(r, raw);
      var r1 := r.(routed := r.routed + [x]);
      RoutedGrows(r, x);
      NewItemBelongs(r, raw);
      if x.fp in r.clients {
        FlightStartsIsolated(r1, tid, x);
      } else {
        PutInIsolated(r1, x);
      }
    }
  }

  lemma RouteSentIsolated(r: Relay, tid: nat)
    requires Isolated(r) && tid in r.flights
    ensures Isolated(DoRouteSent(r, tid))
  {
    FlightIsIsolated(r, tid);
    hide Isolated, Belongs, SendOut, Append;
    var x, conn := r.flights[tid].item, r.flights[tid].conn;
    FlightsChangeIsolated(r, r.flights - {tid}, Append(r.taken, x));
    SendOutIsolated(r.(flights := r.flights - {tid}, taken := Append(r.taken, x)), conn, x);
  }

  lemma RouteFailedIsolated(r: Relay, tid: nat)
    requires Isolated(r) && tid in r.flights
    ensures Isolated(DoRouteFailed(r, tid))
  {
    FlightIsIsolated(r, tid);
    hide Isolated, Belongs, PutIn;
    var x := r.flights[tid].item;
    FlightsChangeIsolated(r, r.flights - {tid}, r.taken);
    ClientLeavesIsolated(r.(flights := r.flights - {tid}), x.fp);
    PutInIsolated(r.(clients := r.clients - {x.fp}, flights := r.flights - {tid}), x);
  }

  lemma FlightIsIsolated(r: Relay, tid: nat)
    requires Isolated(r) && tid in r.flights
    ensures Belongs(r.routed, r.flights[tid].item, r.flights[tid].item.fp)
    ensures (r.flights[tid].item.fp, r.flights[tid].conn) in r.registered
  {
    hide Belongs, AllBelong;
  }

  lemma FlushSentIsolated(r: Relay, tid: nat)
    requires Isolated(r) && RelayEnabled(r, FlushSent(tid))
    ensures Isolated(DoFlushSent(r, tid))
  {
    hide Belongs;
    var f := r.flushes[tid];
    assert AllBelong(r.routed, f.pkts, f.fp) && f.pkts[f.sent] in f.pkts;
    assert Belongs(r.routed, f.pkts[f.sent], f.fp);
    BelongsToItsOwn(r.routed, f.pkts[f.sent], f.fp);
    SendOutIsolated(r, f.conn, f.pkts[f.sent]);
    hide AllBelong, BoxesIsolated, WireIsolated;
  }

  lemma BelongsToItsOwn(routed: seq<Item>, x: Item, fp: Bytes)
    requires Belongs(routed, x, fp)
    ensures x.fp == fp
  {}

  lemma StepIsolated(r: Relay, s: RelayStep)
    requires Isolated(r) && RelayEnabled(r, s)
    ensures Isolated(DoRelay(r, s))
  {
    hide Belongs, AllBelong, BoxesIsolated, FlushesIsolated, WireIsolated, FlightsIsolated, DoRouteIn, DoRouteSent,
         DoRouteFailed, DoFlushStart, DoFlushSent, DoFlushFailed, ItemsOf, ExpiredBoxes, ThrownAway;
    match s
    case Register(_, _) => RegisterIsolated(r, s.fp, s.conn);
    case Tick(now) => TickIsolated(r, now);
    case RouteIn(tid, raw) => RouteInIsolated(r, tid, raw);
    case RouteSent(tid) => RouteSentIsolated(r, tid);
    case RouteFailed(tid) => RouteFailedIsolated(r, tid);
    case FlushStart(tid, fp, conn) => FlushStartIsolated(r, tid, fp, conn);
    case FlushSent(tid) => FlushSentIsolated(r, tid);
    case FlushFailed(tid) => FlushFailedIsolated(r, tid);
    case FlushDone(tid) =>
      var f := r.flushes[tid];
      RemovalIsolated(r, r.flushes - {tid}, r.boxes - {f.fp}, r.evicted, r.dropped + ThrownAway(r, f));
    case Sweep =>
      RemovalIsolated(r, r.flushes, Evict(r.boxes, r.now), r.evicted + ItemsOf(r.boxes, ExpiredBoxes(r)), r.dropped);
  }

  lemma RegisterIsolated(r: Relay, fp: Bytes, conn: ConnId)
    requires Isolated(r)
    ensures Isolated(DoRegister(r, fp, conn))
  {
    hide Belongs, AllBelong;
  }

  lemma TickIsolated(r: Relay, now: int)
    requires Isolated(r)
    ensures Isolated(r.(now := now))
  {
    hide Belongs, AllBelong;
  }

  /** Isolation in every reachable state, without side conditions. */
  lemma {:induction false} EveryRunIsIsolated(now: int, run: seq<RelayStep>, mode: Mode)
    requires RelayAdmissible(EmptyRelay(now), run, mode)
    ensures Isolated(RelayRun(EmptyRelay(now), run, mode))
  {
    if run != [] {
      hide Isolated, DoRelay, Allowed, RelayEnabled;
      EveryRunIsIsolated(now, run[..|run| - 1], mode);
      StepIsolated(RelayRun(EmptyRelay(now), run[..|run| - 1], mode), run[|run| - 1]);
    }
  }

  // ---------------------------------------------------------------- what a call leaves alone

  /** The same for everyone but `fp`. */
  ghost predicate SameButFor(m: Maps, m': Maps, fp: Bytes)
  {
    && (forall other :: other != fp ==> (other in m'.mailboxes <==> other in m.mailboxes))
    && (forall other :: other != fp && other in m.mailboxes ==> m'.mailboxes[other] == m.mailboxes[other])
    && (forall other :: other != fp ==> (other in m'.clients <==> other in m.clients))
    && (forall other :: other != fp && other in m.clients ==> m'.clients[other] == m.clients[other])
  }

  /**
   * RoutePacket: a malformed packet changes nothing; any other concerns its recipient alone, and goes
   * either out or, once, to the end of the mailbox; a failed send takes the recipient off the list.
   */
  lemma RoutingExactly(before: Maps, raw: Bytes, sendOk: bool, now: int, others: Maps)
    ensures
      var fp := Recipient(raw);
      var (m, sent) := Routing(before, raw, sendOk, now, others);
      if !Routable(raw) then m == before && sent == []
      else
        var base := if fp in before.clients then others else before;
        && SameButFor(base, m, fp)
        && (sent == [] <==> fp !in before.clients || !sendOk)
        && (sent != [] ==> sent == [(before.clients[fp], raw)] && m == base)
        && (sent == [] ==> Pending(m.mailboxes, fp) == Pending(base.mailboxes, fp) + [raw] && fp !in m.clients)
  {}

  /**
   * DeliverMailbox concerns the one mailbox and no registration: the packets sent and those still in
   * the mailbox are together those of the snapshot and those it holds by then, less what a final
   * delete takes.
   */
  lemma DeliveryExactly(before: Maps, fp: Bytes, conn: ConnId, failAt: nat, now: int, others: Maps)
    ensures
      var pkts := Pending(before.mailboxes, fp);
      var (m, r, sent) := Delivery(before, fp, conn, failAt, now, others);
      if pkts == [] then m == before && r == Ok(()) && sent == []
      else
        && SameButFor(others, m, fp) && m.clients == others.clients
        && (forall i :: 0 <= i < |sent| ==> i < |pkts| && sent[i] == (conn, pkts[i]))
        && (failAt < |pkts| ==>
              && r == Err(DeliveryFailed(failAt)) && |sent| == failAt
              && Pending(m.mailboxes, fp) == pkts[failAt..] + Pending(others.mailboxes, fp))
        && (failAt >= |pkts| ==> r == Ok(()) && |sent| == |pkts| && fp !in m.mailboxes)
  {}

  // ---------------------------------------------------------------- the steps and the class

  function RawOf(xs: seq<Item>): (r: seq<Bytes>)
    ensures |r| == |xs|
  {
    seq(|xs|, i requires 0 <= i < |xs| => xs[i].raw)
  }

  /** The mailboxes as class Server holds them, without tags. */
  function Untagged(boxes: Boxes<Item>): Boxes<Bytes>
  {
    map fp | fp in boxes :: Entry(RawOf(boxes[fp].packets), boxes[fp].createdAt)
  }

  lemma RawOfSum(xs: seq<Item>, ys: seq<Item>)
    ensures RawOf(xs + ys) == RawOf(xs) + RawOf(ys)
  {}

  lemma UntaggedAt(boxes: Boxes<Item>, fp: Bytes)
    ensures fp in Untagged(boxes) <==> fp in boxes
    ensures fp in boxes ==> Untagged(boxes)[fp] == Entry(RawOf(boxes[fp].packets), boxes[fp].createdAt)
  {}

  lemma UntaggedUpdate(boxes: Boxes<Item>, fp: Bytes, e: Entry<Item>)
    ensures Untagged(boxes[fp := e]) == Untagged(boxes)[fp := Entry(RawOf(e.packets), e.createdAt)]
  {
    hide RawOf;
  }

  /** The mailbox operations of the steps are those of class Server. */
  lemma SameOperations(boxes: Boxes<Item>, fp: Bytes, x: Item, unsent: seq<Item>, now: int)
    ensures Untagged(Enqueue(boxes, fp, x, now)) == Enqueue(Untagged(boxes), fp, x.raw, now)
    ensures Untagged(Requeue(boxes, fp, unsent, now)) == Requeue(Untagged(boxes), fp, RawOf(unsent), now)
    ensures RawOf(Pending(boxes, fp)) == Pending(Untagged(boxes), fp)
  {
    assert RawOf([x]) == [x.raw];
    assert RawOf([]) == [];
    UntaggedAt(boxes, fp);
    if fp in boxes {
      RawOfSum(boxes[fp].packets, [x]);
      RawOfSum(unsent, boxes[fp].packets);
      UntaggedUpdate(boxes, fp, boxes[fp].(packets := boxes[fp].packets + [x]));
      UntaggedUpdate(boxes, fp, boxes[fp].(packets := unsent + boxes[fp].packets));
    } else {
      UntaggedUpdate(boxes, fp, Entry([x], now));
      UntaggedUpdate(boxes, fp, Entry(unsent, now));
    }
    hide RawOf, Untagged;
  }

  lemma UntaggedRemoval(boxes: Boxes<Item>, fp: Bytes)
    ensures Untagged(boxes - {fp}) == Untagged(boxes) - {fp}
  {
    hide RawOf;
  }

  /** The state as class Server holds it. */
  function View(r: Relay): Maps
  {
    Maps(Untagged(r.boxes), r.clients)
  }

  lemma ViewOfPutIn(r: Relay, x: Item)
    ensures View(PutIn(r, x)) == View(r).(mailboxes := Enqueue(View(r).mailboxes, x.fp, x.raw, r.now))
  {
    SameOperations(r.boxes, x.fp, x, [], r.now);
    hide Untagged, Append, MarkLate, Enqueue, Requeue, RawOf;
  }

  /**
   * A call of RoutePacket is its steps. This is a call that sends nothing itself; the next lemma is
   * about one that does.
   */
  lemma RouteCallIsItsStep(r: Relay, tid: nat, raw: Bytes, sendOk: bool, others: Maps)
    requires !Routable(raw) || Recipient(raw) !in r.clients
    ensures Routing(View(r), raw, sendOk, r.now, others) == (View(DoRouteIn(r, tid, raw)), [])
  {
    ViewOfPutIn(r.(routed := r.routed + [NewItem(r, raw)]), NewItem(r, raw));
    hide Untagged, PutIn, Enqueue, Routable, Recipient;
  }

  /** `r2` is the state in which its direct send ends, whatever other calls did meanwhile. */
  lemma RouteCallIsItsSteps(r: Relay, tid: nat, raw: Bytes, r2: Relay)
    requires Routable(raw) && Recipient(raw) in r.clients
    requires tid in r2.flights && r2.flights[tid] == Flight(NewItem(r, raw), r.clients[Recipient(raw)])
    ensures tid in DoRouteIn(r, tid, raw).flights && r2.flights[tid] == DoRouteIn(r, tid, raw).flights[tid]
    ensures Routing(View(r), raw, true, r2.now, View(r2)) ==
            (View(DoRouteSent(r2, tid)), [(r2.flights[tid].conn, raw)])
    ensures Routing(View(r), raw, false, r2.now, View(r2)) == (View(DoRouteFailed(r2, tid)), [])
  {
    var x := NewItem(r, raw);
    ViewOfPutIn(r2.(clients := r2.clients - {x.fp}, flights := r2.flights - {tid}), x);
    hide Untagged, PutIn, Enqueue, Routable, Recipient, Append;
  }

  /**
   * A call of DeliverMailbox is its steps. This is a call that finds no mail; the next lemma is about
   * one that does.
   */
  lemma DeliverCallIsItsStep(r: Relay, tid: nat, fp: Bytes, conn: ConnId, failAt: nat, now: int, others: Maps)
    requires Pending(r.boxes, fp) == []
    ensures Delivery(View(r), fp, conn, failAt, now, others) == (View(DoFlushStart(r, tid, fp, conn)), Ok(()), [])
  {
    SameOperations(r.boxes, fp, Item(0, fp, []), [], r.now);
    hide Untagged, Pending, Requeue, Enqueue;
  }

  /** `r2` is the state in which it ends: at the first send that fails, or after the last one. */
  lemma DeliverCallIsItsSteps(r: Relay, tid: nat, fp: Bytes, conn: ConnId, failAt: nat, r2: Relay)
    requires Pending(r.boxes, fp) != [] && tid in r2.flushes
    requires r2.flushes[tid].pkts == Pending(r.boxes, fp) && r2.flushes[tid].fp == fp
    ensures tid in DoFlushStart(r, tid, fp, conn).flushes
    ensures DoFlushStart(r, tid, fp, conn).flushes[tid].pkts == r2.flushes[tid].pkts
    ensures r2.flushes[tid].sent == failAt < |r2.flushes[tid].pkts| ==>
              Delivery(View(r), fp, conn, failAt, r2.now, View(r2)) ==
              (View(DoFlushFailed(r2, tid)), Err(DeliveryFailed(failAt)),
               OnWire(conn, RawOf(r2.flushes[tid].pkts[..failAt])))
    ensures r2.flushes[tid].sent == |r2.flushes[tid].pkts| <= failAt ==>
              Delivery(View(r), fp, conn, failAt, r2.now, View(r2)) ==
              (View(DoFlushDone(r2, tid)), Ok(()), OnWire(conn, RawOf(r2.flushes[tid].pkts)))
  {
    var f := r2.flushes[tid];
    SameOperations(r.boxes, fp, Item(0, fp, []), [], r.now);
    var pkts := RawOf(f.pkts);
    assert Pending(View(r).mailboxes, fp) == pkts && |pkts| == |f.pkts| > 0;
    if f.sent == failAt < |f.pkts| {
      ViewOfFlushFailed(r2, tid);
      RawOfSlices(f.pkts, failAt);
    }
    if f.sent == |f.pkts| <= failAt {
      ViewOfFlushDone(r2, tid);
    }
    hide View, RawOf, OnWire, Requeue, DoFlushFailed, DoFlushDone, Pending, Untagged;
  }

  lemma ViewOfFlushFailed(r: Relay, tid: nat)
    requires tid in r.flushes && r.flushes[tid].sent < |r.flushes[tid].pkts|
    ensures
      var f := r.flushes[tid];
      View(DoFlushFailed(r, tid)) ==
      View(r).(mailboxes := Requeue(View(r).mailboxes, f.fp, RawOf(f.pkts[f.sent..]), r.now))
  {
    var f := r.flushes[tid];
    SameOperations(r.boxes, f.fp, Item(0, f.fp, []), f.pkts[f.sent..], r.now);
    hide Untagged, Requeue, RawOf;
  }

  lemma ViewOfFlushDone(r: Relay, tid: nat)
    requires tid in r.flushes
    ensures View(DoFlushDone(r, tid)) == View(r).(mailboxes := View(r).mailboxes - {r.flushes[tid].fp})
  {
    UntaggedRemoval(r.boxes, r.flushes[tid].fp);
    hide Untagged, ThrownAway;
  }

  lemma RawOfSlices(xs: seq<Item>, n: nat)
    requires n <= |xs|
    ensures RawOf(xs)[n..] == RawOf(xs[n..]) && RawOf(xs)[..n] == RawOf(xs[..n])
  {}

  /** So are registration and the sweep; a send within a flush changes nothing the server holds. */
  lemma OtherCallsAreTheirSteps(r: Relay, fp: Bytes, conn: ConnId, tid: nat)
    ensures View(DoRegister(r, fp, conn)) == View(r).(clients := View(r).clients[fp := conn])
    ensures View(DoSweep(r)) == View(r).(mailboxes := Evict(View(r).mailboxes, r.now))
    ensures tid in r.flushes && r.flushes[tid].sent < |r.flushes[tid].pkts| ==> View(DoFlushSent(r, tid)) == View(r)
  {
    hide RawOf, Append, ItemsOf, ExpiredBoxes;
  }
}
