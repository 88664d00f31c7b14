/** Conservation of packets in the relay: nothing disappears but by a delete that was not clean. */
module RelayLoss {
  import opened Common
  import opened Relays
  import opened RelayRuns

  predicate InFlight(r: Relay, x: Item)
  {
    exists t :: t in r.flights && r.flights[t].item == x
  }

  /** Sent, pending in its mailbox, evicted by the TTL, or held by a route call in progress. */
  predicate Accounted(r: Relay, x: Item)
  {
    WasSent(r, x) || x in Pending(r.boxes, x.fp) || x in r.evicted || InFlight(r, x)
  }

  /** `x` left the mailboxes for good or was thrown away. */
  predicate Settled(r: Relay, x: Item)
  {
    WasSent(r, x) || x in r.evicted || x in r.dropped
  }

  /** Every routed packet is accounted for or was thrown away. */
  ghost predicate AllCovered(r: Relay)
  {
    forall x :: x in r.routed ==> Accounted(r, x) || x in r.dropped
  }

  /** Packets sit in the mailbox and in the flushes of their recipient. */
  ghost predicate OwnMailbox(r: Relay)
  {
    && (forall fp, x :: fp in r.boxes && x in r.boxes[fp].packets ==> x.fp == fp)
    && (forall t, x :: t in r.flushes && x in r.flushes[t].pkts ==> x.fp == r.flushes[t].fp)
  }

  /** How far flush `f` accounts for its mailbox, its mailbox for `f`, and the wire for both. */
  ghost predicate FlushCovers(r: Relay, f: Flush)
  {
    && f.sent <= |f.pkts|
    && (forall i :: 0 <= i < f.sent ==> WasSent(r, f.pkts[i]))
    && (forall x :: x in f.pkts ==> x in Pending(r.boxes, f.fp) || Settled(r, x))
    && (forall x :: x in Pending(r.boxes, f.fp) ==> x in f.pkts || x in f.late || Settled(r, x))
  }

  ghost predicate FlushesCover(r: Relay)
  {
    forall t :: t in r.flushes ==> FlushCovers(r, r.flushes[t])
  }

  ghost predicate Conserved(r: Relay)
  {
    AllCovered(r) && OwnMailbox(r) && FlushesCover(r)
  }

  /** Every routed packet other than `x` is covered. */
  ghost predicate CoveredBut(r: Relay, x: Item)
  {
    forall y :: y in r.routed && y != x ==> Accounted(r, y) || y in r.dropped
  }

  // ---------------------------------------------------------------- elementary changes

  lemma PendingAfterPutIn(r: Relay, x: Item, fp: Bytes)
    ensures Pending(PutIn(r, x).boxes, fp) == Pending(r.boxes, fp) + (if fp == x.fp then [x] else [])
  {}

  lemma PutInAccounts(r: Relay, x: Item, y: Item)
    requires y == x || Accounted(r, y) || y in r.dropped
    ensures Accounted(PutIn(r, x), y) || y in PutIn(r, x).dropped
  {
    PendingAfterPutIn(r, x, y.fp);
    hide Append, Enqueue, MarkLate, Pending, Log;
    if InFlight(r, y) {
      assert InFlight(PutIn(r, x), y);
    }
  }

  lemma PutInCovers(r: Relay, x: Item, f: Flush)
    requires FlushCovers(r, f)
    ensures FlushCovers(PutIn(r, x), if f.fp == x.fp then f.(late := f.late + {x}) else f)
  {
    PendingAfterPutIn(r, x, f.fp);
    hide Append, Enqueue, MarkLate, Pending, Log;
  }

  lemma PutInConserves(r: Relay, x: Item)
    requires CoveredBut(r, x) && OwnMailbox(r) && FlushesCover(r)
    ensures Conserved(PutIn(r, x))
  {
    hide Append, Enqueue, Accounted, FlushCovers;
    var r' := PutIn(r, x);
    forall y | y in r'.routed
      ensures Accounted(r', y) || y in r'.dropped
    {
      PutInAccounts(r, x, y);
    }
    forall t | t in r'.flushes
      ensures FlushCovers(r', r'.flushes[t])
    {
      PutInCovers(r, x, r.flushes[t]);
    }
    PutInOwn(r, x);
    hide OwnMailbox;
  }

  lemma PutInOwn(r: Relay, x: Item)
    requires OwnMailbox(r)
    ensures OwnMailbox(PutIn(r, x))
  {}

  lemma SentAfterSendOut(r: Relay, conn: ConnId, x: Item, y: Item)
    ensures WasSent(SendOut(r, conn, x), y) <==> WasSent(r, y) || y == x
  {}

  /** A successful send only adds to what was sent. */
  lemma SendOutConserves(r: Relay, conn: ConnId, x: Item)
    requires OwnMailbox(r) && FlushesCover(r)
    ensures OwnMailbox(SendOut(r, conn, x)) && FlushesCover(SendOut(r, conn, x))
    ensures AllCovered(r) ==> AllCovered(SendOut(r, conn, x))
  {
    var r' := SendOut(r, conn, x);
    forall y
      ensures WasSent(r', y) <==> WasSent(r, y) || y == x
    {
      SentAfterSendOut(r, conn, x, y);
    }
    hide WasSent, Append, Log;
    forall t | t in r'.flushes
      ensures FlushCovers(r', r'.flushes[t])
    {
      assert FlushCovers(r, r.flushes[t]);
    }
    if AllCovered(r) {
      forall y | y in r'.routed
        ensures Accounted(r', y) || y in r'.dropped
      {
        assert Accounted(r, y) || y in r.dropped;
      }
    }
  }

  // ---------------------------------------------------------------- the steps

  lemma RouteInConserves(r: Relay, tid: nat, raw: Bytes)
    requires Conserved(r) && tid !in r.flights
    ensures Conserved(DoRouteIn(r, tid, raw))
  {
    if Routable(raw) {
      var x := NewItem(r, raw);
      var r1 := r.(routed := r.routed + [x]);
      assert CoveredBut(r1, x) by {
        forall y | y in r1.routed && y != x
          ensures Accounted(r1, y) || y in r1.dropped
        {
          assert y in r.routed;
          assert Accounted(r, y) || y in r.dropped;
        }
      }
      assert FlushesCover(r1) by {
        forall t | t in r.flushes
          ensures FlushCovers(r1, r.flushes[t])
        {
          assert FlushCovers(r, r.flushes[t]);
        }
      }
      hide CoveredBut, FlushCovers, NewItem, Routable, FlushesCover, PutIn;
      if x.fp in r.clients {
        FlightConserves(r1, tid, x);
      } else {
        PutInConserves(r1, x);
      }
    }
  }

  lemma FlightConserves(r: Relay, tid: nat, x: Item)
    requires CoveredBut(r, x) && OwnMailbox(r) && FlushesCover(r) && tid !in r.flights && x.fp in r.clients
    ensures Conserved(r.(flights := r.flights[tid := Flight(x, r.clients[x.fp])]))
  {
    var r' := r.(flights := r.flights[tid := Flight(x, r.clients[x.fp])]);
    assert tid in r'.flights && r'.flights[tid].item == x;
    forall y | y in r.routed
      ensures Accounted(r', y) || y in r'.dropped
    {
      if y != x {
        assert Accounted(r, y) || y in r.dropped;
        if InFlight(r, y) {
          var t :| t in r.flights && r.flights[t].item == y;
          assert t in r'.flights && r'.flights[t].item == y;
        }
      }
    }
    forall t | t in r.flushes
      ensures FlushCovers(r', r'.flushes[t])
    {
      assert FlushCovers(r, r.flushes[t]);
    }
  }

  /** Taking a flight out of the air uncovers nothing but its own item. */
  lemma FlightEnds(r: Relay, tid: nat)
    requires Conserved(r) && tid in r.flights
    ensures
      var r' := r.(flights := r.flights - {tid});
      CoveredBut(r', r.flights[tid].item) && OwnMailbox(r') && FlushesCover(r')
  {
    var r' := r.(flights := r.flights - {tid});
    forall y | y in r.routed && y != r.flights[tid].item
      ensures Accounted(r', y) || y in r'.dropped
    {
      assert Accounted(r, y) || y in r.dropped;
      if InFlight(r, y) {
        var t :| t in r.flights && r.flights[t].item == y;
        assert t in r'.flights && r'.flights[t].item == y;
      }
    }
    forall t | t in r.flushes
      ensures FlushCovers(r', r'.flushes[t])
    {
      assert FlushCovers(r, r.flushes[t]);
    }
  }

  lemma RouteSentConserves(r: Relay, tid: nat)
    requires Conserved(r) && tid in r.flights
    ensures Conserved(DoRouteSent(r, tid))
  {
    var x, conn := r.flights[tid].item, r.flights[tid].conn;
    FlightEnds(r, tid);
    var r1 := r.(flights := r.flights - {tid});
    var r' := SendOut(r1, conn, x);
    SendOutConserves(r1, conn, x);
    forall y | y in r'.routed
      ensures Accounted(r', y) || y in r'.dropped
    {
      SentAfterSendOut(r1, conn, x, y);
      assert y != x ==> Accounted(r1, y) || y in r1.dropped;
    }
    hide FlushCovers, WasSent, OwnMailbox, FlushesCover;
  }

  lemma RouteFailedConserves(r: Relay, tid: nat)
    requires Conserved(r) && tid in r.flights
    ensures Conserved(DoRouteFailed(r, tid))
  {
    hide Accounted, WasSent, PutIn, CoveredBut, OwnMailbox, FlushesCover;
    var x := r.flights[tid].item;
    FlightEnds(r, tid);
    var r1 := r.(flights := r.flights - {tid});
    ClientsDoNotMatter(r1, x, r.clients - {x.fp});
    PutInConserves(r1.(clients := r.clients - {x.fp}), x);
  }

  lemma ClientsDoNotMatter(r: Relay, x: Item, clients: map<Bytes, ConnId>)
    requires CoveredBut(r, x) && OwnMailbox(r) && FlushesCover(r)
    ensures
      var r' := r.(clients := clients);
      CoveredBut(r', x) && OwnMailbox(r') && FlushesCover(r')
  {
    var r' := r.(clients := clients);
    forall y | y in r.routed && y != x
      ensures Accounted(r', y) || y in r'.dropped
    {
      assert Accounted(r, y) || y in r.dropped;
    }
    forall t | t in r.flushes
      ensures FlushCovers(r', r'.flushes[t])
    {
      assert FlushCovers(r, r.flushes[t]);
    }
  }

  /** Registration, the clock and the flush counters play no part in the coverage of packets. */
  lemma CoverageKept(r: Relay, r': Relay)
    requires AllCovered(r)
    requires r'.routed == r.routed && r'.boxes == r.boxes && r'.flights == r.flights
    requires r'.sentTo == r.sentTo && r'.evicted == r.evicted && r'.dropped == r.dropped
    ensures AllCovered(r')
  {
    forall y | y in r.routed
      ensures Accounted(r', y) || y in r'.dropped
    {
      assert Accounted(r, y) || y in r.dropped;
    }
  }

  lemma FlushCoverKept(r: Relay, r': Relay, f: Flush)
    requires FlushCovers(r, f)
    requires r'.boxes == r.boxes && r'.sentTo == r.sentTo && r'.evicted == r.evicted && r'.dropped == r.dropped
    ensures FlushCovers(r', f)
  {}

  lemma IdleConserves(r: Relay, s: RelayStep)
    requires Conserved(r) && RelayEnabled(r, s) && (s.Register? || s.Tick?)
    ensures Conserved(DoRelay(r, s))
  {
    hide FlushCovers, AllCovered;
    var r' := DoRelay(r, s);
    CoverageKept(r, r');
    forall t | t in r'.flushes
      ensures FlushCovers(r', r'.flushes[t])
    {
      FlushCoverKept(r, r', r.flushes[t]);
    }
  }

  lemma FlushStartConserves(r: Relay, tid: nat, fp: Bytes, conn: ConnId)
    requires Conserved(r)
    ensures Conserved(DoFlushStart(r, tid, fp, conn))
  {
    var pkts := Pending(r.boxes, fp);
    if pkts != [] {
      var r' := DoFlushStart(r, tid, fp, conn);
      var f := Flush(fp, conn, pkts, 0, {});
      assert FlushCovers(r', f);
      hide FlushCovers, AllCovered;
      CoverageKept(r, r');
      forall t | t in r'.flushes
        ensures FlushCovers(r', r'.flushes[t])
      {
        if t != tid {
          FlushCoverKept(r, r', r.flushes[t]);
        }
      }
    }
  }

  lemma FlushSentConserves(r: Relay, tid: nat)
    requires Conserved(r) && tid in r.flushes && r.flushes[tid].sent < |r.flushes[tid].pkts|
    ensures Conserved(DoFlushSent(r, tid))
  {
    var f := r.flushes[tid];
    var x := f.pkts[f.sent];
    var r1 := SendOut(r, f.conn, x);
    var r' := DoFlushSent(r, tid);
    SendOutConserves(r, f.conn, x);
    SentAfterSendOut(r, f.conn, x, x);
    var f' := f.(sent := f.sent + 1);
    assert FlushCovers(r', f') by {
      assert FlushCovers(r1, f);
      FlushCoverKept(r1, r', f);
    }
    hide FlushCovers, AllCovered, SendOut;
    CoverageKept(r1, r');
    forall t | t in r'.flushes
      ensures FlushCovers(r', r'.flushes[t])
    {
      if t != tid {
        FlushCoverKept(r1, r', r1.flushes[t]);
      }
    }
  }

  lemma PendingAfterRequeue(boxes: Boxes<Item>, fp: Bytes, unsent: seq<Item>, now: int, other: Bytes)
    ensures Pending(Requeue(boxes, fp, unsent, now), other)
            == (if other == fp then unsent else []) + Pending(boxes, other)
  {}

  lemma FlushFailedConserves(r: Relay, tid: nat)
    requires Conserved(r) && tid in r.flushes && r.flushes[tid].sent < |r.flushes[tid].pkts|
    ensures Conserved(DoFlushFailed(r, tid))
  {
    var f := r.flushes[tid];
    var unsent := f.pkts[f.sent..];
    var r' := DoFlushFailed(r, tid);
    assert OwnMailbox(r');
    forall fp
      ensures Pending(r'.boxes, fp) == (if fp == f.fp then unsent else []) + Pending(r.boxes, fp)
    {
      PendingAfterRequeue(r.boxes, f.fp, unsent, r.now, fp);
    }
    hide OwnMailbox, Requeue, Pending, WasSent;
    assert FlushCovers(r, f);
    forall t | t in r'.flushes
      ensures FlushCovers(r', r'.flushes[t])
    {
      assert FlushCovers(r, r.flushes[t]);
    }
    forall y | y in r.routed
      ensures Accounted(r', y) || y in r'.dropped
    {
      assert Accounted(r, y) || y in r.dropped;
    }
  }

  /** The final delete: what was pending was sent by this flush, settled before, or is thrown away. */
  lemma FlushDoneConserves(r: Relay, tid: nat)
    requires Conserved(r) && tid in r.flushes && r.flushes[tid].sent == |r.flushes[tid].pkts|
    ensures Conserved(DoFlushDone(r, tid))
  {
    var f := r.flushes[tid];
    var r' := DoFlushDone(r, tid);
    assert OwnMailbox(r');
    forall fp
      ensures Pending(r'.boxes, fp) == if fp == f.fp then [] else Pending(r.boxes, fp)
    {}
    assert FlushCovers(r, f);
    forall x | x in Pending(r.boxes, f.fp)
      ensures Settled(r', x)
    {}
    hide Pending, WasSent, ThrownAway;
    forall t | t in r'.flushes
      ensures FlushCovers(r', r'.flushes[t])
    {
      assert FlushCovers(r, r.flushes[t]);
    }
    forall y | y in r.routed
      ensures Accounted(r', y) || y in r'.dropped
    {
      assert Accounted(r, y) || y in r.dropped;
    }
  }

  lemma SweepConserves(r: Relay)
    requires Conserved(r)
    ensures Conserved(DoSweep(r))
  {
    var r' := DoSweep(r);
    assert OwnMailbox(r');
    forall fp
      ensures Pending(r'.boxes, fp) == if fp in ExpiredBoxes(r) then [] else Pending(r.boxes, fp)
    {}
    forall fp, x | fp in ExpiredBoxes(r) && x in Pending(r.boxes, fp)
      ensures x in r'.evicted
    {
      assert fp in r.boxes && x in r.boxes[fp].packets;
    }
    hide Pending, ExpiredBoxes, ItemsOf, WasSent, Evict;
    forall t | t in r'.flushes
      ensures FlushCovers(r', r'.flushes[t])
    {
      assert FlushCovers(r, r.flushes[t]);
    }
    forall y | y in r.routed
      ensures Accounted(r', y) || y in r'.dropped
    {
      assert Accounted(r, y) || y in r.dropped;
    }
  }

  lemma StepConserves(r: Relay, s: RelayStep)
    requires Conserved(r) && RelayEnabled(r, s)
    ensures Conserved(DoRelay(r, s))
  {
    hide Conserved, DoRouteIn, DoRouteSent, DoRouteFailed, DoFlushStart, DoFlushSent, DoFlushFailed, DoFlushDone,
         DoSweep;
    match s
    case Register(_, _) => IdleConserves(r, s);
    case Tick(_) => IdleConserves(r, s);
    case RouteIn(tid, raw) => RouteInConserves(r, tid, raw);
    case RouteSent(tid) => RouteSentConserves(r, tid);
    case RouteFailed(tid) => RouteFailedConserves(r, tid);
    case FlushStart(tid, fp, conn) => FlushStartConserves(r, tid, fp, conn);
    case FlushSent(tid) => FlushSentConserves(r, tid);
    case FlushFailed(tid) => FlushFailedConserves(r, tid);
    case FlushDone(tid) => FlushDoneConserves(r, tid);
    case Sweep => SweepConserves(r);
  }

  // ---------------------------------------------------------------- theorems

  /** In every interleaving a routed packet is accounted for, or some final delete threw it away. */
  lemma {:induction false} EveryRunConserves(now: int, run: seq<RelayStep>, mode: Mode)
    requires RelayAdmissible(EmptyRelay(now), run, mode)
    ensures Conserved(RelayRun(EmptyRelay(now), run, mode))
  {
    if run != [] {
      hide Conserved, DoRelay, Allowed, RelayEnabled;
      EveryRunConserves(now, run[..|run| - 1], mode);
      StepConserves(RelayRun(EmptyRelay(now), run[..|run| - 1], mode), run[|run| - 1]);
    }
  }

  lemma CleanStepDropsNothing(r: Relay, s: RelayStep)
    requires RelayEnabled(r, s) && Allowed(r, s, CleanDeletes) && r.dropped == {}
    ensures DoRelay(r, s).dropped == {}
  {}

  lemma {:induction false} CleanRunsDropNothing(now: int, run: seq<RelayStep>)
    requires RelayAdmissible(EmptyRelay(now), run, CleanDeletes)
    ensures RelayRun(EmptyRelay(now), run, CleanDeletes).dropped == {}
  {
    if run != [] {
      hide DoRelay, Allowed, RelayEnabled;
      CleanRunsDropNothing(now, run[..|run| - 1]);
      CleanStepDropsNothing(RelayRun(EmptyRelay(now), run[..|run| - 1], CleanDeletes), run[|run| - 1]);
    }
  }

  /**
   * No loss: when nothing is enqueued for a recipient between a flush's snapshot and its final
   * delete, every routed packet is sent, pending, evicted, or held by a route call in progress.
   */
  lemma CleanRunsLoseNothing(now: int, run: seq<RelayStep>, id: nat)
    requires RelayAdmissible(EmptyRelay(now), run, CleanDeletes)
    requires id < |RelayRun(EmptyRelay(now), run, CleanDeletes).routed|
    ensures
      var r := RelayRun(EmptyRelay(now), run, CleanDeletes);
      Accounted(r, r.routed[id])
  {
    hide Accounted, OwnMailbox, FlushesCover, RelayRun;
    CleanRunsDropNothing(now, run);
    EveryRunConserves(now, run, CleanDeletes);
  }

  /**
   * Exactly what a final delete loses: of the packets in the mailbox, those enqueued since the
   * flush took its snapshot (or already thrown away once) that nobody has sent, no route call
   * holds and no sweep has evicted.
   */
  lemma FinalDeleteLoses(now: int, run: seq<RelayStep>, mode: Mode, tid: nat, x: Item)
    requires RelayAdmissible(EmptyRelay(now), run, mode)
    requires
      var r := RelayRun(EmptyRelay(now), run, mode);
      RelayEnabled(r, FlushDone(tid)) && x in Pending(r.boxes, r.flushes[tid].fp)
    ensures
      var r := RelayRun(EmptyRelay(now), run, mode);
      !Accounted(DoRelay(r, FlushDone(tid)), x) <==>
      (x in r.flushes[tid].late || x in r.dropped) && !WasSent(r, x) && x !in r.evicted && !InFlight(r, x)
  {
    EveryRunConserves(now, run, mode);
    var r := RelayRun(EmptyRelay(now), run, mode);
    hide RelayRun, AllCovered;
    var f := r.flushes[tid];
    assert FlushCovers(r, f);
    var r' := DoFlushDone(r, tid);
    assert x.fp == f.fp && Pending(r'.boxes, f.fp) == [];
    assert InFlight(r', x) == InFlight(r, x);
  }

  /** A packet waits for a recipient that registers and has its mailbox flushed. */
  function SnapshotRun(fp: Bytes, conn: ConnId, first: Bytes): seq<RelayStep>
  {
    [RouteIn(0, first)] + [Register(fp, conn)] + [FlushStart(0, fp, conn)]
  }

  /** Then a route call's direct send fails in the middle of the flush. */
  function LateRun(fp: Bytes, conn: ConnId, first: Bytes, second: Bytes): seq<RelayStep>
  {
    SnapshotRun(fp, conn, first) + [RouteIn(0, second)] + [RouteFailed(0)] + [FlushSent(0)]
  }

  /** The flush goes on to its final delete. */
  function LossyRun(fp: Bytes, conn: ConnId, first: Bytes, second: Bytes): seq<RelayStep>
  {
    LateRun(fp, conn, first, second) + [FlushDone(0)]
  }

  /** The state after the second packet was enqueued behind the flush's back. */
  ghost predicate LateState(r: Relay, fp: Bytes, conn: ConnId, x: Item, y: Item)
  {
    && r.routed == [x, y] && r.flights == map[] && r.evicted == {} && r.sentTo == map[]
    && r.flushes == map[0 := Flush(fp, conn, [x], 0, {y})]
    && fp in r.boxes && r.boxes[fp].packets == [x, y]
  }

  /** The state just before the flush's recipient gets its second packet. */
  ghost predicate SnapshotState(r: Relay, fp: Bytes, conn: ConnId, x: Item)
  {
    && r.routed == [x] && r.flights == map[] && r.evicted == {} && r.sentTo == map[]
    && r.flushes == map[0 := Flush(fp, conn, [x], 0, {})]
    && fp in r.boxes && r.boxes[fp].packets == [x] && fp in r.clients && r.clients[fp] == conn
  }

  lemma ReachSnapshot(now: int, fp: Bytes, conn: ConnId, first: Bytes)
    requires Routable(first) && Recipient(first) == fp
    ensures
      var r1 := DoRelay(EmptyRelay(now), RouteIn(0, first));
      var r2 := DoRelay(r1, Register(fp, conn));
      RelayEnabled(r2, FlushStart(0, fp, conn))
        && SnapshotState(DoRelay(r2, FlushStart(0, fp, conn)), fp, conn, Item(0, fp, first))
  {
    hide Routable, Recipient;
    var x := Item(0, fp, first);
    assert DoRelay(EmptyRelay(now), RouteIn(0, first)) == PutIn(EmptyRelay(now).(routed := [x]), x);
  }

  lemma ReachLate(r: Relay, fp: Bytes, conn: ConnId, x: Item, second: Bytes)
    requires SnapshotState(r, fp, conn, x) && Routable(second) && Recipient(second) == fp
    ensures
      var r1 := DoRelay(r, RouteIn(0, second));
      RelayEnabled(r1, RouteFailed(0)) && LateState(DoRelay(r1, RouteFailed(0)), fp, conn, x, Item(1, fp, second))
  {
    hide Routable, Recipient;
    var y := Item(1, fp, second);
    var r1 := DoRelay(r, RouteIn(0, second));
    assert r1 == r.(routed := [x, y], flights := map[0 := Flight(y, conn)]);
    var r2 := DoRelay(r1, RouteFailed(0));
    assert r1.flights - {0} == map[];
    assert r2.flushes.Keys == {0} && r2.flushes[0] == Flush(fp, conn, [x], 0, {y});
  }

  /** The state before the final delete. */
  ghost predicate DoomedState(r: Relay, fp: Bytes, conn: ConnId, x: Item, y: Item)
  {
    && r.routed == [x, y] && r.flights == map[] && r.evicted == {} && Log(r.sentTo, fp) == [x]
    && r.flushes == map[0 := Flush(fp, conn, [x], 1, {y})]
  }

  lemma ReachDoomed(r: Relay, fp: Bytes, conn: ConnId, x: Item, y: Item)
    requires LateState(r, fp, conn, x, y) && x.fp == fp
    ensures RelayEnabled(r, FlushSent(0)) && DoomedState(DoRelay(r, FlushSent(0)), fp, conn, x, y)
  {
    assert Log(r.sentTo, fp) + [x] == [x];
  }

  lemma ReachLoss(r: Relay, fp: Bytes, conn: ConnId, x: Item, y: Item)
    requires DoomedState(r, fp, conn, x, y) && x.fp == y.fp == fp && x != y
    ensures RelayEnabled(r, FlushDone(0)) && !Clean(r, r.flushes[0])
    ensures
      var r' := DoRelay(r, FlushDone(0));
      r'.routed == [x, y] && Accounted(r', x) && !Accounted(r', y)
  {
    hide Log;
    var r' := DoRelay(r, FlushDone(0));
    assert Pending(r'.boxes, fp) == [];
    assert y in r.flushes[0].late && y !in [x];
  }

  lemma ReachSnapshotRun(now: int, fp: Bytes, conn: ConnId, first: Bytes, mode: Mode)
    requires Routable(first) && Recipient(first) == fp
    requires mode == Anything || mode == Orderly(fp) || mode == OneFlush(fp)
    ensures RelayAdmissible(EmptyRelay(now), SnapshotRun(fp, conn, first), mode)
    ensures
      var r := RelayRun(EmptyRelay(now), SnapshotRun(fp, conn, first), mode);
      && SnapshotState(r, fp, conn, Item(0, fp, first)) && r.flights == map[]
      && r == DoRelay(DoRelay(DoRelay(EmptyRelay(now), RouteIn(0, first)), Register(fp, conn)), FlushStart(0, fp, conn))
  {
    hide Routable, Recipient, RelayRun, RelayAdmissible, DoRelay, SnapshotState;
    var r0 := EmptyRelay(now);
    StartsAdmissible(r0, mode);
    ReachSnapshot(now, fp, conn, first);
    RunSnoc(r0, [], mode, RouteIn(0, first));
    assert [] + [RouteIn(0, first)] == [RouteIn(0, first)];
    RunSnoc(r0, [RouteIn(0, first)], mode, Register(fp, conn));
    NoFlushYet(now, fp, conn, first);
    RunSnoc(r0, [RouteIn(0, first)] + [Register(fp, conn)], mode, FlushStart(0, fp, conn));
    SnapshotHasNoFlight(RelayRun(r0, SnapshotRun(fp, conn, first), mode), fp, conn, Item(0, fp, first));
  }

  lemma ReachLateRun(now: int, fp: Bytes, conn: ConnId, first: Bytes, second: Bytes, mode: Mode)
    requires Routable(first) && Routable(second) && Recipient(first) == Recipient(second) == fp
    requires mode == Anything || mode == Orderly(fp) || mode == OneFlush(fp)
    ensures RelayAdmissible(EmptyRelay(now), LateRun(fp, conn, first, second), mode)
    ensures
      var r := RelayRun(EmptyRelay(now), LateRun(fp, conn, first, second), mode);
      && DoomedState(r, fp, conn, Item(0, fp, first), Item(1, fp, second))
      && RelayEnabled(r, FlushDone(0)) && r.flushes[0].fp == fp && !Clean(r, r.flushes[0])
  {
    hide Routable, Recipient, RelayRun, RelayAdmissible, DoRelay, LateState, SnapshotState, DoomedState, Clean;
    hide NothingUnsent, ExpiredBoxes, SnapshotRun;
    var x, y := Item(0, fp, first), Item(1, fp, second);
    var r0 := EmptyRelay(now);
    ReachSnapshotRun(now, fp, conn, first, mode);
    var run := SnapshotRun(fp, conn, first);
    ReachLate(RelayRun(r0, run, mode), fp, conn, x, second);
    RunSnoc(r0, run, mode, RouteIn(0, second));
    run := run + [RouteIn(0, second)];
    RunSnoc(r0, run, mode, RouteFailed(0));
    run := run + [RouteFailed(0)];
    var r2 := RelayRun(r0, run, mode);
    ReachDoomed(r2, fp, conn, x, y);
    RunSnoc(r0, run, mode, FlushSent(0));
    ReachLoss(DoRelay(r2, FlushSent(0)), fp, conn, x, y);
    DoomedFlush(DoRelay(r2, FlushSent(0)), fp, conn, x, y);
  }

  lemma NoFlushYet(now: int, fp: Bytes, conn: ConnId, first: Bytes)
    ensures DoRelay(DoRelay(EmptyRelay(now), RouteIn(0, first)), Register(fp, conn)).flushes == map[]
  {
    hide Routable, Recipient;
  }

  lemma DoomedFlush(r: Relay, fp: Bytes, conn: ConnId, x: Item, y: Item)
    requires DoomedState(r, fp, conn, x, y)
    ensures 0 in r.flushes && r.flushes[0].fp == fp
  {}

  /** Without the side condition the promise fails: the second packet of this run is gone. */
  lemma DirtyDeleteLoses(now: int, fp: Bytes, conn: ConnId, first: Bytes, second: Bytes)
    requires Routable(first) && Routable(second) && Recipient(first) == Recipient(second) == fp
    ensures RelayAdmissible(EmptyRelay(now), LossyRun(fp, conn, first, second), Anything)
    ensures
      var r := RelayRun(EmptyRelay(now), LossyRun(fp, conn, first, second), Anything);
      && r.routed == [Item(0, fp, first), Item(1, fp, second)]
      && Accounted(r, Item(0, fp, first)) && !Accounted(r, Item(1, fp, second))
  {
    hide Routable, Recipient, RelayRun, RelayAdmissible, DoRelay, Accounted, DoomedState, LateRun;
    ReachLateRun(now, fp, conn, first, second, Anything);
    var r := RelayRun(EmptyRelay(now), LateRun(fp, conn, first, second), Anything);
    ReachLoss(r, fp, conn, Item(0, fp, first), Item(1, fp, second));
    RunSnoc(EmptyRelay(now), LateRun(fp, conn, first, second), Anything, FlushDone(0));
  }

  lemma SnapshotHasNoFlight(r: Relay, fp: Bytes, conn: ConnId, x: Item)
    requires SnapshotState(r, fp, conn, x)
    ensures r.flights == map[]
  {}

  lemma StartsAdmissible(r: Relay, mode: Mode)
    ensures RelayAdmissible(r, [], mode) && RelayRun(r, [], mode) == r
  {}

  // ---------------------------------------------------------------- after a failed direct send

  predicate Registers(s: RelayStep, fp: Bytes)
  {
    s.Register? && s.fp == fp
  }

  lemma StepStaysOffline(r: Relay, s: RelayStep, fp: Bytes)
    requires RelayEnabled(r, s) && fp !in r.clients && !Registers(s, fp)
    ensures fp !in DoRelay(r, s).clients
  {
    hide Append, ThrownAway, ItemsOf, ExpiredBoxes, Routable, Recipient, MarkLate, Enqueue, Evict, Requeue;
  }

  lemma {:induction false} StaysOffline(r: Relay, run: seq<RelayStep>, mode: Mode, fp: Bytes)
    requires RelayAdmissible(r, run, mode) && fp !in r.clients && forall s :: s in run ==> !Registers(s, fp)
    ensures fp !in RelayRun(r, run, mode).clients
  {
    hide DoRelay, Allowed, RelayEnabled, Registers;
    if run != [] {
      StaysOffline(r, run[..|run| - 1], mode, fp);
      StepStaysOffline(RelayRun(r, run[..|run| - 1], mode), run[|run| - 1], fp);
    }
  }

  /**
   * After a failed direct send the recipient counts as offline: until it registers again, every
   * packet for it goes to the end of its mailbox and no call sends one directly.
   */
  lemma OfflineUntilRegistered(r: Relay, tid: nat, run: seq<RelayStep>, mode: Mode, next: nat, raw: Bytes)
    requires tid in r.flights && RelayAdmissible(DoRouteFailed(r, tid), run, mode)
    requires forall s :: s in run ==> !Registers(s, r.flights[tid].item.fp)
    requires Routable(raw) && Recipient(raw) == r.flights[tid].item.fp
    ensures
      var fp := r.flights[tid].item.fp;
      var r1 := RelayRun(DoRouteFailed(r, tid), run, mode);
      var r2 := DoRouteIn(r1, next, raw);
      r2.flights == r1.flights && Pending(r2.boxes, fp) == Pending(r1.boxes, fp) + [NewItem(r1, raw)]
  {
    var fp := r.flights[tid].item.fp;
    StaysOffline(DoRouteFailed(r, tid), run, mode, fp);
    var r1 := RelayRun(DoRouteFailed(r, tid), run, mode);
    PendingAfterPutIn(r1.(routed := r1.routed + [NewItem(r1, raw)]), NewItem(r1, raw), fp);
    hide RelayRun, RelayAdmissible, Enqueue, Append, MarkLate, Routable, Recipient, Pending;
  }
}
