/** How long the relay keeps a packet. */
module RelayRetention {
  import opened Common
  import opened Relays
  import opened RelayRuns
  import opened RelayLoss
  import opened RelayIds

  const HOUR: int := 3600 * 1_000_000_000

  /** Every packet of an entry was enqueued no earlier than the entry was created. */
  ghost predicate EnqueuedSince(r: Relay, xs: seq<Item>, createdAt: int)
  {
    forall x :: x in xs && x.id in r.since ==> createdAt <= r.since[x.id]
  }

  /** An entry is no younger than any packet in it, or falls to the next sweep. */
  ghost predicate DatedEntry(r: Relay, e: Entry<Item>)
  {
    Expired(e, r.now) || EnqueuedSince(r, e.packets, e.createdAt)
  }

  ghost predicate Dated(r: Relay)
  {
    forall fp :: fp in r.boxes ==> DatedEntry(r, r.boxes[fp])
  }

  // ---------------------------------------------------------------- the steps keep the dates

  lemma DatedKept(r: Relay, r': Relay)
    requires Dated(r) && r'.since == r.since && r.now <= r'.now
    requires forall fp :: fp in r'.boxes ==> fp in r.boxes && r'.boxes[fp] == r.boxes[fp]
    ensures Dated(r')
  {
    forall xs, c: int
      ensures EnqueuedSince(r', xs, c) == EnqueuedSince(r, xs, c)
    {}
    hide EnqueuedSince;
  }

  lemma PutInDated(r: Relay, x: Item)
    requires Dated(r) && x.id !in r.since && Known(r)
    ensures Dated(PutIn(r, x))
  {
    var r' := PutIn(r, x);
    hide Append, MarkLate;
    forall fp | fp in r'.boxes
      ensures DatedEntry(r', r'.boxes[fp])
    {
      assert fp in r.boxes ==> DatedEntry(r, r.boxes[fp]);
      assert fp in r.boxes ==> AllIn(r.boxes[fp].packets, r.since);
    }
  }

  lemma RouteInDated(r: Relay, tid: nat, raw: Bytes)
    requires Dated(r) && Placed(r)
    ensures Dated(DoRouteIn(r, tid, raw))
  {
    hide Dated, PutIn, Routable, Recipient;
    if Routable(raw) {
      var x := NewItem(r, raw);
      var r1 := r.(routed := r.routed + [x]);
      DatedKept(r, r1);
      if x.fp in r.clients {
        DatedKept(r, DoRouteIn(r, tid, raw));
      } else {
        NewIsUnknown(r);
        KnownKept(r, r1);
        PutInDated(r1, x);
      }
    }
  }

  lemma NewIsUnknown(r: Relay)
    requires Placed(r)
    ensures |r.routed| !in r.since
  {
    hide Known, LateKnown, SentLanded, FlightsDiffer;
  }

  lemma RouteFailedDated(r: Relay, tid: nat)
    requires Dated(r) && Placed(r) && tid in r.flights
    ensures Dated(DoRouteFailed(r, tid))
  {
    var x := r.flights[tid].item;
    AirborneIsNew(r, tid, x.fp);
    hide Dated, PutIn, IdsOk, LateKnown;
    var r1 := r.(clients := r.clients - {x.fp}, flights := r.flights - {tid});
    DatedKept(r, r1);
    KnownKept(r, r1);
    PutInDated(r1, x);
  }

  /**
   * A failed flush keeps the dates if and only if nothing it puts back is older than the entry, or
   * the entry has expired.
   */
  lemma RequeueDatedIff(r: Relay, tid: nat)
    requires Dated(r) && RelayEnabled(r, FlushFailed(tid))
    ensures Dated(DoRelay(r, FlushFailed(tid))) <==>
            NoneOlder(r, r.flushes[tid]) || StampExpired(r, r.flushes[tid].fp)
  {
    var f := r.flushes[tid];
    var r' := DoFlushFailed(r, tid);
    if NoneOlder(r, f) || StampExpired(r, f.fp) {
      forall fp | fp in r'.boxes
        ensures DatedEntry(r', r'.boxes[fp])
      {
        assert fp in r.boxes ==> DatedEntry(r, r.boxes[fp]);
      }
    }
    if Dated(r') {
      assert DatedEntry(r', r'.boxes[f.fp]);
    }
  }

  lemma StepDated(r: Relay, s: RelayStep)
    requires Dated(r) && Placed(r) && RelayEnabled(r, s) && Allowed(r, s, DatedRequeues)
    ensures Dated(DoRelay(r, s))
  {
    hide Dated, Placed, NoneOlder, StampExpired, ThrownAway, ItemsOf, ExpiredBoxes, Append, DoRouteIn, DoRouteFailed;
    hide DoFlushFailed;
    match s
    case RouteIn(tid, raw) => RouteInDated(r, tid, raw);
    case RouteFailed(tid) => RouteFailedDated(r, tid);
    case FlushFailed(tid) => RequeueDatedIff(r, tid);
    case _ => DatedKept(r, DoRelay(r, s));
  }

  // ---------------------------------------------------------------- nothing goes early

  ghost predicate TimesKept(boxes: Boxes<Item>, boxes': Boxes<Item>, now: int)
  {
    forall fp :: fp in boxes' ==> boxes'[fp].createdAt == if fp in boxes then boxes[fp].createdAt else now
  }

  /** The mailbox of `fp` holds what it held, under the same time. */
  ghost predicate MailKept(boxes: Boxes<Item>, boxes': Boxes<Item>, fp: Bytes)
  {
    fp in boxes ==>
      && fp in boxes' && boxes'[fp].createdAt == boxes[fp].createdAt
      && forall x :: x in boxes[fp].packets ==> x in boxes'[fp].packets
  }

  lemma AddingKeeps(boxes: Boxes<Item>, box: Bytes, x: Item, unsent: seq<Item>, now: int, fp: Bytes)
    ensures TimesKept(boxes, Enqueue(boxes, box, x, now), now) && MailKept(boxes, Enqueue(boxes, box, x, now), fp)
    ensures TimesKept(boxes, Requeue(boxes, box, unsent, now), now)
    ensures MailKept(boxes, Requeue(boxes, box, unsent, now), fp)
  {}

  lemma RemovingKeeps(boxes: Boxes<Item>, box: Bytes, now: int, fp: Bytes)
    ensures TimesKept(boxes, boxes - {box}, now) && (fp != box ==> MailKept(boxes, boxes - {box}, fp))
    ensures TimesKept(boxes, Evict(boxes, now), now)
    ensures fp in boxes && now - boxes[fp].createdAt <= 72 * HOUR ==>
              MailKept(boxes, Evict(boxes, now), fp)
  {}

  lemma NothingKeeps(boxes: Boxes<Item>, now: int, fp: Bytes)
    ensures TimesKept(boxes, boxes, now) && MailKept(boxes, boxes, fp)
  {}

  /** The final delete of a flush for `fp`. */
  predicate Deletes(r: Relay, s: RelayStep, fp: Bytes)
  {
    s.FlushDone? && s.tid in r.flushes && r.flushes[s.tid].fp == fp
  }

  /**
   * An entry keeps the time it was created at, and a new one is created now. What is in a mailbox
   * stays there, unless a flush deletes it or it is more than 72 hours old.
   */
  lemma StepKeepsMail(r: Relay, s: RelayStep, fp: Bytes)
    requires RelayEnabled(r, s)
    ensures TimesKept(r.boxes, DoRelay(r, s).boxes, r.now)
    ensures fp in r.boxes && !Deletes(r, s, fp) && r.now - r.boxes[fp].createdAt <= 72 * HOUR ==>
              MailKept(r.boxes, DoRelay(r, s).boxes, fp)
  {
    hide Append, ThrownAway, ItemsOf, ExpiredBoxes, Routable, Recipient, MarkLate, Enqueue, Evict, Requeue, Pending;
    hide TimesKept, MailKept;
    NothingKeeps(r.boxes, r.now, fp);
    match s
    case RouteIn(tid, raw) => AddingKeeps(r.boxes, Recipient(raw), NewItem(r, raw), [], r.now, fp);
    case RouteFailed(tid) => AddingKeeps(r.boxes, r.flights[tid].item.fp, r.flights[tid].item, [], r.now, fp);
    case FlushFailed(tid) =>
      var f := r.flushes[tid];
      AddingKeeps(r.boxes, f.fp, f.pkts[0], f.pkts[f.sent..], r.now, fp);
    case FlushDone(tid) => RemovingKeeps(r.boxes, r.flushes[tid].fp, r.now, fp);
    case Sweep => RemovingKeeps(r.boxes, fp, r.now, fp);
    case _ =>
  }

  ghost predicate NeverDeleted(r: Relay, run: seq<RelayStep>, mode: Mode, fp: Bytes)
    requires RelayAdmissible(r, run, mode)
  {
    run == [] ||
    (NeverDeleted(r, run[..|run| - 1], mode, fp) &&
     !Deletes(RelayRun(r, run[..|run| - 1], mode), run[|run| - 1], fp))
  }

  lemma ClockGoesOn(r: Relay, s: RelayStep)
    requires RelayEnabled(r, s)
    ensures r.now <= DoRelay(r, s).now
  {
    hide Append, ThrownAway, ItemsOf, ExpiredBoxes, Routable, Recipient, MarkLate, Enqueue, Evict, Requeue;
  }

  /**
   * The promise the other way: whatever happens, unless a flush deletes it, mail is there as long as
   * its entry was created at most 72 hours ago.
   */
  lemma {:induction false} KeptFor72Hours(r: Relay, run: seq<RelayStep>, mode: Mode, fp: Bytes, x: Item)
    requires RelayAdmissible(r, run, mode) && NeverDeleted(r, run, mode, fp)
    requires fp in r.boxes && x in r.boxes[fp].packets
    requires RelayRun(r, run, mode).now - r.boxes[fp].createdAt <= 72 * HOUR
    ensures fp in RelayRun(r, run, mode).boxes && x in RelayRun(r, run, mode).boxes[fp].packets
    ensures RelayRun(r, run, mode).boxes[fp].createdAt == r.boxes[fp].createdAt
  {
    hide DoRelay, Allowed, RelayEnabled, Deletes, TimesKept;
    if run != [] {
      var front, s := run[..|run| - 1], run[|run| - 1];
      ClockGoesOn(RelayRun(r, front, mode), s);
      KeptFor72Hours(r, front, mode, fp, x);
      StepKeepsMail(RelayRun(r, front, mode), s, fp);
    }
  }

  // ---------------------------------------------------------------- theorems

  /** Every entry is dated, as long as no failed flush puts a packet into a younger one that has not expired. */
  lemma {:induction false} EveryRunIsDated(now: int, run: seq<RelayStep>)
    requires RelayAdmissible(EmptyRelay(now), run, DatedRequeues)
    ensures Dated(RelayRun(EmptyRelay(now), run, DatedRequeues))
  {
    if run != [] {
      hide Dated, Placed, DoRelay, Allowed, RelayEnabled;
      EveryRunIsDated(now, run[..|run| - 1]);
      EveryRunIsPlaced(now, run[..|run| - 1], DatedRequeues);
      StepDated(RelayRun(EmptyRelay(now), run[..|run| - 1], DatedRequeues), run[|run| - 1]);
    } else {
      assert Dated(EmptyRelay(now));
    }
  }

  /** A packet in mailbox `fp` that was enqueued more than 72 hours ago. */
  ghost predicate Overdue(r: Relay, fp: Bytes, x: Item)
  {
    x in Pending(r.boxes, fp) && x.id in r.since && r.now - r.since[x.id] > 72 * HOUR
  }

  /** After every eviction sweep no packet enqueued more than 72 hours earlier remains. */
  lemma RetentionBound(now: int, run: seq<RelayStep>, fp: Bytes, x: Item)
    requires RelayAdmissible(EmptyRelay(now), run, DatedRequeues)
    ensures !Overdue(DoRelay(RelayRun(EmptyRelay(now), run, DatedRequeues), Sweep), fp, x)
    ensures
      var r := DoRelay(RelayRun(EmptyRelay(now), run, DatedRequeues), Sweep);
      x in Pending(r.boxes, fp) ==> x.id in r.since
  {
    EveryRunIsDated(now, run);
    EveryRunIsPlaced(now, run, DatedRequeues);
    hide RelayRun, RelayAdmissible, IdsOk, LateKnown;
    SweptBound(RelayRun(EmptyRelay(now), run, DatedRequeues), fp, x);
  }

  lemma SweptBound(r: Relay, fp: Bytes, x: Item)
    requires Dated(r) && Known(r)
    ensures !Overdue(DoRelay(r, Sweep), fp, x)
    ensures x in Pending(DoRelay(r, Sweep).boxes, fp) ==> x.id in r.since
  {
    hide ItemsOf, ExpiredBoxes;
    if fp in r.boxes {
      assert DatedEntry(r, r.boxes[fp]) && AllIn(r.boxes[fp].packets, r.since);
    }
  }

  /** Flush `tid` fails, time goes on to `later`, and a sweep runs. */
  function AfterRequeue(r: Relay, tid: nat, later: int): Relay
    requires RelayEnabled(r, FlushFailed(tid)) && r.now <= later
  {
    DoRelay(DoRelay(DoRelay(r, FlushFailed(tid)), Tick(later)), Sweep)
  }

  ghost predicate Overstays(r: Relay, tid: nat, later: int)
    requires RelayEnabled(r, FlushFailed(tid))
  {
    r.now <= later && exists x :: Overdue(AfterRequeue(r, tid, later), r.flushes[tid].fp, x)
  }

  /** Some packet that flush `f` puts back is older than the entry it goes into. */
  predicate PutsBackOlder(r: Relay, f: Flush)
    requires f.sent <= |f.pkts|
  {
    exists x :: x in f.pkts[f.sent..] && x.id in r.since && r.since[x.id] < Stamp(r, f.fp)
  }

  /**
   * Exactly when a failed flush breaks the bound: after a run that kept it, some later sweep leaves
   * an overdue packet in that mailbox if and only if the flush puts back a packet older than the
   * entry it goes into, and that entry has not expired itself.
   */
  lemma RequeueBreaksBoundIff(now: int, run: seq<RelayStep>, tid: nat)
    requires RelayAdmissible(EmptyRelay(now), run, DatedRequeues)
    requires RelayEnabled(RelayRun(EmptyRelay(now), run, DatedRequeues), FlushFailed(tid))
    ensures
      var r := RelayRun(EmptyRelay(now), run, DatedRequeues);
      (exists later :: Overstays(r, tid, later)) <==>
      PutsBackOlder(r, r.flushes[tid]) && r.now <= Stamp(r, r.flushes[tid].fp) + MAILBOX_TTL
  {
    EveryRunIsDated(now, run);
    hide RelayRun, RelayAdmissible, Dated;
    OverstaysIff(RelayRun(EmptyRelay(now), run, DatedRequeues), tid);
  }

  lemma OverstaysIff(r: Relay, tid: nat)
    requires Dated(r) && RelayEnabled(r, FlushFailed(tid))
    ensures
      (exists later :: Overstays(r, tid, later)) <==>
      PutsBackOlder(r, r.flushes[tid]) && r.now <= Stamp(r, r.flushes[tid].fp) + MAILBOX_TTL
  {
    hide AfterRequeue;
    var f := r.flushes[tid];
    var stamp := Stamp(r, f.fp);
    forall later | Overstays(r, tid, later)
      ensures PutsBackOlder(r, f) && r.now <= stamp + MAILBOX_TTL
    {
      var x :| Overdue(AfterRequeue(r, tid, later), f.fp, x);
      SweptEntry(r, tid, later);
      if x in Pending(r.boxes, f.fp) {
        NotOverdueBefore(r, f.fp, x, later);
      }
    }
    if PutsBackOlder(r, f) && r.now <= stamp + MAILBOX_TTL {
      var x :| x in f.pkts[f.sent..] && x.id in r.since && r.since[x.id] < stamp;
      SweptEntry(r, tid, stamp + MAILBOX_TTL);
      assert Overdue(AfterRequeue(r, tid, stamp + MAILBOX_TTL), f.fp, x);
      assert Overstays(r, tid, stamp + MAILBOX_TTL);
    }
  }

  /** What the sweep at `later` leaves of the mailbox that the flush put its packets back into. */
  lemma SweptEntry(r: Relay, tid: nat, later: int)
    requires RelayEnabled(r, FlushFailed(tid)) && r.now <= later
    ensures
      var f := r.flushes[tid];
      var r' := AfterRequeue(r, tid, later);
      && r'.now == later && r'.since == r.since
      && Pending(r'.boxes, f.fp) ==
           if later <= Stamp(r, f.fp) + MAILBOX_TTL then f.pkts[f.sent..] + Pending(r.boxes, f.fp) else []
  {
    hide ItemsOf, ExpiredBoxes;
  }

  /** A packet of a dated entry is not overdue while the entry is kept. */
  lemma NotOverdueBefore(r: Relay, fp: Bytes, x: Item, later: int)
    requires Dated(r) && x in Pending(r.boxes, fp) && x.id in r.since
    requires r.now <= later <= Stamp(r, fp) + MAILBOX_TTL
    ensures later - r.since[x.id] <= MAILBOX_TTL
  {
    assert DatedEntry(r, r.boxes[fp]);
  }

  /** A flush whose unsent packets are still in the mailbox keeps the dates. */
  lemma StillThereIsDated(r: Relay, tid: nat)
    requires Dated(r) && RelayEnabled(r, FlushFailed(tid))
    requires forall x :: x in r.flushes[tid].pkts[r.flushes[tid].sent..] ==> x in Pending(r.boxes, r.flushes[tid].fp)
    ensures Dated(DoRelay(r, FlushFailed(tid)))
  {
    var f := r.flushes[tid];
    RequeueDatedIff(r, tid);
    hide Dated;
    if !StampExpired(r, f.fp) {
      forall x | x in f.pkts[f.sent..] && x.id in r.since
        ensures Stamp(r, f.fp) <= r.since[x.id]
      {
        PendingIsDated(r, f.fp, x);
      }
    }
  }

  lemma PendingIsDated(r: Relay, fp: Bytes, x: Item)
    requires Dated(r) && x in Pending(r.boxes, fp) && x.id in r.since && !StampExpired(r, fp)
    ensures Stamp(r, fp) <= r.since[x.id]
  {
    assert DatedEntry(r, r.boxes[fp]);
  }

  /** A flush that outlives its mailbox entry and then fails. */
  function StaleRun(now: int, fp: Bytes, conn: ConnId, raw: Bytes): seq<RelayStep>
  {
    SnapshotRun(fp, conn, raw) + [Tick(now + 73 * HOUR)] + [Sweep] + [FlushFailed(0)] + [Sweep]
  }

  /** Such a requeue: this packet survives the sweep 73 hours on. */
  lemma OrphanedRequeueOverstays(now: int, fp: Bytes, conn: ConnId, raw: Bytes)
    requires Routable(raw) && Recipient(raw) == fp
    ensures RelayAdmissible(EmptyRelay(now), StaleRun(now, fp, conn, raw), Anything)
    ensures
      var r := RelayRun(EmptyRelay(now), StaleRun(now, fp, conn, raw), Anything);
      && Item(0, fp, raw) in Pending(r.boxes, fp)
      && 0 in r.since && r.now - r.since[0] == 73 * HOUR
  {
    hide Routable, Recipient, RelayRun, RelayAdmissible, DoRelay, SnapshotState, StaleState, RequeuedState, SnapshotRun;
    var r0 := EmptyRelay(now);
    var x := Item(0, fp, raw);
    ReachSnapshotRun(now, fp, conn, raw, Anything);
    SnapshotDates(now, fp, conn, raw);
    var run := SnapshotRun(fp, conn, raw);
    ReachStale(RelayRun(r0, run, Anything), now, fp, conn, x);
    RunSnoc(r0, run, Anything, Tick(now + 73 * HOUR));
    run := run + [Tick(now + 73 * HOUR)];
    RunSnoc(r0, run, Anything, Sweep);
    run := run + [Sweep];
    ReachRequeued(RelayRun(r0, run, Anything), now, fp, conn, x);
    RunSnoc(r0, run, Anything, FlushFailed(0));
    run := run + [FlushFailed(0)];
    RequeuedSurvives(RelayRun(r0, run, Anything), now, fp, x);
    RunSnoc(r0, run, Anything, Sweep);
  }

  lemma SnapshotDates(now: int, fp: Bytes, conn: ConnId, raw: Bytes)
    requires Routable(raw) && Recipient(raw) == fp
    ensures
      var r := DoRelay(DoRelay(DoRelay(EmptyRelay(now), RouteIn(0, raw)), Register(fp, conn)), FlushStart(0, fp, conn));
      r.now == now && r.since == map[0 := now] && r.boxes == map[fp := Entry([Item(0, fp, raw)], now)]
  {
    hide Routable, Recipient;
  }

  ghost predicate StaleState(r: Relay, now: int, fp: Bytes, conn: ConnId, x: Item)
  {
    && r.now == now + 73 * HOUR && r.since == map[0 := now] && r.boxes == map[]
    && r.flushes == map[0 := Flush(fp, conn, [x], 0, {})]
  }

  lemma ReachStale(r: Relay, now: int, fp: Bytes, conn: ConnId, x: Item)
    requires SnapshotState(r, fp, conn, x)
    requires r.now == now && r.since == map[0 := now] && r.boxes == map[fp := Entry([x], now)]
    ensures RelayEnabled(r, Tick(now + 73 * HOUR))
    ensures StaleState(DoRelay(DoRelay(r, Tick(now + 73 * HOUR)), Sweep), now, fp, conn, x)
  {
    var r1 := DoRelay(r, Tick(now + 73 * HOUR));
    assert fp in ExpiredBoxes(r1);
    var r2 := DoRelay(r1, Sweep);
    assert r2.flushes.Keys == {0} && r2.flushes[0] == Flush(fp, conn, [x], 0, {});
    assert r2.boxes == map[];
  }

  ghost predicate RequeuedState(r: Relay, now: int, fp: Bytes, x: Item)
  {
    r.now == now + 73 * HOUR && r.since == map[0 := now] && r.boxes == map[fp := Entry([x], now + 73 * HOUR)]
  }

  lemma ReachRequeued(r: Relay, now: int, fp: Bytes, conn: ConnId, x: Item)
    requires StaleState(r, now, fp, conn, x)
    ensures RelayEnabled(r, FlushFailed(0)) && RequeuedState(DoRelay(r, FlushFailed(0)), now, fp, x)
  {
    assert [x][0..] == [x];
  }

  lemma RequeuedSurvives(r: Relay, now: int, fp: Bytes, x: Item)
    requires RequeuedState(r, now, fp, x)
    ensures
      var r' := DoRelay(r, Sweep);
      && x in Pending(r'.boxes, fp) && r'.since == r.since && r'.now == now + 73 * HOUR
      && 0 in r'.since && r'.since[0] == now
  {
    hide ItemsOf;
  }
}
