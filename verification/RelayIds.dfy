/** What is where: an item in the air is nowhere else, and what is in a mailbox was enqueued at a known time. */
module RelayIds {
  import opened Common
  import opened Relays
  import opened RelayRuns
  import opened RelayLoss

  // ---------------------------------------------------------------- times of enqueueing

  ghost predicate AllIn(xs: seq<Item>, since: map<nat, int>)
  {
    forall x :: x in xs ==> x.id in since
  }

  /** Whatever is in a mailbox or a snapshot was enqueued at a known time, and nothing lies in the future. */
  ghost predicate Known(r: Relay)
  {
    && (forall fp :: fp in r.boxes ==> r.boxes[fp].createdAt <= r.now && AllIn(r.boxes[fp].packets, r.since))
    && (forall t :: t in r.flushes ==> AllIn(r.flushes[t].pkts, r.since))
    && (forall id :: id in r.since ==> r.since[id] <= r.now)
  }

  /** Nothing enters a mailbox or a snapshot that was not in one. */
  lemma KnownKept(r: Relay, r': Relay)
    requires Known(r) && r'.since == r.since && r.now <= r'.now
    requires forall fp :: fp in r'.boxes ==> fp in r.boxes && r'.boxes[fp] == r.boxes[fp]
    requires forall t :: t in r'.flushes ==> t in r.flushes && r'.flushes[t].pkts == r.flushes[t].pkts
    ensures Known(r')
  {
    hide AllIn;
  }

  lemma PutInKnown(r: Relay, x: Item)
    requires Known(r)
    ensures Known(PutIn(r, x))
  {
    hide Append;
    var r' := PutIn(r, x);
    forall xs | AllIn(xs, r.since)
      ensures AllIn(xs, r'.since)
    {}
    assert AllIn([x], r'.since);
    if x.fp in r.boxes {
      AllInBoth(r.boxes[x.fp].packets, [x], r'.since);
    }
    hide AllIn;
  }

  lemma AllInBoth(xs: seq<Item>, ys: seq<Item>, since: map<nat, int>)
    requires AllIn(xs, since) && AllIn(ys, since)
    ensures AllIn(xs + ys, since)
  {}

  lemma TailAllIn(xs: seq<Item>, n: nat, since: map<nat, int>)
    requires AllIn(xs, since) && n <= |xs|
    ensures AllIn(xs[n..], since)
  {}

  lemma FlushFailedKnown(r: Relay, tid: nat)
    requires Known(r) && tid in r.flushes && r.flushes[tid].sent < |r.flushes[tid].pkts|
    ensures Known(DoFlushFailed(r, tid))
  {
    var f := r.flushes[tid];
    TailAllIn(f.pkts, f.sent, r.since);
    if f.fp in r.boxes {
      AllInBoth(f.pkts[f.sent..], r.boxes[f.fp].packets, r.since);
    }
    hide AllIn;
  }

  lemma RouteKnown(r: Relay, s: RelayStep)
    requires Known(r) && RelayEnabled(r, s) && (s.RouteIn? || s.RouteSent? || s.RouteFailed?)
    ensures Known(DoRelay(r, s))
  {
    hide Known, PutIn, Append, Routable, Recipient;
    match s
    case RouteIn(tid, raw) =>
      if Routable(raw) {
        var x := NewItem(r, raw);
        var r1 := r.(routed := r.routed + [x]);
        KnownKept(r, r1);
        if x.fp in r.clients {
          KnownKept(r, DoRelay(r, s));
        } else {
          PutInKnown(r1, x);
        }
      }
    case RouteSent(tid) => KnownKept(r, DoRelay(r, s));
    case RouteFailed(tid) =>
      var x := r.flights[tid].item;
      var r1 := r.(clients := r.clients - {x.fp}, flights := r.flights - {tid});
      KnownKept(r, r1);
      PutInKnown(r1, x);
  }

  lemma FlushStartKnown(r: Relay, tid: nat, fp: Bytes, conn: ConnId)
    requires Known(r)
    ensures Known(DoFlushStart(r, tid, fp, conn))
  {
    hide AllIn;
  }

  lemma StepKnown(r: Relay, s: RelayStep)
    requires Known(r) && RelayEnabled(r, s)
    ensures Known(DoRelay(r, s))
  {
    hide Known, DoRouteIn, DoRouteSent, DoRouteFailed, DoFlushStart, DoFlushFailed, ThrownAway, ItemsOf, ExpiredBoxes;
    hide Append;
    match s
    case RouteIn(_, _) => RouteKnown(r, s);
    case RouteSent(_) => RouteKnown(r, s);
    case RouteFailed(_) => RouteKnown(r, s);
    case FlushStart(tid, fp, conn) => FlushStartKnown(r, tid, fp, conn);
    case FlushFailed(tid) => FlushFailedKnown(r, tid);
    case _ => KnownKept(r, DoRelay(r, s));
  }

  // ---------------------------------------------------------------- items in the air

  /** `id` was given out, and no route call is sending it. */
  ghost predicate Landed(r: Relay, id: nat)
  {
    id < |r.routed| && forall t :: t in r.flights ==> r.flights[t].item.id != id
  }

  ghost predicate SentLanded(r: Relay)
  {
    forall fp, x :: x in Log(r.sentTo, fp) ==> Landed(r, x.id)
  }

  ghost predicate FlightsDiffer(r: Relay)
  {
    && (forall t :: t in r.flights ==> r.flights[t].item.id < |r.routed|)
    && (forall t, u :: t in r.flights && u in r.flights && t != u ==> r.flights[t].item.id != r.flights[u].item.id)
  }

  /** An item in the air was neither enqueued nor sent, and is in the air once. */
  ghost predicate IdsOk(r: Relay)
  {
    (forall id :: id in r.since ==> Landed(r, id)) && SentLanded(r) && FlightsDiffer(r)
  }

  lemma IdsKept(r: Relay, r': Relay)
    requires IdsOk(r) && r'.since == r.since && r'.routed == r.routed && r'.sentTo == r.sentTo
    requires forall t :: t in r'.flights ==> t in r.flights && r'.flights[t] == r.flights[t]
    ensures IdsOk(r')
  {
    hide Log;
  }

  lemma PutInIds(r: Relay, x: Item)
    requires IdsOk(r) && Landed(r, x.id)
    ensures IdsOk(PutIn(r, x))
  {
    hide Append, Enqueue, MarkLate, Log;
  }

  lemma SendOutIds(r: Relay, conn: ConnId, x: Item)
    requires IdsOk(r) && Landed(r, x.id)
    ensures IdsOk(SendOut(r, conn, x))
  {
    var r' := SendOut(r, conn, x);
    forall fp, y | y in Log(r'.sentTo, fp)
      ensures Landed(r', y.id)
    {
      LogAfterAppend(r.sentTo, x, fp);
    }
    hide Log, Append;
  }

  lemma LogAfterAppend(m: map<Bytes, seq<Item>>, x: Item, fp: Bytes)
    ensures Log(Append(m, x), fp) == Log(m, fp) + (if x.fp == fp then [x] else [])
  {}

  /** A new item, not in the air yet. */
  lemma NewIds(r: Relay, x: Item)
    requires IdsOk(r) && x.id == |r.routed|
    ensures IdsOk(r.(routed := r.routed + [x])) && Landed(r.(routed := r.routed + [x]), x.id)
  {
    hide Log;
  }

  lemma RouteInIds(r: Relay, tid: nat, raw: Bytes)
    requires IdsOk(r) && tid !in r.flights
    ensures IdsOk(DoRouteIn(r, tid, raw))
  {
    hide Routable, Recipient, PutIn, Log;
    if Routable(raw) {
      var x := NewItem(r, raw);
      if x.fp !in r.clients {
        NewIds(r, x);
        hide IdsOk;
        PutInIds(r.(routed := r.routed + [x]), x);
      }
    }
  }

  /** A route call that ends: its item is in the air no more. */
  lemma FlightLands(r: Relay, tid: nat)
    requires IdsOk(r) && tid in r.flights
    ensures IdsOk(r.(flights := r.flights - {tid})) && Landed(r.(flights := r.flights - {tid}), r.flights[tid].item.id)
  {
    hide Log;
  }

  lemma RouteSentIds(r: Relay, tid: nat)
    requires IdsOk(r) && tid in r.flights
    ensures IdsOk(DoRouteSent(r, tid))
  {
    var x := r.flights[tid].item;
    FlightLands(r, tid);
    var r1 := r.(flights := r.flights - {tid});
    var r2 := r1.(taken := Append(r.taken, x));
    assert Landed(r2, x.id);
    hide IdsOk, Landed, SendOut, Append;
    IdsKept(r1, r2);
    SendOutIds(r2, r.flights[tid].conn, x);
  }

  lemma RouteFailedIds(r: Relay, tid: nat)
    requires IdsOk(r) && tid in r.flights
    ensures IdsOk(DoRouteFailed(r, tid))
  {
    var x := r.flights[tid].item;
    FlightLands(r, tid);
    var r1 := r.(flights := r.flights - {tid});
    var r2 := r.(clients := r.clients - {x.fp}, flights := r.flights - {tid});
    assert Landed(r2, x.id);
    hide IdsOk, Landed, PutIn;
    IdsKept(r1, r2);
    PutInIds(r2, x);
  }

  lemma FlushSentIds(r: Relay, tid: nat)
    requires IdsOk(r) && Known(r) && tid in r.flushes && r.flushes[tid].sent < |r.flushes[tid].pkts|
    ensures IdsOk(DoFlushSent(r, tid))
  {
    var f := r.flushes[tid];
    assert AllIn(f.pkts, r.since) && f.pkts[f.sent] in f.pkts;
    assert Landed(r, f.pkts[f.sent].id);
    hide IdsOk, Landed, SendOut, Known;
    SendOutIds(r, f.conn, f.pkts[f.sent]);
    IdsKept(SendOut(r, f.conn, f.pkts[f.sent]), DoFlushSent(r, tid));
  }

  lemma StepKeepsIds(r: Relay, s: RelayStep)
    requires IdsOk(r) && Known(r) && RelayEnabled(r, s)
    ensures IdsOk(DoRelay(r, s))
  {
    hide IdsOk, Known, DoRouteIn, DoRouteSent, DoRouteFailed, DoFlushSent, ThrownAway, ItemsOf, ExpiredBoxes, Evict;
    hide Requeue, Pending;
    match s
    case RouteIn(tid, raw) => RouteInIds(r, tid, raw);
    case RouteSent(tid) => RouteSentIds(r, tid);
    case RouteFailed(tid) => RouteFailedIds(r, tid);
    case FlushSent(tid) => FlushSentIds(r, tid);
    case _ => IdsKept(r, DoRelay(r, s));
  }

  // ---------------------------------------------------------------- what was enqueued during a flush

  /** What was enqueued since a flush's snapshot was routed to the same recipient. */
  ghost predicate LateKnown(r: Relay)
  {
    forall t, x :: t in r.flushes && x in r.flushes[t].late ==>
      x in r.routed && x.fp == r.flushes[t].fp && x.id in r.since
  }

  lemma LateKept(r: Relay, r': Relay)
    requires LateKnown(r) && r.routed <= r'.routed && (forall id :: id in r.since ==> id in r'.since)
    requires forall t :: t in r'.flushes ==>
               t in r.flushes && r'.flushes[t].fp == r.flushes[t].fp && r'.flushes[t].late == r.flushes[t].late
    ensures LateKnown(r')
  {
    forall x | x in r.routed
      ensures x in r'.routed
    {
      var i :| 0 <= i < |r.routed| && r.routed[i] == x;
      assert r'.routed[i] == x;
    }
  }

  lemma PutInLate(r: Relay, x: Item)
    requires LateKnown(r) && x in r.routed
    ensures LateKnown(PutIn(r, x))
  {
    hide Append, Enqueue;
  }

  lemma RouteInLate(r: Relay, tid: nat, raw: Bytes)
    requires LateKnown(r)
    ensures LateKnown(DoRouteIn(r, tid, raw))
  {
    hide LateKnown, PutIn, Routable, Recipient;
    if Routable(raw) {
      var x := NewItem(r, raw);
      var r1 := r.(routed := r.routed + [x]);
      assert x in r1.routed;
      LateKept(r, r1);
      if x.fp in r.clients {
        LateKept(r, DoRouteIn(r, tid, raw));
      } else {
        PutInLate(r1, x);
      }
    }
  }

  lemma RouteFailedLate(r: Relay, tid: nat)
    requires LateKnown(r) && Isolated(r) && tid in r.flights
    ensures LateKnown(DoRouteFailed(r, tid))
  {
    hide LateKnown, Isolated, PutIn;
    var x := r.flights[tid].item;
    var r1 := r.(clients := r.clients - {x.fp}, flights := r.flights - {tid});
    FlightIsRouted(r, tid);
    LateKept(r, r1);
    PutInLate(r1, x);
  }

  lemma FlightIsRouted(r: Relay, tid: nat)
    requires Isolated(r) && tid in r.flights
    ensures r.flights[tid].item in r.routed
  {
    FlightIsIsolated(r, tid);
    hide Isolated, Routable, Recipient;
  }

  lemma StepLate(r: Relay, s: RelayStep)
    requires LateKnown(r) && Isolated(r) && RelayEnabled(r, s)
    ensures LateKnown(DoRelay(r, s))
  {
    hide LateKnown, Isolated, DoRouteIn, DoRouteFailed, DoFlushStart, Append, Evict, Requeue, Pending, ExpiredBoxes;
    hide ItemsOf, ThrownAway;
    match s
    case RouteIn(tid, raw) => RouteInLate(r, tid, raw);
    case RouteFailed(tid) => RouteFailedLate(r, tid);
    case FlushStart(tid, fp, conn) => FlushStartLate(r, tid, fp, conn);
    case _ => LateKept(r, DoRelay(r, s));
  }

  lemma FlushStartLate(r: Relay, tid: nat, fp: Bytes, conn: ConnId)
    requires LateKnown(r)
    ensures LateKnown(DoFlushStart(r, tid, fp, conn))
  {}

  // ---------------------------------------------------------------- every run

  ghost predicate Placed(r: Relay)
  {
    Known(r) && IdsOk(r) && LateKnown(r)
  }

  lemma {:induction false} EveryRunIsPlaced(now: int, run: seq<RelayStep>, mode: Mode)
    requires RelayAdmissible(EmptyRelay(now), run, mode)
    ensures Placed(RelayRun(EmptyRelay(now), run, mode))
  {
    if run != [] {
      hide IdsOk, Known, LateKnown, Isolated, DoRelay, Allowed, RelayEnabled;
      EveryRunIsPlaced(now, run[..|run| - 1], mode);
      EveryRunIsIsolated(now, run[..|run| - 1], mode);
      StepKeepsIds(RelayRun(EmptyRelay(now), run[..|run| - 1], mode), run[|run| - 1]);
      StepKnown(RelayRun(EmptyRelay(now), run[..|run| - 1], mode), run[|run| - 1]);
      StepLate(RelayRun(EmptyRelay(now), run[..|run| - 1], mode), run[|run| - 1]);
    } else {
      assert IdsOk(EmptyRelay(now)) && Known(EmptyRelay(now)) && LateKnown(EmptyRelay(now));
    }
  }

  /** An item in the air was neither sent nor ever in a mailbox. */
  lemma AirborneIsNew(r: Relay, tid: nat, fp: Bytes)
    requires Placed(r) && tid in r.flights
    ensures r.flights[tid].item !in Log(r.sentTo, fp) && r.flights[tid].item.id !in r.since
  {
    hide Log, Known, LateKnown, FlightsDiffer;
  }

  /** What was enqueued during a flush is in the hands of no route call. */
  lemma LateIsLanded(r: Relay, tid: nat, x: Item)
    requires Placed(r) && tid in r.flushes && x in r.flushes[tid].late
    ensures x in r.routed && x.fp == r.flushes[tid].fp && !InFlight(r, x)
  {
    hide SentLanded, FlightsDiffer, Known;
    assert Landed(r, x.id);
  }
}
