/** Exactly when the unconditional final delete of a flush loses a packet. */
module RelayDeletes {
  import opened Common
  import opened Relays
  import opened RelayRuns
  import opened RelayLoss
  import opened RelayIds
  import opened RelayOrder

  // ---------------------------------------------------------------- what a final delete loses

  ghost predicate AllAccounted(r: Relay, fp: Bytes)
  {
    forall x :: x in r.routed && x.fp == fp ==> Accounted(r, x)
  }

  /**
   * The final delete of a flush keeps every packet for its recipient accounted for if and only if
   * what was enqueued since its snapshot has all been sent, by other flushes.
   */
  lemma DeleteKeepsAllIffClean(now: int, run: seq<RelayStep>, fp: Bytes, mode: Mode, tid: nat)
    requires mode == Orderly(fp) || mode == OneFlush(fp)
    requires RelayAdmissible(EmptyRelay(now), run, mode)
    requires RelayEnabled(RelayRun(EmptyRelay(now), run, mode), FlushDone(tid))
    requires RelayRun(EmptyRelay(now), run, mode).flushes[tid].fp == fp
    ensures
      var r := RelayRun(EmptyRelay(now), run, mode);
      AllAccounted(DoRelay(r, FlushDone(tid)), fp) <==> Clean(r, r.flushes[tid])
  {
    hide RelayRun, RelayAdmissible, OrderOk, Conserved, AllAccounted, Clean, DoRelay, Placed;
    var r := RelayRun(EmptyRelay(now), run, mode);
    EveryOrderlyRun(now, run, fp, mode);
    EveryRunConserves(now, run, mode);
    EveryRunIsPlaced(now, run, mode);
    NoneLostFrom(r, fp);
    DeleteAtState(r, fp, tid);
  }

  lemma DeleteAtState(r: Relay, fp: Bytes, tid: nat)
    requires NoneLost(r, fp) && Conserved(r) && Placed(r)
    requires RelayEnabled(r, FlushDone(tid)) && r.flushes[tid].fp == fp
    ensures AllAccounted(DoRelay(r, FlushDone(tid)), fp) <==> Clean(r, r.flushes[tid])
  {
    hide Log, ThrownAway, Placed;
    var f := r.flushes[tid];
    var r' := DoFlushDone(r, tid);
    assert Pending(r'.boxes, fp) == [];
    assert forall x: Item :: WasSent(r', x) <==> WasSent(r, x);
    if AllAccounted(r', fp) {
      forall x | x in f.late
        ensures WasSent(r, x)
      {
        LateIsLanded(r, tid, x);
        assert InFlight(r', x) <==> InFlight(r, x);
        assert Accounted(r', x);
      }
    }
    if Clean(r, f) {
      CleanMeansSent(r, tid);
      forall x | x in r.routed && x.fp == fp
        ensures Accounted(r', x)
      {
        assert Accounted(r, x);
      }
    }
  }

  // ---------------------------------------------------------------- one flush at a time

  ghost predicate OnlyFlushFor(r: Relay, fp: Bytes)
  {
    forall t, u :: t in r.flushes && u in r.flushes && r.flushes[t].fp == fp && r.flushes[u].fp == fp ==> t == u
  }

  /** What was enqueued since the snapshot of `f` is neither in it nor sent. */
  ghost predicate LateUnsent(f: Flush, sent: seq<Item>)
  {
    forall x :: x in f.late ==> x !in sent && x !in f.pkts
  }

  ghost predicate FlushesUnsent(flushes: map<nat, Flush>, fp: Bytes, sent: seq<Item>)
  {
    forall t :: t in flushes && flushes[t].fp == fp ==> LateUnsent(flushes[t], sent)
  }

  ghost predicate UnsentOk(r: Relay, fp: Bytes)
  {
    OnlyFlushFor(r, fp) && FlushesUnsent(r.flushes, fp, Log(r.sentTo, fp))
  }

  lemma UnsentKept(r: Relay, r': Relay, fp: Bytes)
    requires UnsentOk(r, fp) && Log(r'.sentTo, fp) == Log(r.sentTo, fp)
    requires forall t :: t in r'.flushes && r'.flushes[t].fp == fp ==> t in r.flushes && r'.flushes[t] == r.flushes[t]
    ensures UnsentOk(r', fp)
  {
    hide Log;
  }

  /** `x` was neither sent nor ever in a mailbox. */
  ghost predicate Untouched(r: Relay, x: Item)
  {
    x !in Log(r.sentTo, x.fp) && x.id !in r.since
  }

  lemma PutInUnsent(r: Relay, x: Item, fp: Bytes)
    requires UnsentOk(r, fp) && Known(r) && Untouched(r, x)
    ensures UnsentOk(PutIn(r, x), fp)
  {
    hide Log, Append, Enqueue;
    var r' := PutIn(r, x);
    forall t | t in r'.flushes && r'.flushes[t].fp == fp
      ensures LateUnsent(r'.flushes[t], Log(r'.sentTo, fp))
    {
      assert LateUnsent(r.flushes[t], Log(r.sentTo, fp)) && AllIn(r.flushes[t].pkts, r.since);
    }
  }

  lemma NewIsUntouched(r: Relay, raw: Bytes)
    requires Placed(r)
    ensures Untouched(r.(routed := r.routed + [NewItem(r, raw)]), NewItem(r, raw))
  {
    hide Log, Known, LateKnown, FlightsDiffer, Recipient;
  }

  lemma AirborneIsUntouched(r: Relay, tid: nat)
    requires Placed(r) && tid in r.flights
    ensures Untouched(r, r.flights[tid].item)
    ensures
      var x := r.flights[tid].item;
      Untouched(r.(clients := r.clients - {x.fp}, flights := r.flights - {tid}), x)
  {
    AirborneIsNew(r, tid, r.flights[tid].item.fp);
  }

  lemma RouteInUnsent(r: Relay, tid: nat, raw: Bytes, fp: Bytes)
    requires UnsentOk(r, fp) && Placed(r)
    ensures UnsentOk(DoRouteIn(r, tid, raw), fp)
  {
    KnownFrom(r);
    hide UnsentOk, PutIn, Routable, Recipient, Log, Placed, Known, Untouched;
    if Routable(raw) {
      var x := NewItem(r, raw);
      var r1 := r.(routed := r.routed + [x]);
      if x.fp in r.clients {
        UnsentKept(r, DoRouteIn(r, tid, raw), fp);
      } else {
        NewIsUntouched(r, raw);
        UnsentKept(r, r1, fp);
        KnownKept(r, r1);
        PutInUnsent(r1, x, fp);
      }
    }
  }

  lemma KnownFrom(r: Relay)
    requires Placed(r)
    ensures Known(r)
  {
    hide Known, IdsOk, LateKnown;
  }

  lemma RouteFailedUnsent(r: Relay, tid: nat, fp: Bytes)
    requires UnsentOk(r, fp) && Placed(r) && tid in r.flights
    ensures UnsentOk(DoRouteFailed(r, tid), fp)
  {
    KnownFrom(r);
    AirborneIsUntouched(r, tid);
    hide UnsentOk, PutIn, Log, Placed, Known, Untouched;
    var x := r.flights[tid].item;
    var r1 := r.(clients := r.clients - {x.fp}, flights := r.flights - {tid});
    UnsentKept(r, r1, fp);
    KnownKept(r, r1);
    PutInUnsent(r1, x, fp);
  }

  /** A direct send: its item was in no mailbox, so it is not late in any flush. */
  lemma RouteSentUnsent(r: Relay, tid: nat, fp: Bytes)
    requires UnsentOk(r, fp) && Placed(r) && tid in r.flights
    ensures UnsentOk(DoRouteSent(r, tid), fp)
  {
    var x := r.flights[tid].item;
    AirborneIsUntouched(r, tid);
    LogAfterAppend(r.sentTo, x, fp);
    hide Log, Append, Known, IdsOk;
    var r' := DoRouteSent(r, tid);
    forall t | t in r'.flushes && r'.flushes[t].fp == fp
      ensures LateUnsent(r'.flushes[t], Log(r'.sentTo, fp))
    {
      assert LateUnsent(r.flushes[t], Log(r.sentTo, fp));
    }
  }

  lemma FlushStartUnsent(r: Relay, tid: nat, fp': Bytes, conn: ConnId, fp: Bytes)
    requires UnsentOk(r, fp)
    requires fp' == fp ==> forall t :: t in r.flushes ==> r.flushes[t].fp != fp
    ensures UnsentOk(DoFlushStart(r, tid, fp', conn), fp)
  {
    hide Log;
  }

  /** A flush sends from its snapshot, so what is late stays unsent. */
  lemma FlushSentUnsent(r: Relay, tid: nat, fp: Bytes)
    requires UnsentOk(r, fp) && OwnMailbox(r) && tid in r.flushes && r.flushes[tid].sent < |r.flushes[tid].pkts|
    ensures UnsentOk(DoFlushSent(r, tid), fp)
  {
    hide Log, Append, OwnMailbox;
    var f := r.flushes[tid];
    NextIsOwn(r, tid);
    LogAfterAppend(r.sentTo, f.pkts[f.sent], fp);
    assert f.pkts[f.sent] in f.pkts;
  }

  lemma StepUnsent(r: Relay, s: RelayStep, fp: Bytes)
    requires UnsentOk(r, fp) && Placed(r) && OwnMailbox(r)
    requires RelayEnabled(r, s) && Allowed(r, s, OneFlush(fp))
    ensures UnsentOk(DoRelay(r, s), fp)
  {
    hide UnsentOk, Placed, OwnMailbox, DoRouteIn, DoRouteSent, DoRouteFailed, DoFlushStart, DoFlushSent, OrderlyStep;
    hide Requeue, Evict, ThrownAway, ItemsOf, ExpiredBoxes, Log;
    match s
    case RouteIn(tid, raw) => RouteInUnsent(r, tid, raw, fp);
    case RouteSent(tid) => RouteSentUnsent(r, tid, fp);
    case RouteFailed(tid) => RouteFailedUnsent(r, tid, fp);
    case FlushStart(tid, fp', conn) => FlushStartUnsent(r, tid, fp', conn, fp);
    case FlushSent(tid) => FlushSentUnsent(r, tid, fp);
    case _ => UnsentKept(r, DoRelay(r, s), fp);
  }

  lemma {:induction false} EveryOneFlushRunIsUnsent(now: int, run: seq<RelayStep>, fp: Bytes)
    requires RelayAdmissible(EmptyRelay(now), run, OneFlush(fp))
    ensures UnsentOk(RelayRun(EmptyRelay(now), run, OneFlush(fp)), fp)
  {
    if run == [] {
      assert UnsentOk(EmptyRelay(now), fp);
    } else {
      hide UnsentOk, Placed, Conserved, DoRelay, Allowed, RelayEnabled;
      var front := run[..|run| - 1];
      EveryOneFlushRunIsUnsent(now, front, fp);
      EveryRunIsPlaced(now, front, OneFlush(fp));
      EveryRunConserves(now, front, OneFlush(fp));
      OwnMailboxFrom(RelayRun(EmptyRelay(now), front, OneFlush(fp)));
      StepUnsent(RelayRun(EmptyRelay(now), front, OneFlush(fp)), run[|run| - 1], fp);
    }
  }

  lemma CleanIffNothingLate(r: Relay, fp: Bytes, tid: nat)
    requires UnsentOk(r, fp) && Placed(r) && tid in r.flushes && r.flushes[tid].fp == fp
    ensures Clean(r, r.flushes[tid]) <==> r.flushes[tid].late == {}
  {
    hide Log, Known, IdsOk;
    assert LateUnsent(r.flushes[tid], Log(r.sentTo, fp));
  }

  /**
   * When moreover flushes for `fp` do not overlap: the final delete keeps every packet for `fp`
   * accounted for if and only if nothing was enqueued since the snapshot.
   */
  lemma DeleteKeepsAllIff(now: int, run: seq<RelayStep>, fp: Bytes, tid: nat)
    requires RelayAdmissible(EmptyRelay(now), run, OneFlush(fp))
    requires RelayEnabled(RelayRun(EmptyRelay(now), run, OneFlush(fp)), FlushDone(tid))
    requires RelayRun(EmptyRelay(now), run, OneFlush(fp)).flushes[tid].fp == fp
    ensures
      var r := RelayRun(EmptyRelay(now), run, OneFlush(fp));
      AllAccounted(DoRelay(r, FlushDone(tid)), fp) <==> r.flushes[tid].late == {}
  {
    hide RelayRun, RelayAdmissible, AllAccounted, Clean, DoRelay, Placed, UnsentOk;
    DeleteKeepsAllIffClean(now, run, fp, OneFlush(fp), tid);
    EveryOneFlushRunIsUnsent(now, run, fp);
    EveryRunIsPlaced(now, run, OneFlush(fp));
    CleanIffNothingLate(RelayRun(EmptyRelay(now), run, OneFlush(fp)), fp, tid);
  }

  /** Both happen: in this run, admissible in either mode, a packet is enqueued during the flush. */
  lemma SomethingIsLate(now: int, fp: Bytes, conn: ConnId, first: Bytes, second: Bytes, mode: Mode)
    requires Routable(first) && Routable(second) && Recipient(first) == Recipient(second) == fp
    requires mode == Orderly(fp) || mode == OneFlush(fp)
    ensures RelayAdmissible(EmptyRelay(now), LateRun(fp, conn, first, second), mode)
    ensures
      var r := RelayRun(EmptyRelay(now), LateRun(fp, conn, first, second), mode);
      RelayEnabled(r, FlushDone(0)) && r.flushes[0].fp == fp && !Clean(r, r.flushes[0])
  {
    hide RelayRun, RelayAdmissible, LateRun, Routable, Recipient;
    ReachLateRun(now, fp, conn, first, second, mode);
  }
}
