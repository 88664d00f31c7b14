/** First occurrences: what deduplicating a sequence keeps. */
module FirstOccurrences {
  /** Each element once, at its first place. */
  function Dedup<T(==,!new)>(s: seq<T>): (r: seq<T>)
    ensures forall x :: x in r <==> x in s
  {
    if s == [] then []
    else
      var front, last := s[..|s| - 1], s[|s| - 1];
      if last in front then Dedup(front) else Dedup(front) + [last]
  }

  lemma DedupSnoc<T(!new)>(s: seq<T>, x: T)
    ensures Dedup(s + [x]) == if x in s then Dedup(s) else Dedup(s) + [x]
  {
    assert (s + [x])[..|s|] == s;
  }

  /** Equal so far, equal after the same continuation. */
  lemma {:induction false} DedupCongruence<T(!new)>(u: seq<T>, v: seq<T>, w: seq<T>)
    requires Dedup(u) == Dedup(v)
    ensures Dedup(u + w) == Dedup(v + w)
  {
    if w == [] {
      assert u + w == u && v + w == v;
    } else {
      var front, x := w[..|w| - 1], w[|w| - 1];
      DedupCongruence(u, v, front);
      assert u + w == (u + front) + [x] && v + w == (v + front) + [x];
      DedupSnoc(u + front, x);
      DedupSnoc(v + front, x);
      assert x in u + front <==> x in Dedup(u + front);
      assert x in v + front <==> x in Dedup(v + front);
    }
  }

  /** Repeats at the end change nothing. */
  lemma {:induction false} DedupAbsorbs<T(!new)>(u: seq<T>, w: seq<T>)
    requires forall x :: x in w ==> x in u
    ensures Dedup(u + w) == Dedup(u)
  {
    if w == [] {
      assert u + w == u;
    } else {
      var front, x := w[..|w| - 1], w[|w| - 1];
      assert forall y :: y in front ==> y in w;
      DedupAbsorbs(u, front);
      assert u + w == (u + front) + [x];
      assert x in w;
      DedupSnoc(u + front, x);
    }
  }

  lemma AgainChangesNothing<T(!new)>(u: seq<T>, again: seq<T>, w: seq<T>)
    requires forall x :: x in again ==> x in u
    ensures Dedup(u + again + w) == Dedup(u + w)
  {
    DedupAbsorbs(u, again);
    DedupCongruence(u + again, u, w);
  }

  /** A continuation only adds at the end. */
  lemma {:induction false} DedupPrefix<T(!new)>(u: seq<T>, w: seq<T>)
    ensures Dedup(u) <= Dedup(u + w)
  {
    if w == [] {
      assert u + w == u;
    } else {
      var front, x := w[..|w| - 1], w[|w| - 1];
      DedupPrefix(u, front);
      assert u + w == (u + front) + [x];
      DedupSnoc(u + front, x);
    }
  }

  lemma {:induction false} DedupOfDistinct<T(!new)>(s: seq<T>)
    requires forall i, j :: 0 <= i < j < |s| ==> s[i] != s[j]
    ensures Dedup(s) == s
  {
    if s != [] {
      DedupOfDistinct(s[..|s| - 1]);
    }
  }

  /**
   * When both `y` and `u`, sent after `s`, bring what is new in the order of `d`, so do `y` and then
   * `u`; and nothing that `u` would have completed is missing then.
   */
  lemma {:induction false} SendOne<T(!new)>(s: seq<T>, y: T, u: seq<T>, d: seq<T>)
    requires Dedup(s + [y]) <= d && Dedup(s + u) <= d
    ensures Dedup((s + [y]) + u) <= d
    ensures Dedup(s + u) == d ==> Dedup((s + [y]) + u) == d
    decreases |u|
  {
    DedupSnoc(s, y);
    if u == [] {
      assert (s + [y]) + u == s + [y] && s + u == s;
    } else {
      var z, rest := u[0], u[1..];
      assert u == [z] + rest && s + u == (s + [z]) + rest && (s + [y]) + u == ((s + [y]) + [z]) + rest;
      if z in s {
        AgainChangesNothing(s, [z], rest);
        AgainChangesNothing(s + [y], [z], rest);
        SendOne(s, y, rest, d);
      } else if y in s {
        AgainChangesNothing(s, [y], u);
      } else {
        DedupSnoc(s, z);
        DedupPrefix(s + [z], rest);
        assert z == d[|Dedup(s)|] == y;
        AgainChangesNothing(s + [y], [z], rest);
      }
    }
  }

  /** The same for any number of packets sent, one after another. */
  lemma {:induction false} SendMany<T(!new)>(s: seq<T>, v: seq<T>, u: seq<T>, d: seq<T>)
    requires Dedup(s + v) <= d && Dedup(s + u) <= d
    ensures Dedup(s + (v + u)) <= d
    ensures Dedup(s + u) == d ==> Dedup(s + (v + u)) == d
    decreases |v|
  {
    if v == [] {
      assert v + u == u;
    } else {
      var y, rest := v[0], v[1..];
      assert s + v == (s + [y]) + rest && s + (v + u) == (s + [y]) + (rest + u);
      DedupPrefix(s + [y], rest);
      SendOne(s, y, u, d);
      SendMany(s + [y], rest, u, d);
    }
  }
}

/** The order in which a recipient gets the packets that went through its mailbox. */
module RelayOrder {
  import opened Common
  import opened Relays
  import opened RelayRuns
  import opened RelayLoss
  import opened RelayIds
  import opened FirstOccurrences

  /** What flush `f` has still to send brings nothing out of order. */
  ghost predicate InOrder(f: Flush, sent: seq<Item>, firsts: seq<Item>)
  {
    f.sent <= |f.pkts| && Dedup(sent + f.pkts[f.sent..]) <= firsts
  }

  ghost predicate FlushesInOrder(flushes: map<nat, Flush>, fp: Bytes, sent: seq<Item>, firsts: seq<Item>)
  {
    forall t :: t in flushes && flushes[t].fp == fp ==> InOrder(flushes[t], sent, firsts)
  }

  ghost predicate NoneOf(xs: set<Item>, fp: Bytes)
  {
    forall x :: x in xs ==> x.fp != fp
  }

  /** Nothing for `fp` was evicted or thrown away. */
  ghost predicate NoneLost(r: Relay, fp: Bytes)
  {
    NoneOf(r.evicted, fp) && NoneOf(r.dropped, fp)
  }

  ghost predicate OrderOk(r: Relay, fp: Bytes)
  {
    && NoneLost(r, fp)
    && Dedup(Log(r.sentTo, fp) + Pending(r.boxes, fp)) == Dedup(Log(r.taken, fp))
    && FlushesInOrder(r.flushes, fp, Log(r.sentTo, fp), Dedup(Log(r.taken, fp)))
  }

  /** What the order for `fp` depends on is the same in both states. */
  lemma OrderFrame(r: Relay, r': Relay, fp: Bytes)
    requires OrderOk(r, fp) && NoneLost(r', fp)
    requires Log(r'.sentTo, fp) == Log(r.sentTo, fp) && Pending(r'.boxes, fp) == Pending(r.boxes, fp)
    requires Log(r'.taken, fp) == Log(r.taken, fp)
    requires forall t :: t in r'.flushes && r'.flushes[t].fp == fp ==> t in r.flushes && r'.flushes[t] == r.flushes[t]
    ensures OrderOk(r', fp)
  {
    hide NoneLost, Dedup, Log, Pending, InOrder;
  }

  lemma NoneLostFrom(r: Relay, fp: Bytes)
    requires OrderOk(r, fp)
    ensures NoneLost(r, fp)
  {
    hide NoneLost, FlushesInOrder, Dedup, Log, Pending;
  }

  /** Steps that neither evict nor throw away. */
  lemma NoneLostKept(r: Relay, r': Relay, fp: Bytes)
    requires NoneLost(r, fp) && r'.evicted == r.evicted && r'.dropped == r.dropped
    ensures NoneLost(r', fp)
  {
    hide NoneOf;
  }

  // ---------------------------------------------------------------- the steps keep the order

  lemma OthersNotMarked(flushes: map<nat, Flush>, x: Item, fp: Bytes)
    requires x.fp != fp
    ensures forall t :: t in MarkLate(flushes, x) && MarkLate(flushes, x)[t].fp == fp ==>
              t in flushes && MarkLate(flushes, x)[t] == flushes[t]
  {}

  /** A longer history leaves flushes under way in order, marked or not. */
  lemma EnqueueKeepsFlushes(flushes: map<nat, Flush>, x: Item, sent: seq<Item>, history: seq<Item>)
    requires FlushesInOrder(flushes, x.fp, sent, Dedup(history))
    ensures FlushesInOrder(MarkLate(flushes, x), x.fp, sent, Dedup(history + [x]))
  {
    DedupPrefix(history, [x]);
    hide Dedup;
    var flushes' := MarkLate(flushes, x);
    forall t | t in flushes' && flushes'[t].fp == x.fp
      ensures InOrder(flushes'[t], sent, Dedup(history + [x]))
    {
      assert InOrder(flushes[t], sent, Dedup(history));
    }
  }

  /** An item enqueued for `fp` itself. */
  lemma PutInOwnOrder(r: Relay, x: Item)
    requires OrderOk(r, x.fp)
    ensures OrderOk(PutIn(r, x), x.fp)
  {
    var sent, box, history := Log(r.sentTo, x.fp), Pending(r.boxes, x.fp), Log(r.taken, x.fp);
    LogAfterAppend(r.taken, x, x.fp);
    PendingAfterPutIn(r, x, x.fp);
    hide NoneLost, FlushesInOrder, Dedup, Append, Enqueue, Log, Pending, MarkLate;
    NoneLostFrom(r, x.fp);
    NoneLostKept(r, PutIn(r, x), x.fp);
    EnqueueKeepsFlushes(r.flushes, x, sent, history);
    DedupCongruence(sent + box, history, [x]);
    assert sent + (box + [x]) == (sent + box) + [x];
  }

  lemma PutInOtherOrder(r: Relay, x: Item, fp: Bytes)
    requires OrderOk(r, fp) && x.fp != fp
    ensures OrderOk(PutIn(r, x), fp)
  {
    LogAfterAppend(r.taken, x, fp);
    PendingAfterPutIn(r, x, fp);
    OthersNotMarked(r.flushes, x, fp);
    hide OrderOk, NoneLost, Append, Enqueue, Log, Pending, MarkLate;
    NoneLostFrom(r, fp);
    NoneLostKept(r, PutIn(r, x), fp);
    OrderFrame(r, PutIn(r, x), fp);
  }

  lemma PutInOrder(r: Relay, x: Item, fp: Bytes)
    requires OrderOk(r, fp)
    ensures OrderOk(PutIn(r, x), fp)
  {
    hide OrderOk, PutIn;
    if x.fp == fp {
      PutInOwnOrder(r, x);
    } else {
      PutInOtherOrder(r, x, fp);
    }
  }

  lemma RouteInOrder(r: Relay, tid: nat, raw: Bytes, fp: Bytes)
    requires OrderOk(r, fp)
    ensures OrderOk(DoRouteIn(r, tid, raw), fp)
  {
    hide OrderOk, Routable, Recipient, PutIn, NoneLost, Log, Pending;
    if Routable(raw) {
      var x := NewItem(r, raw);
      var r1 := r.(routed := r.routed + [x]);
      NoneLostFrom(r, fp);
      NoneLostKept(r, r1, fp);
      OrderFrame(r, r1, fp);
      if x.fp in r.clients {
        NoneLostKept(r, DoRouteIn(r, tid, raw), fp);
        OrderFrame(r, DoRouteIn(r, tid, raw), fp);
      } else {
        PutInOrder(r1, x, fp);
      }
    }
  }

  lemma RouteFailedOrder(r: Relay, tid: nat, fp: Bytes)
    requires OrderOk(r, fp) && tid in r.flights
    ensures OrderOk(DoRouteFailed(r, tid), fp)
  {
    hide OrderOk, NoneLost, PutIn, Log, Pending;
    var x := r.flights[tid].item;
    var r1 := r.(clients := r.clients - {x.fp}, flights := r.flights - {tid});
    NoneLostFrom(r, fp);
    NoneLostKept(r, r1, fp);
    OrderFrame(r, r1, fp);
    PutInOrder(r1, x, fp);
  }

  /** Nothing that is pending or in a flush is unsent: a direct send comes in its turn. */
  lemma DirectSendInTurn(flushes: map<nat, Flush>, y: Item, sent: seq<Item>, box: seq<Item>, history: seq<Item>)
    requires Dedup(sent + box) == Dedup(history) && FlushesInOrder(flushes, y.fp, sent, Dedup(history))
    requires forall x :: x in box ==> x in sent
    ensures Dedup((sent + [y]) + box) == Dedup(history + [y])
    ensures FlushesInOrder(flushes, y.fp, sent + [y], Dedup(history + [y]))
  {
    DedupAbsorbs(sent, box);
    DedupCongruence(sent, history, [y]);
    DedupAbsorbs(sent + [y], box);
    forall t | t in flushes && flushes[t].fp == y.fp
      ensures InOrder(flushes[t], sent + [y], Dedup(history + [y]))
    {
      var tail := flushes[t].pkts[flushes[t].sent..];
      assert InOrder(flushes[t], sent, Dedup(history));
      NothingNew(sent, tail);
      DedupAbsorbs(sent + [y], tail);
    }
  }

  /** A continuation that adds no first occurrence repeats what was there. */
  lemma NothingNew(sent: seq<Item>, tail: seq<Item>)
    requires Dedup(sent + tail) <= Dedup(sent)
    ensures forall x :: x in tail ==> x in sent
  {
    forall x | x in tail
      ensures x in sent
    {
      assert x in Dedup(sent + tail);
    }
  }

  lemma RouteSentOrder(r: Relay, tid: nat, fp: Bytes)
    requires OrderOk(r, fp) && tid in r.flights
    requires r.flights[tid].item.fp == fp ==> NothingUnsent(r, fp)
    ensures OrderOk(DoRouteSent(r, tid), fp)
  {
    var x := r.flights[tid].item;
    LogAfterAppend(r.sentTo, x, fp);
    LogAfterAppend(r.taken, x, fp);
    hide NoneLost, Dedup, Append, Log, Pending, FlushesInOrder;
    NoneLostFrom(r, fp);
    NoneLostKept(r, DoRouteSent(r, tid), fp);
    if x.fp == fp {
      DirectSendInTurn(r.flushes, x, Log(r.sentTo, fp), Pending(r.boxes, fp), Log(r.taken, fp));
    } else {
      hide OrderOk;
      OrderFrame(r, DoRouteSent(r, tid), fp);
    }
  }

  lemma FlushStartOrder(r: Relay, tid: nat, fp': Bytes, conn: ConnId, fp: Bytes)
    requires OrderOk(r, fp) && tid !in r.flushes
    ensures OrderOk(DoFlushStart(r, tid, fp', conn), fp)
  {
    hide Dedup, Log, Pending, NoneOf;
    var pkts := Pending(r.boxes, fp');
    assert pkts[0..] == pkts;
  }

  lemma NextIsOwn(r: Relay, tid: nat)
    requires OwnMailbox(r) && tid in r.flushes && r.flushes[tid].sent < |r.flushes[tid].pkts|
    ensures r.flushes[tid].pkts[r.flushes[tid].sent].fp == r.flushes[tid].fp
  {
    assert r.flushes[tid].pkts[r.flushes[tid].sent] in r.flushes[tid].pkts;
  }

  /** A send by one flush keeps every flush for the recipient in order, and the mailbox too. */
  lemma SendKeepsOrder(flushes: map<nat, Flush>, tid: nat, sent: seq<Item>, box: seq<Item>, firsts: seq<Item>)
    requires tid in flushes && flushes[tid].sent < |flushes[tid].pkts|
    requires FlushesInOrder(flushes, flushes[tid].fp, sent, firsts) && Dedup(sent + box) == firsts
    ensures
      var f := flushes[tid];
      var sent' := sent + [f.pkts[f.sent]];
      && Dedup(sent' + box) == firsts
      && FlushesInOrder(flushes[tid := f.(sent := f.sent + 1)], f.fp, sent', firsts)
  {
    hide Dedup;
    var f := flushes[tid];
    var y := f.pkts[f.sent];
    assert InOrder(f, sent, firsts);
    assert sent + f.pkts[f.sent..] == (sent + [y]) + f.pkts[f.sent + 1..];
    DedupPrefix(sent + [y], f.pkts[f.sent + 1..]);
    SendOne(sent, y, box, firsts);
    forall t | t in flushes && t != tid && flushes[t].fp == f.fp
      ensures InOrder(flushes[t], sent + [y], firsts)
    {
      assert InOrder(flushes[t], sent, firsts);
      SendOne(sent, y, flushes[t].pkts[flushes[t].sent..], firsts);
    }
  }

  lemma FlushSentOrder(r: Relay, tid: nat, fp: Bytes)
    requires OrderOk(r, fp) && OwnMailbox(r) && tid in r.flushes && r.flushes[tid].sent < |r.flushes[tid].pkts|
    ensures OrderOk(DoFlushSent(r, tid), fp)
  {
    var f := r.flushes[tid];
    NextIsOwn(r, tid);
    LogAfterAppend(r.sentTo, f.pkts[f.sent], fp);
    NoneLostFrom(r, fp);
    hide OwnMailbox, NoneLost, Dedup, Append, Log, Pending, FlushesInOrder;
    NoneLostKept(r, DoFlushSent(r, tid), fp);
    if f.fp == fp {
      SendKeepsOrder(r.flushes, tid, Log(r.sentTo, fp), Pending(r.boxes, fp), Dedup(Log(r.taken, fp)));
    } else {
      hide OrderOk;
      OrderFrame(r, DoFlushSent(r, tid), fp);
    }
  }

  /** A flush that fails puts its tail in front of whatever the mailbox holds: nothing gets out of order. */
  lemma FlushFailedOrder(r: Relay, tid: nat, fp: Bytes)
    requires OrderOk(r, fp) && tid in r.flushes && r.flushes[tid].sent < |r.flushes[tid].pkts|
    ensures OrderOk(DoFlushFailed(r, tid), fp)
  {
    var f := r.flushes[tid];
    PendingAfterRequeue(r.boxes, f.fp, f.pkts[f.sent..], r.now, fp);
    NoneLostFrom(r, fp);
    hide NoneLost, Dedup, Log, Pending, Requeue;
    NoneLostKept(r, DoFlushFailed(r, tid), fp);
    if f.fp == fp {
      assert InOrder(f, Log(r.sentTo, fp), Dedup(Log(r.taken, fp)));
      SendMany(Log(r.sentTo, fp), f.pkts[f.sent..], Pending(r.boxes, fp), Dedup(Log(r.taken, fp)));
    } else {
      hide OrderOk, FlushesInOrder;
      OrderFrame(r, DoFlushFailed(r, tid), fp);
    }
  }

  /** At a clean final delete everything in the mailbox has been sent. */
  lemma CleanMeansSent(r: Relay, tid: nat)
    requires tid in r.flushes && r.flushes[tid].sent == |r.flushes[tid].pkts| && Clean(r, r.flushes[tid])
    requires NoneLost(r, r.flushes[tid].fp) && Conserved(r)
    ensures forall x :: x in Pending(r.boxes, r.flushes[tid].fp) ==> x in Log(r.sentTo, r.flushes[tid].fp)
    ensures NoneOf(ThrownAway(r, r.flushes[tid]), r.flushes[tid].fp)
  {
    hide Log;
    assert FlushCovers(r, r.flushes[tid]);
  }

  lemma OtherThrownAway(r: Relay, tid: nat, fp: Bytes)
    requires OwnMailbox(r) && tid in r.flushes && r.flushes[tid].fp != fp
    ensures NoneOf(ThrownAway(r, r.flushes[tid]), fp)
  {
    hide WasSent;
  }

  lemma FlushDoneOrder(r: Relay, tid: nat, fp: Bytes)
    requires OrderOk(r, fp) && Conserved(r) && tid in r.flushes && r.flushes[tid].sent == |r.flushes[tid].pkts|
    requires r.flushes[tid].fp == fp ==> Clean(r, r.flushes[tid])
    ensures OrderOk(DoFlushDone(r, tid), fp)
  {
    var f := r.flushes[tid];
    var r' := DoFlushDone(r, tid);
    assert Pending(r'.boxes, fp) == if f.fp == fp then [] else Pending(r.boxes, fp);
    NoneLostFrom(r, fp);
    hide OrderOk, Conserved, Log, Pending, ThrownAway;
    if f.fp == fp {
      CleanMeansSent(r, tid);
      EmptiedOrder(r, r', fp);
    } else {
      OwnMailboxFrom(r);
      OtherThrownAway(r, tid, fp);
      OrderFrame(r, r', fp);
    }
  }

  lemma OwnMailboxFrom(r: Relay)
    requires Conserved(r)
    ensures OwnMailbox(r)
  {
    hide AllCovered, OwnMailbox, FlushesCover;
  }

  lemma EmptiedOrder(r: Relay, r': Relay, fp: Bytes)
    requires OrderOk(r, fp) && NoneLost(r', fp)
    requires r'.sentTo == r.sentTo && r'.taken == r.taken && Pending(r'.boxes, fp) == []
    requires forall x :: x in Pending(r.boxes, fp) ==> x in Log(r.sentTo, fp)
    requires forall t :: t in r'.flushes ==> t in r.flushes && r'.flushes[t] == r.flushes[t]
    ensures OrderOk(r', fp)
  {
    hide NoneLost, Dedup, Log, Pending, InOrder;
    var sent := Log(r.sentTo, fp);
    DedupAbsorbs(sent, Pending(r.boxes, fp));
    assert sent + [] == sent;
  }

  lemma SweepOrder(r: Relay, fp: Bytes)
    requires OrderOk(r, fp) && OwnMailbox(r) && fp !in ExpiredBoxes(r)
    ensures OrderOk(DoSweep(r), fp)
  {
    var r' := DoSweep(r);
    assert Pending(r'.boxes, fp) == Pending(r.boxes, fp);
    NoneLostFrom(r, fp);
    hide OrderOk, Log, Pending, Evict;
    assert NoneLost(r', fp);
    hide ItemsOf, ExpiredBoxes, NoneLost, OwnMailbox;
    OrderFrame(r, r', fp);
  }

  lemma IdleOrder(r: Relay, s: RelayStep, fp: Bytes)
    requires OrderOk(r, fp) && RelayEnabled(r, s) && (s.Register? || s.Tick?)
    ensures OrderOk(DoRelay(r, s), fp)
  {
    NoneLostFrom(r, fp);
    hide OrderOk, NoneLost, Log, Pending;
    NoneLostKept(r, DoRelay(r, s), fp);
    OrderFrame(r, DoRelay(r, s), fp);
  }

  lemma StepOrder(r: Relay, s: RelayStep, fp: Bytes)
    requires OrderOk(r, fp) && Conserved(r) && RelayEnabled(r, s) && OrderlyStep(r, s, fp)
    ensures OrderOk(DoRelay(r, s), fp)
  {
    OwnMailboxFrom(r);
    hide OrderOk, Conserved, OwnMailbox, Clean, DoRouteIn, DoRouteSent, DoRouteFailed, DoFlushStart, DoFlushSent,
         DoFlushFailed, DoFlushDone, DoSweep, ExpiredBoxes, Routable, Recipient;
    match s
    case Register(_, _) => IdleOrder(r, s, fp);
    case Tick(_) => IdleOrder(r, s, fp);
    case RouteIn(tid, raw) => RouteInOrder(r, tid, raw, fp);
    case RouteSent(tid) => RouteSentOrder(r, tid, fp);
    case RouteFailed(tid) => RouteFailedOrder(r, tid, fp);
    case FlushStart(tid, fp', conn) => FlushStartOrder(r, tid, fp', conn, fp);
    case FlushSent(tid) => FlushSentOrder(r, tid, fp);
    case FlushFailed(tid) => FlushFailedOrder(r, tid, fp);
    case FlushDone(tid) => FlushDoneOrder(r, tid, fp);
    case Sweep => SweepOrder(r, fp);
  }

  lemma {:induction false} EveryOrderlyRun(now: int, run: seq<RelayStep>, fp: Bytes, mode: Mode)
    requires mode == Orderly(fp) || mode == OneFlush(fp)
    requires RelayAdmissible(EmptyRelay(now), run, mode)
    ensures OrderOk(RelayRun(EmptyRelay(now), run, mode), fp)
  {
    if run == [] {
      EmptyOrder(now, fp);
    } else {
      hide OrderOk, Conserved, DoRelay, OrderlyStep, RelayEnabled;
      EveryOrderlyRun(now, run[..|run| - 1], fp, mode);
      EveryRunConserves(now, run[..|run| - 1], mode);
      StepOrder(RelayRun(EmptyRelay(now), run[..|run| - 1], mode), run[|run| - 1], fp);
    }
  }

  lemma EmptyOrder(now: int, fp: Bytes)
    ensures OrderOk(EmptyRelay(now), fp)
  {}

  /**
   * First-occurrence order: whatever flushes overlap, succeed or fail at whatever index, and whatever
   * is enqueued meanwhile or sent directly in its turn, the first occurrences among the packets sent
   * so far followed by those pending are the packets taken on, in order; those sent so far are a
   * prefix of them.
   */
  lemma FirstOccurrencesInOrder(now: int, run: seq<RelayStep>, fp: Bytes)
    requires RelayAdmissible(EmptyRelay(now), run, Orderly(fp))
    ensures
      var r := RelayRun(EmptyRelay(now), run, Orderly(fp));
      && Dedup(Log(r.sentTo, fp) + Pending(r.boxes, fp)) == Dedup(Log(r.taken, fp))
      && Dedup(Log(r.sentTo, fp)) <= Dedup(Log(r.taken, fp))
  {
    hide Dedup, Log, Pending, FlushesInOrder, NoneLost, RelayRun, RelayAdmissible;
    EveryOrderlyRun(now, run, fp, Orderly(fp));
    var r := RelayRun(EmptyRelay(now), run, Orderly(fp));
    DedupPrefix(Log(r.sentTo, fp), Pending(r.boxes, fp));
  }

  // ---------------------------------------------------------------- direct sends

  ghost predicate InSendingOrder(r: Relay, fp: Bytes)
  {
    Dedup(Log(r.sentTo, fp) + Pending(r.boxes, fp)) == Dedup(Log(r.taken, fp))
  }

  /** Exactly when a direct send breaks the order: when the mailbox still holds something unsent. */
  lemma DirectSendKeepsOrderIff(now: int, run: seq<RelayStep>, fp: Bytes, tid: nat)
    requires RelayAdmissible(EmptyRelay(now), run, Orderly(fp))
    requires RelayEnabled(RelayRun(EmptyRelay(now), run, Orderly(fp)), RouteSent(tid))
    requires RelayRun(EmptyRelay(now), run, Orderly(fp)).flights[tid].item.fp == fp
    ensures
      var r := RelayRun(EmptyRelay(now), run, Orderly(fp));
      InSendingOrder(DoRelay(r, RouteSent(tid)), fp) <==> NothingUnsent(r, fp)
  {
    hide RelayRun, RelayAdmissible, OrderOk, Placed, InSendingOrder, NothingUnsent, DoRelay;
    EveryOrderlyRun(now, run, fp, Orderly(fp));
    EveryRunIsPlaced(now, run, Orderly(fp));
    DirectSendAtState(RelayRun(EmptyRelay(now), run, Orderly(fp)), fp, tid);
  }

  lemma DirectSendAtState(r: Relay, fp: Bytes, tid: nat)
    requires OrderOk(r, fp) && Placed(r) && tid in r.flights && r.flights[tid].item.fp == fp
    ensures InSendingOrder(DoRelay(r, RouteSent(tid)), fp) <==> NothingUnsent(r, fp)
  {
    var y := r.flights[tid].item;
    var sent, box, history := Log(r.sentTo, fp), Pending(r.boxes, fp), Log(r.taken, fp);
    LogAfterAppend(r.sentTo, y, fp);
    LogAfterAppend(r.taken, y, fp);
    AirborneIsNew(r, tid, fp);
    AirborneIsNotPending(r, tid, fp);
    hide NoneLost, Dedup, Append, Log, Pending, FlushesInOrder, Placed;
    assert Dedup(sent + box) == Dedup(history);
    assert InSendingOrder(DoRelay(r, RouteSent(tid)), fp) <==> Dedup((sent + [y]) + box) == Dedup(history + [y]);
    if forall x :: x in box ==> x in sent {
      DirectSendInTurn(map[], y, sent, box, history);
    } else {
      OvertakenBreaksOrder(y, sent, box, history);
    }
  }

  lemma AirborneIsNotPending(r: Relay, tid: nat, fp: Bytes)
    requires Placed(r) && tid in r.flights
    ensures r.flights[tid].item !in Pending(r.boxes, fp)
  {
    AirborneIsNew(r, tid, fp);
    hide Log, LateKnown, IdsOk;
    assert fp in r.boxes ==> AllIn(r.boxes[fp].packets, r.since);
  }

  lemma OvertakenBreaksOrder(y: Item, sent: seq<Item>, box: seq<Item>, history: seq<Item>)
    requires Dedup(sent + box) == Dedup(history) && y !in sent && y !in box
    requires exists z :: z in box && z !in sent
    ensures Dedup((sent + [y]) + box) != Dedup(history + [y])
  {
    var z :| z in box && z !in sent;
    assert z in Dedup(sent + box) && z !in Dedup(sent);
    assert y !in Dedup(history);
    DedupPrefix(sent, box);
    DedupSnoc(sent, y);
    DedupPrefix(sent + [y], box);
    DedupSnoc(history, y);
    hide Dedup;
    var n := |Dedup(sent)|;
    assert Dedup((sent + [y]) + box)[n] == y;
    assert n == |Dedup(history)| ==> Dedup(sent) == Dedup(history);
    assert Dedup(history)[n] in Dedup(history);
  }

  /** One that overtakes: a packet waits when its recipient registers, and the next is sent directly. */
  lemma DirectSendOvertakes(now: int, fp: Bytes, conn: ConnId, first: Bytes, second: Bytes)
    requires Routable(first) && Routable(second) && Recipient(first) == Recipient(second) == fp
    ensures
      var run := [RouteIn(0, first)] + [Register(fp, conn)] + [RouteIn(0, second)];
      && RelayAdmissible(EmptyRelay(now), run, Orderly(fp))
      && var r := RelayRun(EmptyRelay(now), run, Orderly(fp));
         RelayEnabled(r, RouteSent(0)) && r.flights[0].item.fp == fp && !NothingUnsent(r, fp)
  {
    hide Routable, Recipient, RelayRun, RelayAdmissible, DoRelay;
    var r0 := EmptyRelay(now);
    StartsAdmissible(r0, Orderly(fp));
    RunSnoc(r0, [], Orderly(fp), RouteIn(0, first));
    assert [] + [RouteIn(0, first)] == [RouteIn(0, first)];
    RunSnoc(r0, [RouteIn(0, first)], Orderly(fp), Register(fp, conn));
    OneWaits(now, fp, conn, first, second);
    RunSnoc(r0, [RouteIn(0, first)] + [Register(fp, conn)], Orderly(fp), RouteIn(0, second));
  }

  lemma OneWaits(now: int, fp: Bytes, conn: ConnId, first: Bytes, second: Bytes)
    requires Routable(first) && Routable(second) && Recipient(first) == Recipient(second) == fp
    ensures
      var r1 := DoRelay(DoRelay(EmptyRelay(now), RouteIn(0, first)), Register(fp, conn));
      && RelayEnabled(r1, RouteIn(0, second))
      && var r2 := DoRelay(r1, RouteIn(0, second));
         0 in r2.flights && r2.flights[0].item.fp == fp && !NothingUnsent(r2, fp)
  {
    hide Routable, Recipient;
    var r1 := DoRelay(DoRelay(EmptyRelay(now), RouteIn(0, first)), Register(fp, conn));
    var r2 := DoRelay(r1, RouteIn(0, second));
    assert Item(0, fp, first) in Pending(r2.boxes, fp) && Log(r2.sentTo, fp) == [];
  }
}
