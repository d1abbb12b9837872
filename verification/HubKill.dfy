/** What killing a connection stops: the writer, the manager and the fan-out itself all
    kill connections while the port's worker is at work. */
module HubKill {
  import opened Prelude
  import opened HubModel
  import opened HubAttach
  import opened HubDelivery
  import opened HubLifecycle
  import opened HubInvariant

  /** A worker has looked at c's done channel, found it open, and has not sent yet. */
  predicate PastTheLook(s: State, c: ConnId, p: PortId) {
    p in s.ports && s.ports[p].worker.FanTry? && s.ports[p].worker.c == c
  }

  /** c's own reader has, while it opens a port. */
  predicate OpeningPastTheLook(k: Conn) { k.reader.OpenHold? && !k.reader.sawDone }

  /** Somebody is between the two selects of an enqueue to c. */
  ghost predicate EnqueueUnderWay(s: State, c: ConnId)
    requires c in s.conns
  {
    OpeningPastTheLook(s.conns[c]) || exists p :: PastTheLook(s, c, p)
  }

  function DataQueued(k: Conn): (n: nat) { |DataOf(k.enq)| }

  /** At most one enqueue to a connection is under way. */
  lemma OnlyOneUnderWay(cfg: Config, s: State, c: ConnId, p: PortId)
    requires Inv(cfg, s) && c in s.conns && PastTheLook(s, c, p)
    ensures !s.conns[c].reader.OpenHold?
    ensures forall p2 :: PastTheLook(s, c, p2) ==> p2 == p
  {
    hide Flow, PortFlow, LifeOk, ConnFlow, Observers, Managed, Balanced, Known;
    forall r | PastTheLook(s, c, r) ensures Holds(s.conns[c], r) {
      assert PortGood(cfg, s.m, r, s.ports[r], s.conns.Keys) && PairGood(cfg, c, s.conns[c], r, s.ports[r]);
    }
    assert ConnGood(s.conns[c], s.ports.Keys);
    assert Holds(s.conns[c], p);
  }

  lemma ConnStepAfterKill(k: Conn, e: ConnEv)
    requires ConnCan(k, e) && k.done
    ensures var k' := ConnDo(k, e);
            k'.done && DataQueued(k') == DataQueued(k) && (OpeningPastTheLook(k') ==> OpeningPastTheLook(k))
  {
    if e.SendPush? || e.Notice? {
      DataOfAppend(k.enq, Ctrl);
    } else {
      ConnStepQueuesNothing(k, e);
    }
  }

  lemma OuterStepLooksAtNobody(cfg: Config, m: Mgr, p: PortId, q: Port, e: PortEv)
    requires PortCan(m, p, q, e) && !ByOthers(e) && !AtFanout(e)
    ensures !PortDo(cfg, m, p, q, e).q.worker.FanTry?
  {
  }

  /** A port's own step sends nothing, and does not get past a look. */
  lemma PortStepLooksAtNobody(cfg: Config, m: Mgr, p: PortId, q: Port, e: PortEv)
    requires PortCan(m, p, q, e)
    ensures PortDo(cfg, m, p, q, e).q.worker.FanTry? ==> q.worker == PortDo(cfg, m, p, q, e).q.worker
  {
    if ByOthers(e) || AtFanout(e) {
    } else {
      OuterStepLooksAtNobody(cfg, m, p, q, e);
    }
  }

  /** The steps of an enqueue, once c is done: a look finds that, a send is the last. */
  lemma FanStepAfterKill(cfg: Config, m: Mgr, c: ConnId, k: Conn, p: PortId, q: Port, e: PairEv)
    requires PairCan(m, c, k, p, q, e) && k.done && (e.FanCheck? || e.FanPush?)
    ensures var r := PairDo(cfg, m, c, k, p, q, e);
            && r.k.done && r.k.reader == k.reader && !r.q.worker.FanTry?
            && DataQueued(r.k) <= DataQueued(k) + if e.FanPush? then 1 else 0
  {
    if e.FanPush? { DataOfAppend(k.enq, Data(q.worker.chunk)); }
  }

  lemma OpenStepAfterKill(cfg: Config, m: Mgr, c: ConnId, k: Conn, p: PortId, q: Port, e: PairEv)
    requires PairCan(m, c, k, p, q, e) && k.done && (e.OpenLock? || e.OpenFinish?)
    ensures var r := PairDo(cfg, m, c, k, p, q, e);
            && r.k.done && !OpeningPastTheLook(r.k) && r.q.worker == q.worker
            && DataQueued(r.k) <= DataQueued(k) + if OpeningPastTheLook(k) then 1 else 0
  {
    if e.OpenFinish? { DataOfAppend(k.enq, Data(k.reader.backlog)); }
  }

  lemma QuietStepAfterKill(cfg: Config, m: Mgr, c: ConnId, k: Conn, p: PortId, q: Port, e: PairEv)
    requires PairCan(m, c, k, p, q, e) && k.done && Quiet(e)
    ensures var r := PairDo(cfg, m, c, k, p, q, e);
            && r.k.done && !OpeningPastTheLook(r.k) && r.k.enq == k.enq
            && (r.q.worker.FanTry? ==> r.q.worker == q.worker)
  {
  }

  /** A step on another connection's behalf. */
  lemma OtherPairStep(cfg: Config, m: Mgr, d: ConnId, k: Conn, p: PortId, q: Port, e: PairEv)
    requires PairCan(m, d, k, p, q, e)
    ensures var w := PairDo(cfg, m, d, k, p, q, e).q.worker; w.FanTry? ==> w == q.worker || w.c == d
  {
    if e.FanCheck? {
    } else if e.FanPush? {
    } else {
    }
  }

  /** Data frames queued for c, and the one that an enqueue under way may still queue. */
  ghost function MayBeQueued(s: State, c: ConnId): (n: nat)
    requires c in s.conns
  {
    DataQueued(s.conns[c]) + if EnqueueUnderWay(s, c) then 1 else 0
  }

  /** Nothing gets under way, if no worker newly gets past a look, nor c's reader. */
  lemma NothingNew(s: State, s': State, c: ConnId)
    requires c in s.conns && c in s'.conns && DataQueued(s'.conns[c]) <= DataQueued(s.conns[c])
    requires OpeningPastTheLook(s'.conns[c]) ==> OpeningPastTheLook(s.conns[c])
    requires forall p | PastTheLook(s', c, p) :: PastTheLook(s, c, p)
    ensures MayBeQueued(s', c) <= MayBeQueued(s, c)
  {
    hide PastTheLook, OpeningPastTheLook, DataQueued;
  }

  lemma SameReaderSameOpening(k: Conn, k': Conn)
    ensures k'.reader == k.reader ==> OpeningPastTheLook(k') == OpeningPastTheLook(k)
  {
  }

  lemma PushIsPastTheLook(s: State, c: ConnId, p: PortId)
    requires Can(s, OnPair(c, p, FanPush))
    ensures PastTheLook(s, c, p)
  {
  }

  lemma NotOpening(k: Conn)
    ensures !k.reader.OpenHold? ==> !OpeningPastTheLook(k)
  {
  }

  lemma SameQueueSameData(k: Conn, k': Conn)
    ensures k'.enq == k.enq ==> DataQueued(k') == DataQueued(k)
  {
  }

  lemma PairStepOnKilled(cfg: Config, s: State, c: ConnId, p: PortId, e: PairEv)
    requires Inv(cfg, s) && Can(s, OnPair(c, p, e)) && s.conns[c].done
    ensures var s' := Do(cfg, s, OnPair(c, p, e));
            c in s'.conns && s'.conns[c].done && MayBeQueued(s', c) <= MayBeQueued(s, c)
  {
    hide Inv, PairDo, PairCan, DataQueued, OpeningPastTheLook;
    var s' := Do(cfg, s, OnPair(c, p, e));
    var k, q := s.conns[c], s.ports[p];
    if e.FanCheck? || e.FanPush? {
      FanStepAfterKill(cfg, s.m, c, k, p, q, e);
      SameReaderSameOpening(k, s'.conns[c]);
      if e.FanPush? {
        PushIsPastTheLook(s, c, p);
        OnlyOneUnderWay(cfg, s, c, p);
        NotOpening(s'.conns[c]);
        assert forall r :: PastTheLook(s', c, r) ==> r != p && PastTheLook(s, c, r);
        assert !EnqueueUnderWay(s', c);
      } else {
        NothingNew(s, s', c);
      }
    } else if e.OpenLock? || e.OpenFinish? {
      OpenStepAfterKill(cfg, s.m, c, k, p, q, e);
      if OpeningPastTheLook(k) {
        assert forall r :: PastTheLook(s', c, r) ==> PastTheLook(s, c, r);
        NotOpening(k);
        forall r ensures !PastTheLook(s, c, r) {
          if PastTheLook(s, c, r) { OnlyOneUnderWay(cfg, s, c, r); }
        }
        assert !EnqueueUnderWay(s', c);
      } else {
        NothingNew(s, s', c);
      }
    } else {
      QuietStepAfterKill(cfg, s.m, c, k, p, q, e);
      SameQueueSameData(k, s'.conns[c]);
      NothingNew(s, s', c);
    }
  }

  lemma StepAfterKill(cfg: Config, s: State, e: Event, c: ConnId)
    requires Inv(cfg, s) && Can(s, e) && c in s.conns && s.conns[c].done
    ensures var s' := Do(cfg, s, e);
            c in s'.conns && s'.conns[c].done && MayBeQueued(s', c) <= MayBeQueued(s, c)
  {
    hide Inv, ConnDo, PortDo, PairDo, ConnCan, PortCan, PairCan, DataQueued, MayBeQueued, EnqueueUnderWay;
    var s' := Do(cfg, s, e);
    match e
    case OnConn(d, ce) =>
      if d == c { ConnStepAfterKill(s.conns[c], ce); }
      NothingNew(s, s', c);
    case ResolveTo(d, p) =>
      SameQueueSameData(s.conns[c], s'.conns[c]);
      NothingNew(s, s', c);
    case CloserKills(d) =>
      SameQueueSameData(s.conns[c], s'.conns[c]);
      NothingNew(s, s', c);
    case OnPort(p, pe) =>
      PortStepLooksAtNobody(cfg, s.m, p, s.ports[p], pe);
      NothingNew(s, s', c);
    case OnPair(d, p, pe) =>
      if d == c {
        PairStepOnKilled(cfg, s, c, p, pe);
      } else {
        OtherPairStep(cfg, s.m, d, s.conns[d], p, s.ports[p], pe);
        NothingNew(s, s', c);
      }
    case OnMgr(me) => NothingNew(s, s', c);
  }

  lemma {:induction false} RunAfterKill(cfg: Config, s: State, es: seq<Event>, c: ConnId)
    requires Inv(cfg, s) && IsRun(cfg, s, es) && c in s.conns && s.conns[c].done
    ensures var s' := StateAfter(cfg, s, es);
            c in s'.conns && s'.conns[c].done && MayBeQueued(s', c) <= MayBeQueued(s, c)
    decreases |es|
  {
    hide Inv, Can, Do, MayBeQueued;
    if es != [] {
      var front := es[..|es| - 1];
      RunAfterKill(cfg, s, front, c);
      RunKeepsInv(cfg, s, front);
      StepAfterKill(cfg, StateAfter(cfg, s, front), es[|es| - 1], c);
    }
  }

  /** A killed connection stays killed, and however long the rest runs it is queued at
      most one more data frame: the one whose sender had looked at done before, and none
      at all if nobody had. */
  lemma KilledClientGetsAtMostOneMore(cfg: Config, es: seq<Event>, more: seq<Event>, c: ConnId)
    requires IsRun(cfg, INIT, es) && IsRun(cfg, Reached(cfg, es), more)
    requires c in Reached(cfg, es).conns && Reached(cfg, es).conns[c].done
    ensures var s := Reached(cfg, es); var s' := StateAfter(cfg, s, more);
            && c in s'.conns && s'.conns[c].done
            && |DataOf(s'.conns[c].enq)| <= |DataOf(s.conns[c].enq)| + if EnqueueUnderWay(s, c) then 1 else 0
  {
    hide Inv, IsRun, StateAfter, EnqueueUnderWay;
    ReachedInv(cfg, es);
    RunAfterKill(cfg, Reached(cfg, es), more, c);
  }
}
