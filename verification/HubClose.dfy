/** Close can return: wherever it stands, its own steps, the workers' and those of the
    clients that hold a port's lock bring it to its end. */
module HubClose {
  import opened Prelude
  import opened HubModel
  import opened HubAttach
  import opened HubDelivery
  import opened HubLifecycle
  import opened HubInvariant
  import opened HubTheorems
  import opened HubRuns

  /** Close kills only connections that are there. */
  predicate KillsKnown(s: State) { s.m.closer.Killing? ==> s.m.closer.todo <= s.conns.Keys }

  lemma PortStepKillsNobody(cfg: Config, m: Mgr, p: PortId, q: Port, e: PortEv)
    requires PortCan(m, p, q, e)
    ensures PortDo(cfg, m, p, q, e).m.closer.Killing? ==> PortDo(cfg, m, p, q, e).m.closer == m.closer
  {
  }

  lemma LifeOf(cfg: Config, s: State, p: PortId)
    requires Inv(cfg, s) && p in s.ports
    ensures LifeOk(s.m, p, s.ports[p]) && PortOk(cfg, s.ports[p]) && s.ports[p].conns <= s.conns.Keys
  {
    hide LifeOk, PortFlow, PortOk, ConnGood, PairGood, Managed, Balanced;
    assert PortGood(cfg, s.m, p, s.ports[p], s.conns.Keys);
  }

  lemma PairKeepsCloser(cfg: Config, s: State, c: ConnId, p: PortId, e: PairEv)
    requires Inv(cfg, s) && Can(s, OnPair(c, p, e))
    ensures var m' := Do(cfg, s, OnPair(c, p, e)).m;
            m'.closer == s.m.closer && m'.closed == s.m.closed && m'.scanner == s.m.scanner
  {
    hide Inv, PairDo, PairCan, LifeOk;
    LifeOf(cfg, s, p);
    PairStepCounts(cfg, s.m, c, s.conns[c], p, s.ports[p], e);
  }

  lemma StepKeepsKillsKnown(cfg: Config, s: State, e: Event)
    requires Inv(cfg, s) && Can(s, e) && KillsKnown(s)
    ensures KillsKnown(Do(cfg, s, e))
  {
    hide Inv, ConnDo, PortDo, PairDo, ConnCan, PairCan;
    match e
    case OnPort(p, pe) => PortStepKillsNobody(cfg, s.m, p, s.ports[p], pe);
    case OnPair(c, p, pe) => PairKeepsCloser(cfg, s, c, p, pe);
    case _ =>
  }

  lemma {:induction false} ReachedKillsKnown(cfg: Config, es: seq<Event>)
    requires IsRun(cfg, INIT, es)
    ensures KillsKnown(Reached(cfg, es))
    decreases |es|
  {
    hide Inv, Can, Do;
    if es != [] {
      ReachedInv(cfg, es[..|es| - 1]);
      ReachedKillsKnown(cfg, es[..|es| - 1]);
      StepKeepsKillsKnown(cfg, Reached(cfg, es[..|es| - 1]), es[|es| - 1]);
    }
  }

  // ------------------------------------------------------------------- what is left

  /** How far Close itself is from its end, with np ports. */
  function CloserLeft(closer: Closer, np: nat): (n: nat) {
    match closer
    case NotClosing => 0
    case Killing(todo, _) => |todo| + 3 * np + 7
    case Shutting(left, _) => |left| + 2 * np + 6
    case Waiting(_) => 2 * np + 5
    case Releasing(left, _) => 2 * |left| + 4
    case Noting(_, _, left, _) => 2 * |left| + 5
    case Closed(_) => 0
  }

  /** What a port still costs: its worker's steps, and the client that holds its lock. */
  function PortLeft(q: Port, n: nat): (r: nat) {
    StepsLeft(q.worker, n) + if q.lock.Some? && q.lock.value.ByReader? then 1 else 0
  }

  function Weight(n: nat): (w: Port -> int) { q => PortLeft(q, n) }

  ghost function Left(s: State): (n: int) {
    CloserLeft(s.m.closer, |s.ports|) + Total(s.ports, Weight(|s.conns|)) + ScanLive(s.m)
  }

  lemma LeftIsNat(s: State)
    ensures Left(s) >= 0
  {
    TotalBounds(s.ports, Weight(|s.conns|));
  }

  lemma SameSize<V>(a: map<nat, V>, b: map<nat, V>)
    requires a.Keys == b.Keys
    ensures |a| == |b|
  {
    assert |a| == |a.Keys| && |b| == |b.Keys|;
  }

  /** A step that spends some of one port's rest, and nothing else. */
  lemma PortSpends(s: State, p: PortId, q: Port, s': State)
    requires p in s.ports && s'.ports == s.ports[p := q] && PortLeft(q, |s.conns|) < PortLeft(s.ports[p], |s.conns|)
    requires s'.m.closer == s.m.closer && s'.m.scanner == s.m.scanner && s'.conns.Keys == s.conns.Keys
    ensures Left(s') < Left(s)
  {
    hide StepsLeft, PortLeft;
    SameSize(s.conns, s'.conns);
    assert s'.ports.Keys == s.ports.Keys;
    SameSize(s.ports, s'.ports);
    TotalUpdate(s.ports, Weight(|s.conns|), p, q);
  }

  lemma WorkerStepLeft(cfg: Config, m: Mgr, p: PortId, q: Port, e: PortEv, n: nat)
    requires PortCan(m, p, q, e) && m.closed && |q.conns| <= n && !ByOthers(e)
    ensures PortLeft(PortDo(cfg, m, p, q, e).q, n) < PortLeft(q, n)
  {
    hide PortDo, PortCan, StepsLeft;
    PortStepSpends(cfg, m, p, q, e, n);
    PortStepFrame(cfg, m, p, q, e);
  }

  lemma FanStepLeft(cfg: Config, m: Mgr, c: ConnId, k: Conn, p: PortId, q: Port, e: PairEv, n: nat)
    requires PairCan(m, c, k, p, q, e) && m.closed && (e.FanCheck? || e.FanPush?)
    ensures PortLeft(PairDo(cfg, m, c, k, p, q, e).q, n) < PortLeft(q, n)
  {
    hide PairDo, PairCan, StepsLeft;
    PairStepSpends(cfg, m, c, k, p, q, e, n);
    FanStepKeepsReader(cfg, m, c, k, p, q, e);
  }

  lemma FinishLeft(cfg: Config, m: Mgr, c: ConnId, k: Conn, p: PortId, q: Port, n: nat)
    requires PairCan(m, c, k, p, q, OpenFinish) && q.lock == Some(ByReader(c))
    ensures PortLeft(PairDo(cfg, m, c, k, p, q, OpenFinish).q, n) < PortLeft(q, n)
  {
    hide OpenQueued, StepsLeft;
  }

  /** A step by which a live worker, or the client in its way, gets on. */
  predicate Helps(s: State, e: Event, p: PortId) {
    p in s.ports && Can(s, e)
    && (WorkerOf(e, p) || (e.OnPair? && e.p == p && e.e.OpenFinish? && s.ports[p].lock == Some(ByReader(e.c))))
  }

  lemma HelpSpends(cfg: Config, s: State, e: Event, p: PortId)
    requires Inv(cfg, s) && s.m.closed && Helps(s, e, p)
    ensures Left(Do(cfg, s, e)) < Left(s)
  {
    hide Inv, PortOk, LifeOk, PortDo, PairDo, PortCan, PairCan, StepsLeft, PortLeft, Left;
    LifeOf(cfg, s, p);
    SubsetIsSmaller(s.ports[p].conns, s.conns.Keys);
    var s', n := Do(cfg, s, e), |s.conns|;
    if e.OnPort? {
      WorkerStepLeft(cfg, s.m, p, s.ports[p], e.pe, n);
      PortStepCounts(cfg, s.m, p, s.ports[p], e.pe);
    } else {
      if e.e.OpenFinish? { FinishLeft(cfg, s.m, e.c, s.conns[e.c], p, s.ports[p], n); }
      else { FanStepLeft(cfg, s.m, e.c, s.conns[e.c], p, s.ports[p], e.e, n); }
      PairKeepsCloser(cfg, s, e.c, p, e.e);
    }
    assert s'.conns.Keys == s.conns.Keys;
    PortSpends(s, p, s'.ports[p], s');
  }

  // ------------------------------------------------------------------- who goes next

  lemma AliveCanMove(cfg: Config, s: State, p: PortId) returns (e: Event)
    requires Inv(cfg, s) && p in s.ports && Alive(s.ports[p])
    ensures Helps(s, e, p)
  {
    hide Inv, Can, WorkerOf;
    e := WorkerCanMove(cfg, s, p);
  }

  /** Somebody can get the lock of port p released, or it is free. */
  lemma LockCanMove(cfg: Config, s: State, p: PortId) returns (e: Event)
    requires Inv(cfg, s) && p in s.ports && s.ports[p].lock.Some?
    ensures Helps(s, e, p)
  {
    hide Inv, Can, LifeOk, PortCan, PairCan, WorkerOf, Observers;
    var q := s.ports[p];
    LifeOf(cfg, s, p);
    if q.lock.value.ByReader? {
      HolderCanFinish(cfg, s, p);
      return OnPair(q.lock.value.c, p, OpenFinish);
    }
    e := AliveCanMove(cfg, s, p);
  }

  /** Close's own steps on a port cost no worker anything. */
  lemma CloserStepLeft(cfg: Config, m: Mgr, p: PortId, q: Port, e: PortEv, n: nat, np: nat)
    requires PortCan(m, p, q, e) && (e.CloserShuts? || e.CloserReleases? || e.CloserNotes?)
    ensures var r := PortDo(cfg, m, p, q, e);
            && PortLeft(r.q, n) == PortLeft(q, n) && r.m.scanner == m.scanner
            && CloserLeft(r.m.closer, np) < CloserLeft(m.closer, np)
  {
    hide StepsLeft;
  }

  lemma CloserSpends(cfg: Config, s: State, p: PortId, e: PortEv)
    requires Can(s, OnPort(p, e)) && (e.CloserShuts? || e.CloserReleases? || e.CloserNotes?)
    ensures Left(Do(cfg, s, OnPort(p, e))) < Left(s)
  {
    hide PortDo, PortCan, PortLeft, CloserLeft;
    var s' := Do(cfg, s, OnPort(p, e));
    assert s'.ports.Keys == s.ports.Keys;
    SameSize(s.ports, s'.ports);
    CloserStepLeft(cfg, s.m, p, s.ports[p], e, |s.conns|, |s.ports|);
    TotalUpdate(s.ports, Weight(|s.conns|), p, s'.ports[p]);
  }

  /** Close's own step on port p, or a step that lets it have the port's lock. */
  lemma CloserAtPort(cfg: Config, s: State, p: PortId, ce: PortEv) returns (e: Event)
    requires Inv(cfg, s) && p in s.ports && s.m.closed && (ce.CloserShuts? || ce.CloserReleases?)
    requires ce.CloserShuts? ==> s.m.closer.Shutting? && p in s.m.closer.left
    requires ce.CloserReleases? ==> s.m.closer.Releasing? && p in s.m.closer.left
    ensures Can(s, e) && Left(Do(cfg, s, e)) < Left(s)
  {
    hide Inv, StepsLeft, Left, WorkerOf;
    if s.ports[p].lock.Some? {
      e := LockCanMove(cfg, s, p);
      HelpSpends(cfg, s, e, p);
    } else {
      e := OnPort(p, ce);
      CloserSpends(cfg, s, p, ce);
    }
  }

  lemma SomeoneLives(s: State) returns (p: PortId)
    requires Managed(s) && s.m.wg != 0 && !s.m.scanner.Scanning?
    ensures p in s.ports && Alive(s.ports[p])
  {
    if forall r | r in s.ports :: !Alive(s.ports[r]) {
      TotalOfZeros(s.ports, Live);
      assert false;
    }
    p :| p in s.ports && Alive(s.ports[p]);
  }

  /** While Close waits, what it waits for can get on. */
  lemma WaitedForCanMove(cfg: Config, s: State) returns (e: Event)
    requires Inv(cfg, s) && s.m.closed && s.m.closer.Waiting?
    ensures Can(s, e) && Left(Do(cfg, s, e)) < Left(s)
  {
    hide Shape, StepsLeft, Live, Alive, WorkerOf, PortDo, PairDo;
    if s.m.wg == 0 {
      e := OnMgr(WaitDone);
    } else if s.m.scanner.Scanning? {
      e := OnMgr(ScanExit);
    } else {
      var p := SomeoneLives(s);
      e := AliveCanMove(cfg, s, p);
      HelpSpends(cfg, s, e, p);
    }
  }

  lemma KillSpends(cfg: Config, s: State, c: ConnId)
    requires Can(s, CloserKills(c))
    ensures Left(Do(cfg, s, CloserKills(c))) < Left(s)
  {
    hide PortLeft, Weight, Total;
    var s' := Do(cfg, s, CloserKills(c));
    assert s'.conns.Keys == s.conns.Keys;
    SameSize(s.conns, s'.conns);
    assert s'.m.closer.todo == s.m.closer.todo - {c};
  }

  lemma KillsDoneSpends(cfg: Config, s: State)
    requires Can(s, OnMgr(KillsDone)) && s.m.closer.ports == s.ports.Keys
    ensures Left(Do(cfg, s, OnMgr(KillsDone))) < Left(s)
  {
    hide PortLeft, Weight, Total;
    assert |s.ports| == |s.ports.Keys|;
  }

  lemma KillerCanMove(cfg: Config, s: State) returns (e: Event)
    requires KillsKnown(s) && s.m.closer.Killing? && s.m.closer.ports == s.ports.Keys
    ensures Can(s, e) && Left(Do(cfg, s, e)) < Left(s)
  {
    hide Left, Do;
    if s.m.closer.todo != {} {
      var c :| c in s.m.closer.todo;
      e := CloserKills(c);
      KillSpends(cfg, s, c);
    } else {
      e := OnMgr(KillsDone);
      KillsDoneSpends(cfg, s);
    }
  }

  lemma PhaseSpends(cfg: Config, s: State, e: MgrEv)
    requires (e.ShutsDone? && s.m.closer.Shutting? && s.m.closer.left == {})
             || (e.ReleasesDone? && s.m.closer.Releasing? && s.m.closer.left == {})
    ensures Can(s, OnMgr(e)) && Left(Do(cfg, s, OnMgr(e))) < Left(s)
  {
  }

  lemma NoteCan(s: State, p: PortId)
    requires p in s.ports && s.m.closer.Noting? && s.m.closer.p == p
    ensures Can(s, OnPort(p, CloserNotes))
  {
  }

  /** Wherever Close stands, somebody has a step that brings it nearer to its end. */
  lemma CloseCanMove(cfg: Config, s: State) returns (e: Event)
    requires Inv(cfg, s) && KillsKnown(s) && s.m.closed && !s.m.closer.Closed?
    ensures Can(s, e) && Left(Do(cfg, s, e)) < Left(s)
  {
    hide Shape, Balanced, StepsLeft, Left, PortDo, PairDo, Can, Do;
    match s.m.closer
    case Killing(_, _) => e := KillerCanMove(cfg, s);
    case Shutting(left, ports) =>
      if left != {} {
        var p :| p in left;
        e := CloserAtPort(cfg, s, p, CloserShuts);
      } else {
        e := OnMgr(ShutsDone);
        PhaseSpends(cfg, s, ShutsDone);
      }
    case Waiting(_) => e := WaitedForCanMove(cfg, s);
    case Releasing(left, ports) =>
      if left != {} {
        var p :| p in left;
        e := CloserAtPort(cfg, s, p, CloserReleases);
      } else {
        e := OnMgr(ReleasesDone);
        PhaseSpends(cfg, s, ReleasesDone);
      }
    case Noting(p, _, _, _) =>
      e := OnPort(p, CloserNotes);
      NoteCan(s, p);
      CloserSpends(cfg, s, p, CloserNotes);
  }

  lemma StaysClosed(cfg: Config, s: State, e: Event)
    requires Can(s, e) && s.m.closed
    ensures Do(cfg, s, e).m.closed
  {
    StepAfterClose(cfg, s, e);
  }

  /** From there on a run to its end. */
  lemma {:induction false} RunToTheEnd(cfg: Config, s: State) returns (es: seq<Event>)
    requires Inv(cfg, s) && KillsKnown(s) && s.m.closed
    ensures IsRun(cfg, s, es) && StateAfter(cfg, s, es).m.closer.Closed?
    decreases if Left(s) >= 0 then Left(s) else 0
  {
    hide Inv, Can, Do, Left, KillsKnown;
    if s.m.closer.Closed? { return []; }
    var e := CloseCanMove(cfg, s);
    StepKeepsInv(cfg, s, e);
    StepKeepsKillsKnown(cfg, s, e);
    StaysClosed(cfg, s, e);
    LeftIsNat(Do(cfg, s, e));
    var rest := RunToTheEnd(cfg, Do(cfg, s, e));
    RunPrepends(cfg, s, e, rest);
    es := [e] + rest;
  }

  /** Close is never stuck: from every reachable state in which it has begun there is a
      continuation in which it returns. */
  lemma CloseCanReturn(cfg: Config, es: seq<Event>) returns (more: seq<Event>)
    requires IsRun(cfg, INIT, es) && Reached(cfg, es).m.closed
    ensures IsRun(cfg, Reached(cfg, es), more)
    ensures StateAfter(cfg, Reached(cfg, es), more).m.closer.Closed?
  {
    hide Inv, KillsKnown, IsRun, StateAfter;
    ReachedInv(cfg, es);
    ReachedKillsKnown(cfg, es);
    more := RunToTheEnd(cfg, Reached(cfg, es));
  }
}
