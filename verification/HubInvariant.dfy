/** The invariant of the hub and its preservation by every step of every
    goroutine: the local lemmas, put together. */
module HubInvariant {
  import opened Prelude
  import opened HubModel
  import opened HubAttach
  import opened HubDelivery
  import opened HubLifecycle
  import opened HubAccounting

  predicate NamesPort(r: Reader) {
    || r.DetachPort? || r.OpenWait? || r.OpenHold? || r.OpenCommit? || r.OpenEnsure?
    || r.InputPort? || r.InputDevice? || r.CountPort? || r.BreakPort? || r.BreakNote? || r.LineDue?
  }

  /** Ports a connection mentions are registered ones. */
  predicate Known(k: Conn, ps: set<PortId>) {
    && (k.port.Some? ==> k.port.value in ps)
    && (NamesPort(k.reader) ==> k.reader.p in ps)
    && (k.att.Some? ==> k.att.value.port in ps)
  }

  predicate ConnGood(k: Conn, ps: set<PortId>) { ConnOk(k) && ConnFlow(k) && Known(k, ps) }

  predicate PortGood(cfg: Config, m: Mgr, p: PortId, q: Port, cs: set<ConnId>) {
    && PortOk(cfg, q) && PortFlow(cfg, q) && LifeOk(m, p, q)
    && q.conns <= cs
    && (q.lock.Some? && q.lock.value.ByReader? ==> q.lock.value.c in cs)
  }

  predicate PairGood(cfg: Config, c: ConnId, k: Conn, p: PortId, q: Port) {
    Linked(cfg, c, k, p, q) && Flow(cfg, c, k, p, q)
  }

  /** Connections, ports, and every pair of them. */
  predicate Shape(cfg: Config, s: State) {
    && (forall c | c in s.conns :: ConnGood(s.conns[c], s.ports.Keys))
    && (forall p | p in s.ports :: PortGood(cfg, s.m, p, s.ports[p], s.conns.Keys))
    && (forall c, p | c in s.conns && p in s.ports :: PairGood(cfg, c, s.conns[c], p, s.ports[p]))
  }

  /** The manager: its WaitGroup, and what Close has already brought about. */
  ghost predicate Managed(s: State) {
    && (s.m.closed <==> !s.m.closer.NotClosing?)
    && Snapshotted(s.m, s.ports.Keys)
    && s.m.wg == Total(s.ports, Live) + ScanLive(s.m)
    && (PastWait(s.m) ==> forall p | p in s.ports :: !Alive(s.ports[p]))
    && (PastWait(s.m) ==> forall p | p in s.ports && p !in Unreleased(s.m) :: !s.ports[p].logOpen)
    && s.m.lateAdds <= (if s.m.scanner.NotStarted? then 0 else 1)
  }

  /** The byte counters of ports, connections and devices agree up to what is in transit. */
  ghost predicate Balanced(s: State) {
    && Total(s.ports, PortWritten) == Total(s.conns, ConnCounted)
    && Total(s.ports, PortHanded) == Total(s.conns, ConnHanded)
  }

  ghost predicate Inv(cfg: Config, s: State) { Shape(cfg, s) && Managed(s) && Balanced(s) }

  // ---------------------------------------------------------------- shape, by step

  lemma ConnStepKeepsAtt(k: Conn, e: ConnEv)
    requires ConnCan(k, e)
    ensures ConnDo(k, e).att == k.att
  {
  }

  lemma ConnStepKeepsKnown(k: Conn, e: ConnEv, ps: set<PortId>)
    requires Known(k, ps) && ConnCan(k, e)
    ensures Known(ConnDo(k, e), ps)
  {
    hide ConnDo, ConnCan;
    ConnStepMoves(k, e);
    ConnStepKeepsAtt(k, e);
  }

  lemma ConnStepKeepsGood(k: Conn, e: ConnEv, ps: set<PortId>)
    requires ConnGood(k, ps) && ConnCan(k, e)
    ensures ConnGood(ConnDo(k, e), ps)
  {
    hide ConnOk, ConnFlow, Known, ConnDo;
    ConnStepKeepsConnOk(k, e);
    ConnStepKeepsConnFlow(k, e);
    ConnStepKeepsKnown(k, e, ps);
  }

  lemma ConnStepKeepsPair(cfg: Config, c: ConnId, k: Conn, e: ConnEv, p: PortId, q: Port, ps: set<PortId>)
    requires ConnGood(k, ps) && PairGood(cfg, c, k, p, q) && ConnCan(k, e)
    ensures PairGood(cfg, c, ConnDo(k, e), p, q)
  {
    hide ConnOk, Linked, Flow, ConnDo;
    ConnStepKeepsLinks(cfg, c, k, e, p, q);
    ConnStepKeepsFlow(cfg, c, k, e, p, q);
  }

  /** One connection changes; everything else is as it was. */
  lemma ConnChangeKeepsShape(cfg: Config, s: State, c: ConnId, k: Conn, m: Mgr)
    requires Shape(cfg, s) && c in s.conns && ConnGood(k, s.ports.Keys)
    requires forall p | p in s.ports :: PairGood(cfg, c, k, p, s.ports[p])
    requires forall p | p in s.ports :: PortGood(cfg, m, p, s.ports[p], s.conns.Keys)
    ensures Shape(cfg, State(m, s.ports, s.conns[c := k]))
  {
    hide ConnGood, PortGood, PairGood;
    assert s.conns[c := k].Keys == s.conns.Keys;
  }

  lemma ConnMovesKeepShape(cfg: Config, s: State, c: ConnId, e: ConnEv)
    requires Shape(cfg, s) && Can(s, OnConn(c, e))
    ensures Shape(cfg, Do(cfg, s, OnConn(c, e)))
  {
    hide ConnGood, PortGood, PairGood, ConnDo;
    var k := s.conns[c];
    ConnStepKeepsGood(k, e, s.ports.Keys);
    forall p | p in s.ports ensures PairGood(cfg, c, ConnDo(k, e), p, s.ports[p]) {
      assert PairGood(cfg, c, k, p, s.ports[p]);
      ConnStepKeepsPair(cfg, c, k, e, p, s.ports[p], s.ports.Keys);
    }
    ConnChangeKeepsShape(cfg, s, c, ConnDo(k, e), s.m);
  }

  lemma ResolveKeepsGood(cfg: Config, c: ConnId, k: Conn, p: PortId, ps: set<PortId>, p2: PortId, q2: Port)
    requires ConnGood(k, ps) && k.reader.Resolving? && p in ps
    ensures ConnGood(k.(reader := OpenWait(p, k.reader.req)), ps)
    ensures PairGood(cfg, c, k, p2, q2) ==> PairGood(cfg, c, k.(reader := OpenWait(p, k.reader.req)), p2, q2)
  {
    if PairGood(cfg, c, k, p2, q2) { FlowFrame(cfg, c, k, k.(reader := OpenWait(p, k.reader.req)), p2, q2, q2); }
  }

  lemma ResolveKeepsShape(cfg: Config, s: State, c: ConnId, p: PortId)
    requires Shape(cfg, s) && Can(s, ResolveTo(c, p))
    ensures Shape(cfg, Do(cfg, s, ResolveTo(c, p)))
  {
    hide ConnGood, PortGood, PairGood;
    var k := s.conns[c];
    var k' := k.(reader := OpenWait(p, k.reader.req));
    ResolveKeepsGood(cfg, c, k, p, s.ports.Keys, p, s.ports[p]);
    forall p2 | p2 in s.ports ensures PairGood(cfg, c, k', p2, s.ports[p2]) {
      ResolveKeepsGood(cfg, c, k, p, s.ports.Keys, p2, s.ports[p2]);
    }
    ConnChangeKeepsShape(cfg, s, c, k', s.m);
  }

  /** A manager step that owes no new log line leaves every port's life as it was. */
  lemma MgrMovesKeepPortGood(cfg: Config, m: Mgr, m': Mgr, p: PortId, q: Port, cs: set<ConnId>, cs': set<ConnId>)
    requires PortGood(cfg, m, p, q, cs) && cs <= cs'
    requires (m.closed ==> m'.closed) && (CloserOwes(m', p) <==> CloserOwes(m, p))
    ensures PortGood(cfg, m', p, q, cs')
  {
    MgrMovesKeepLife(m, m', p, q);
  }

  lemma KillKeepsGood(cfg: Config, c: ConnId, k: Conn, ps: set<PortId>, p: PortId, q: Port)
    requires ConnGood(k, ps)
    ensures ConnGood(k.(done := true), ps)
    ensures PairGood(cfg, c, k, p, q) ==> PairGood(cfg, c, k.(done := true), p, q)
  {
  }

  lemma CloserKillKeepsShape(cfg: Config, s: State, c: ConnId)
    requires Shape(cfg, s) && Can(s, CloserKills(c))
    ensures Shape(cfg, Do(cfg, s, CloserKills(c)))
  {
    hide ConnGood, PortGood, PairGood;
    var k, m := s.conns[c], Do(cfg, s, CloserKills(c)).m;
    KillKeepsGood(cfg, c, k, s.ports.Keys, 0, FreshPort(0, false));
    forall p | p in s.ports
      ensures PortGood(cfg, m, p, s.ports[p], s.conns.Keys) && PairGood(cfg, c, k.(done := true), p, s.ports[p])
    {
      MgrMovesKeepPortGood(cfg, s.m, m, p, s.ports[p], s.conns.Keys, s.conns.Keys);
      assert PairGood(cfg, c, k, p, s.ports[p]);
      KillKeepsGood(cfg, c, k, s.ports.Keys, p, s.ports[p]);
    }
    ConnChangeKeepsShape(cfg, s, c, k.(done := true), m);
  }

  /** A step on port p, seen from any other port. */
  lemma PortStepOwesNobodyElse(cfg: Config, m: Mgr, p: PortId, q: Port, e: PortEv, p2: PortId)
    requires PortCan(m, p, q, e) && p2 != p
    ensures var r := PortDo(cfg, m, p, q, e);
            r.m.closed == m.closed && (CloserOwes(r.m, p2) <==> CloserOwes(m, p2))
  {
  }

  lemma PortStepKeepsMembers(cfg: Config, m: Mgr, p: PortId, q: Port, e: PortEv, cs: set<ConnId>)
    requires PortCan(m, p, q, e) && q.conns <= cs
    requires q.lock.Some? && q.lock.value.ByReader? ==> q.lock.value.c in cs
    ensures var q' := PortDo(cfg, m, p, q, e).q;
            q'.conns <= cs && (q'.lock.Some? && q'.lock.value.ByReader? ==> q'.lock.value.c in cs)
  {
    hide PortDo, PortCan;
    PortStepFrame(cfg, m, p, q, e);
  }

  lemma PortStepKeepsPortGood(cfg: Config, m: Mgr, p: PortId, q: Port, e: PortEv, cs: set<ConnId>)
    requires PortGood(cfg, m, p, q, cs) && PortCan(m, p, q, e)
    requires m.closed <==> !m.closer.NotClosing?
    ensures var r := PortDo(cfg, m, p, q, e); PortGood(cfg, r.m, p, r.q, cs)
  {
    hide PortOk, PortFlow, PortDo, Placed, Alternates, Noted;
    PortStepKeepsPortOk(cfg, m, p, q, e);
    PortStepKeepsPortFlow(cfg, m, p, q, e);
    PortStepKeepsLife(cfg, m, p, q, e);
    PortStepKeepsMembers(cfg, m, p, q, e, cs);
  }

  lemma PortStepKeepsPair(cfg: Config, m: Mgr, p: PortId, q: Port, e: PortEv, cs: set<ConnId>, c: ConnId, k: Conn)
    requires PortGood(cfg, m, p, q, cs) && PairGood(cfg, c, k, p, q) && PortCan(m, p, q, e)
    ensures PairGood(cfg, c, k, p, PortDo(cfg, m, p, q, e).q)
  {
    hide PortOk, PortFlow, PortDo, Placed, Alternates, Noted, Linked, Flow;
    PortStepKeepsLinks(cfg, m, p, q, e, c, k);
    PortStepKeepsFlow(cfg, m, p, q, e, c, k);
  }

  /** One port changes; everything else is as it was. */
  lemma PortChangeKeepsShape(cfg: Config, s: State, p: PortId, q: Port, m: Mgr)
    requires Shape(cfg, s) && p in s.ports && PortGood(cfg, m, p, q, s.conns.Keys)
    requires forall p2 | p2 in s.ports && p2 != p :: PortGood(cfg, m, p2, s.ports[p2], s.conns.Keys)
    requires forall c | c in s.conns :: PairGood(cfg, c, s.conns[c], p, q)
    ensures Shape(cfg, State(m, s.ports[p := q], s.conns))
  {
    hide ConnGood, PortGood, PairGood;
    assert s.ports[p := q].Keys == s.ports.Keys;
  }

  lemma PortMovesKeepShape(cfg: Config, s: State, p: PortId, e: PortEv)
    requires Shape(cfg, s) && Can(s, OnPort(p, e)) && (s.m.closed <==> !s.m.closer.NotClosing?)
    ensures Shape(cfg, Do(cfg, s, OnPort(p, e)))
  {
    hide ConnGood, PortGood, PairGood, PortDo, CloserOwes, PortCan;
    var q, cs := s.ports[p], s.conns.Keys;
    var r := PortDo(cfg, s.m, p, q, e);
    PortStepKeepsPortGood(cfg, s.m, p, q, e, cs);
    forall p2 | p2 in s.ports && p2 != p ensures PortGood(cfg, r.m, p2, s.ports[p2], cs) {
      PortStepOwesNobodyElse(cfg, s.m, p, q, e, p2);
      MgrMovesKeepPortGood(cfg, s.m, r.m, p2, s.ports[p2], cs, cs);
    }
    forall c | c in s.conns ensures PairGood(cfg, c, s.conns[c], p, r.q) {
      assert PairGood(cfg, c, s.conns[c], p, q);
      PortStepKeepsPair(cfg, s.m, p, q, e, cs, c, s.conns[c]);
    }
    PortChangeKeepsShape(cfg, s, p, r.q, r.m);
  }

  lemma FanStepKeepsKnown(cfg: Config, m: Mgr, c: ConnId, k: Conn, p: PortId, q: Port, e: PairEv, ps: set<PortId>)
    requires Known(k, ps) && PairCan(m, c, k, p, q, e) && (e.FanCheck? || e.FanPush?)
    ensures Known(PairDo(cfg, m, c, k, p, q, e).k, ps)
  {
    FanStepKeepsReader(cfg, m, c, k, p, q, e);
  }

  lemma QuietStepKeepsKnown(cfg: Config, m: Mgr, c: ConnId, k: Conn, p: PortId, q: Port, e: PairEv, ps: set<PortId>)
    requires Known(k, ps) && p in ps && PairCan(m, c, k, p, q, e) && Quiet(e)
    ensures Known(PairDo(cfg, m, c, k, p, q, e).k, ps)
  {
  }

  lemma OpenStepKeepsKnown(cfg: Config, m: Mgr, c: ConnId, k: Conn, p: PortId, q: Port, e: PairEv, ps: set<PortId>)
    requires Known(k, ps) && p in ps && PairCan(m, c, k, p, q, e) && (e.OpenLock? || e.OpenFinish?)
    ensures Known(PairDo(cfg, m, c, k, p, q, e).k, ps)
  {
    hide Refused, Observers;
  }

  lemma PairStepKeepsKnown(cfg: Config, m: Mgr, c: ConnId, k: Conn, p: PortId, q: Port, e: PairEv, ps: set<PortId>)
    requires Known(k, ps) && p in ps && PairCan(m, c, k, p, q, e)
    ensures Known(PairDo(cfg, m, c, k, p, q, e).k, ps)
  {
    if e.FanCheck? || e.FanPush? {
      hide PairDo, PairCan;
      FanStepKeepsKnown(cfg, m, c, k, p, q, e, ps);
    } else if Quiet(e) {
      hide PairDo, PairCan;
      QuietStepKeepsKnown(cfg, m, c, k, p, q, e, ps);
    } else {
      OpenStepKeepsKnown(cfg, m, c, k, p, q, e, ps);
    }
  }

  lemma PairStepKeepsMembers(cfg: Config, m: Mgr, c: ConnId, k: Conn, p: PortId, q: Port, e: PairEv, cs: set<ConnId>)
    requires PairCan(m, c, k, p, q, e) && c in cs
    requires q.conns <= cs && (q.lock.Some? && q.lock.value.ByReader? ==> q.lock.value.c in cs)
    ensures var q' := PairDo(cfg, m, c, k, p, q, e).q;
            q'.conns <= cs && (q'.lock.Some? && q'.lock.value.ByReader? ==> q'.lock.value.c in cs)
  {
    if e.FanCheck? || e.FanPush? {
      FanStepKeepsReader(cfg, m, c, k, p, q, e);
    }
  }

  lemma PairStepKeepsBoth(cfg: Config, m: Mgr, c: ConnId, k: Conn, p: PortId, q: Port, e: PairEv, ps: set<PortId>,
                          cs: set<ConnId>)
    requires ConnGood(k, ps) && PortGood(cfg, m, p, q, cs) && PairGood(cfg, c, k, p, q)
    requires PairCan(m, c, k, p, q, e) && p in ps && c in cs
    ensures var r := PairDo(cfg, m, c, k, p, q, e);
            ConnGood(r.k, ps) && PortGood(cfg, r.m, p, r.q, cs) && PairGood(cfg, c, r.k, p, r.q)
  {
    hide ConnOk, ConnFlow, Known, PortOk, PortFlow, Linked, Flow, PairDo, PairCan, Placed, Alternates, Noted;
    PairStepKeepsLinks(cfg, m, c, k, p, q, e);
    PairStepKeepsConnFlow(cfg, m, c, k, p, q, e);
    PairStepKeepsPortFlow(cfg, m, c, k, p, q, e);
    PairStepKeepsFlow(cfg, m, c, k, p, q, e);
    PairStepKeepsLife(cfg, m, c, k, p, q, e);
    PairStepKeepsKnown(cfg, m, c, k, p, q, e, ps);
    PairStepKeepsMembers(cfg, m, c, k, p, q, e, cs);
  }

  lemma PairStepKeepsRest(cfg: Config, m: Mgr, c: ConnId, k: Conn, p: PortId, q: Port, e: PairEv, ps: set<PortId>,
                          cs: set<ConnId>,
                          c2: ConnId, k2: Conn, p2: PortId, q2: Port)
    requires ConnGood(k, ps) && PortGood(cfg, m, p, q, cs) && PairGood(cfg, c, k, p, q) && PairCan(m, c, k, p, q, e)
    requires PortGood(cfg, m, p2, q2, cs)
    ensures c2 != c && PairGood(cfg, c2, k2, p, q) ==> PairGood(cfg, c2, k2, p, PairDo(cfg, m, c, k, p, q, e).q)
    ensures p2 != p && PairGood(cfg, c, k, p2, q2) ==> PairGood(cfg, c, PairDo(cfg, m, c, k, p, q, e).k, p2, q2)
  {
    hide ConnOk, ConnFlow, Known, PortOk, PortFlow, Linked, Flow, PairDo, PairCan, Placed, Alternates, Noted;
    if c2 != c && PairGood(cfg, c2, k2, p, q) {
      PairStepKeepsOtherConn(cfg, m, c, k, p, q, e, c2, k2);
      PairStepKeepsOtherConnFlow(cfg, m, c, k, p, q, e, c2, k2);
    }
    if p2 != p && PairGood(cfg, c, k, p2, q2) {
      PairStepKeepsOtherPort(cfg, m, c, k, p, q, e, p2, q2);
      PairStepKeepsOtherPortFlow(cfg, m, c, k, p, q, e, p2, q2);
    }
  }

  /** A step on a pair, seen from any other port. */
  lemma PairStepOwesNobody(cfg: Config, m: Mgr, c: ConnId, k: Conn, p: PortId, q: Port, e: PairEv, cs: set<ConnId>)
    requires PortGood(cfg, m, p, q, cs) && PairCan(m, c, k, p, q, e)
    ensures var m' := PairDo(cfg, m, c, k, p, q, e).m; m'.closed == m.closed && m'.closer == m.closer
  {
    hide PortOk, PortFlow, PairDo;
    PairStepCounts(cfg, m, c, k, p, q, e);
  }

  lemma PairChangeKeepsShape(cfg: Config, s: State, c: ConnId, k: Conn, p: PortId, q: Port, m: Mgr)
    requires Shape(cfg, s) && c in s.conns && p in s.ports
    requires ConnGood(k, s.ports.Keys) && PortGood(cfg, m, p, q, s.conns.Keys) && PairGood(cfg, c, k, p, q)
    requires forall p2 | p2 in s.ports && p2 != p ::
               PortGood(cfg, m, p2, s.ports[p2], s.conns.Keys) && PairGood(cfg, c, k, p2, s.ports[p2])
    requires forall c2 | c2 in s.conns && c2 != c :: PairGood(cfg, c2, s.conns[c2], p, q)
    ensures Shape(cfg, State(m, s.ports[p := q], s.conns[c := k]))
  {
    hide ConnGood, PortGood, PairGood;
    assert s.ports[p := q].Keys == s.ports.Keys && s.conns[c := k].Keys == s.conns.Keys;
  }

  lemma PairMovesKeepShape(cfg: Config, s: State, c: ConnId, p: PortId, e: PairEv)
    requires Shape(cfg, s) && Can(s, OnPair(c, p, e))
    ensures Shape(cfg, Do(cfg, s, OnPair(c, p, e)))
  {
    hide ConnGood, PortGood, PairGood, PairDo, PairCan;
    var k, q, ps, cs := s.conns[c], s.ports[p], s.ports.Keys, s.conns.Keys;
    var r := PairDo(cfg, s.m, c, k, p, q, e);
    assert PairGood(cfg, c, k, p, q);
    PairStepKeepsBoth(cfg, s.m, c, k, p, q, e, ps, cs);
    PairStepOwesNobody(cfg, s.m, c, k, p, q, e, cs);
    forall p2 | p2 in s.ports && p2 != p
      ensures PortGood(cfg, r.m, p2, s.ports[p2], cs) && PairGood(cfg, c, r.k, p2, s.ports[p2])
    {
      MgrMovesKeepPortGood(cfg, s.m, r.m, p2, s.ports[p2], cs, cs);
      assert PairGood(cfg, c, k, p2, s.ports[p2]);
      PairStepKeepsRest(cfg, s.m, c, k, p, q, e, ps, cs, c, k, p2, s.ports[p2]);
    }
    forall c2 | c2 in s.conns && c2 != c ensures PairGood(cfg, c2, s.conns[c2], p, r.q) {
      assert PairGood(cfg, c2, s.conns[c2], p, q);
      PairStepKeepsRest(cfg, s.m, c, k, p, q, e, ps, cs, c2, s.conns[c2], p, q);
    }
    PairChangeKeepsShape(cfg, s, c, r.k, p, r.q, r.m);
  }

  /** A connection nobody knows yet. */
  lemma FreshConnGood(ps: set<PortId>)
    ensures ConnGood(FRESH_CONN, ps)
  {
    assert DataOf([]) == [];
  }

  lemma FreshConnPairs(cfg: Config, m: Mgr, c: ConnId, p: PortId, q: Port, cs: set<ConnId>)
    requires PortGood(cfg, m, p, q, cs) && c !in cs
    ensures PairGood(cfg, c, FRESH_CONN, p, q)
  {
    hide LifeOk, PortFlow, Observers;
  }

  /** A port nobody knows yet. */
  lemma FreshPortGood(cfg: Config, m: Mgr, p: PortId, baud: int, hasLog: bool, cs: set<ConnId>)
    requires m.closer.NotClosing?
    ensures PortGood(cfg, m, p, FreshPort(baud, hasLog), cs)
  {
  }

  lemma FreshPortPairs(cfg: Config, p: PortId, baud: int, hasLog: bool, c: ConnId, k: Conn, ps: set<PortId>)
    requires ConnGood(k, ps) && p !in ps
    ensures PairGood(cfg, c, k, p, FreshPort(baud, hasLog)) && ConnGood(k, ps + {p})
  {
    hide ConnOk, ConnFlow, Observers;
  }

  lemma ServeKeepsShape(cfg: Config, s: State, c: ConnId)
    requires Shape(cfg, s) && MgrCan(s, Serve(c))
    ensures Shape(cfg, MgrDo(cfg, s, Serve(c)))
  {
    hide ConnGood, PortGood, PairGood;
    var s' := MgrDo(cfg, s, Serve(c));
    assert s'.conns.Keys == s.conns.Keys + {c};
    FreshConnGood(s.ports.Keys);
    forall p | p in s.ports
      ensures PortGood(cfg, s.m, p, s.ports[p], s'.conns.Keys) && PairGood(cfg, c, FRESH_CONN, p, s.ports[p])
    {
      MgrMovesKeepPortGood(cfg, s.m, s.m, p, s.ports[p], s.conns.Keys, s'.conns.Keys);
      FreshConnPairs(cfg, s.m, c, p, s.ports[p], s.conns.Keys);
    }
  }

  lemma AddPortKeepsShape(cfg: Config, s: State, p: PortId, baud: int, hasLog: bool)
    requires Shape(cfg, s) && MgrCan(s, AddPort(p, baud, hasLog)) && (s.m.closed <==> !s.m.closer.NotClosing?)
    ensures Shape(cfg, MgrDo(cfg, s, AddPort(p, baud, hasLog)))
  {
    hide ConnGood, PortGood, PairGood, FreshPort;
    var s' := MgrDo(cfg, s, AddPort(p, baud, hasLog));
    var rate := if baud > 0 then baud else cfg.defaultBaud;
    assert s'.ports.Keys == s.ports.Keys + {p};
    FreshPortGood(cfg, s.m, p, rate, hasLog, s.conns.Keys);
    forall c | c in s.conns
      ensures ConnGood(s.conns[c], s'.ports.Keys) && PairGood(cfg, c, s.conns[c], p, FreshPort(rate, hasLog))
    {
      FreshPortPairs(cfg, p, rate, hasLog, c, s.conns[c], s.ports.Keys);
    }
  }

  lemma MgrMovesKeepShape(cfg: Config, s: State, e: MgrEv)
    requires Shape(cfg, s) && MgrCan(s, e) && (s.m.closed <==> !s.m.closer.NotClosing?)
    ensures Shape(cfg, MgrDo(cfg, s, e))
  {
    hide ConnGood, PortGood, PairGood;
    match e
    case Serve(c) => ServeKeepsShape(cfg, s, c);
    case AddPort(p, baud, hasLog) => AddPortKeepsShape(cfg, s, p, baud, hasLog);
    case _ =>
      var s' := MgrDo(cfg, s, e);
      assert s'.ports == s.ports && s'.conns == s.conns;
      forall p | p in s.ports ensures PortGood(cfg, s'.m, p, s.ports[p], s.conns.Keys) {
        MgrMovesKeepPortGood(cfg, s.m, s'.m, p, s.ports[p], s.conns.Keys, s.conns.Keys);
      }
  }

  // ------------------------------------------------------------ books, by step

  /** Close's own steps on a port take it off the list, or write what is owed. */
  lemma OthersStepKeepsSnapshot(cfg: Config, m: Mgr, p: PortId, q: Port, e: PortEv, ps: set<PortId>)
    requires PortCan(m, p, q, e) && ByOthers(e) && Snapshotted(m, ps) && p in ps
    ensures var r := PortDo(cfg, m, p, q, e);
            && Snapshotted(r.m, ps) && (PastWait(r.m) <==> PastWait(m))
            && (r.m.closer.NotClosing? <==> m.closer.NotClosing?)
            && (PastWait(m) ==> forall r2 | r2 in Unreleased(m) && r2 !in Unreleased(r.m) :: r2 == p && !r.q.logOpen)
  {
  }

  lemma PortStepKeepsSnapshot(cfg: Config, m: Mgr, p: PortId, q: Port, e: PortEv, ps: set<PortId>)
    requires LifeOk(m, p, q) && PortCan(m, p, q, e) && Snapshotted(m, ps) && p in ps
    ensures var r := PortDo(cfg, m, p, q, e);
            && Snapshotted(r.m, ps) && (PastWait(r.m) <==> PastWait(m))
            && (r.m.closer.NotClosing? <==> m.closer.NotClosing?)
            && (PastWait(m) ==> forall r2 | r2 in Unreleased(m) && r2 !in Unreleased(r.m) :: r2 == p && !r.q.logOpen)
  {
    hide PortDo, PortCan, LifeOk;
    PortStepCounts(cfg, m, p, q, e);
    if ByOthers(e) { OthersStepKeepsSnapshot(cfg, m, p, q, e, ps); }
  }

  lemma ClosedWhenPast(m: Mgr, ps: set<PortId>)
    ensures PastWait(m) ==> !m.closer.NotClosing?
  {
  }

  lemma PortMovesKeepManaged(cfg: Config, s: State, p: PortId, e: PortEv)
    requires Managed(s) && Can(s, OnPort(p, e)) && PortGood(cfg, s.m, p, s.ports[p], s.conns.Keys)
    ensures Managed(Do(cfg, s, OnPort(p, e)))
  {
    hide PortOk, PortFlow, LifeOk, Alive, Live, PortDo, PortCan, Snapshotted, Unreleased, PastWait;
    PortStepCounts(cfg, s.m, p, s.ports[p], e);
    PortStepKeepsSnapshot(cfg, s.m, p, s.ports[p], e, s.ports.Keys);
    ClosedWhenPast(s.m, s.ports.Keys);
    var r := PortDo(cfg, s.m, p, s.ports[p], e);
    TotalUpdate(s.ports, Live, p, r.q);
    var s' := Do(cfg, s, OnPort(p, e));
    assert s'.ports == s.ports[p := r.q] && s'.m == r.m && s'.ports.Keys == s.ports.Keys;
  }

  lemma PairMovesKeepManaged(cfg: Config, s: State, c: ConnId, p: PortId, e: PairEv)
    requires Managed(s) && Can(s, OnPair(c, p, e)) && PortGood(cfg, s.m, p, s.ports[p], s.conns.Keys)
    ensures Managed(Do(cfg, s, OnPair(c, p, e)))
  {
    hide PortOk, PortFlow, Audited, Noted, Alive, Live, PairDo, PairCan;
    var k := s.conns[c];
    PairStepCounts(cfg, s.m, c, k, p, s.ports[p], e);
    var r := PairDo(cfg, s.m, c, k, p, s.ports[p], e);
    TotalUpdate(s.ports, Live, p, r.q);
    var s' := Do(cfg, s, OnPair(c, p, e));
    assert s'.ports.Keys == s.ports.Keys && s'.m == r.m && s'.ports == s.ports[p := r.q];
  }

  /** wg.Wait returning means that no worker is left. */
  lemma WaitMeansNoWorker(s: State)
    requires Managed(s) && s.m.wg == 0
    ensures forall p | p in s.ports :: !Alive(s.ports[p])
  {
    TotalBounds(s.ports, Live);
    forall p | p in s.ports ensures !Alive(s.ports[p]) { assert Live(s.ports[p]) <= Total(s.ports, Live); }
  }

  lemma CloserMovesKeepManaged(cfg: Config, s: State, e: MgrEv)
    requires Managed(s) && MgrCan(s, e) && (e.KillsDone? || e.ShutsDone? || e.WaitDone? || e.ReleasesDone?)
    ensures Managed(MgrDo(cfg, s, e))
  {
    hide Alive, Live;
    if e.WaitDone? { WaitMeansNoWorker(s); }
  }

  lemma AddPortKeepsManaged(cfg: Config, s: State, p: PortId, baud: int, hasLog: bool)
    requires Managed(s) && MgrCan(s, AddPort(p, baud, hasLog))
    ensures Managed(MgrDo(cfg, s, AddPort(p, baud, hasLog)))
  {
    TotalUpdate(s.ports, Live, p, FreshPort(if baud > 0 then baud else cfg.defaultBaud, hasLog));
  }

  lemma OwnMovesKeepManaged(cfg: Config, s: State, e: MgrEv)
    requires Managed(s) && MgrCan(s, e) && (e.Serve? || e.StartScan? || e.ScanExit? || e.CloseBegin?)
    ensures Managed(MgrDo(cfg, s, e))
  {
    hide Alive, Live;
  }

  lemma MgrMovesKeepManaged(cfg: Config, s: State, e: MgrEv)
    requires Managed(s) && MgrCan(s, e)
    ensures Managed(MgrDo(cfg, s, e))
  {
    hide Managed, MgrDo;
    match e
    case AddPort(p, baud, hasLog) => AddPortKeepsManaged(cfg, s, p, baud, hasLog);
    case KillsDone => CloserMovesKeepManaged(cfg, s, e);
    case ShutsDone => CloserMovesKeepManaged(cfg, s, e);
    case WaitDone => CloserMovesKeepManaged(cfg, s, e);
    case ReleasesDone => CloserMovesKeepManaged(cfg, s, e);
    case _ => OwnMovesKeepManaged(cfg, s, e);
  }

  lemma BalanceConn(s: State, c: ConnId, k: Conn)
    ensures Total(s.conns[c := k], ConnCounted) ==
            Total(s.conns, ConnCounted) + ConnCounted(k) - (if c in s.conns then ConnCounted(s.conns[c]) else 0)
    ensures Total(s.conns[c := k], ConnHanded) ==
            Total(s.conns, ConnHanded) + ConnHanded(k) - (if c in s.conns then ConnHanded(s.conns[c]) else 0)
  {
    TotalUpdate(s.conns, ConnCounted, c, k);
    TotalUpdate(s.conns, ConnHanded, c, k);
  }

  lemma ResolveBalances(k: Conn, p: PortId)
    requires k.reader.Resolving?
    ensures var k' := k.(reader := OpenWait(p, k.reader.req));
            ConnCounted(k') == ConnCounted(k) && ConnHanded(k') == ConnHanded(k)
  {
  }

  lemma KillBalances(k: Conn)
    ensures var k' := k.(done := true); ConnCounted(k') == ConnCounted(k) && ConnHanded(k') == ConnHanded(k)
  {
  }

  lemma BalancePort(s: State, p: PortId, q: Port)
    ensures Total(s.ports[p := q], PortWritten) ==
            Total(s.ports, PortWritten) + PortWritten(q) - (if p in s.ports then PortWritten(s.ports[p]) else 0)
    ensures Total(s.ports[p := q], PortHanded) ==
            Total(s.ports, PortHanded) + PortHanded(q) - (if p in s.ports then PortHanded(s.ports[p]) else 0)
  {
    TotalUpdate(s.ports, PortWritten, p, q);
    TotalUpdate(s.ports, PortHanded, p, q);
  }

  lemma FreshBalances(baud: int, hasLog: bool)
    ensures PortWritten(FreshPort(baud, hasLog)) == 0 == PortHanded(FreshPort(baud, hasLog))
    ensures ConnCounted(FRESH_CONN) == 0 == ConnHanded(FRESH_CONN)
  {
  }

  lemma MovesKeepBalance(cfg: Config, s: State, e: Event)
    requires Balanced(s) && Can(s, e)
    ensures Balanced(Do(cfg, s, e))
  {
    hide ConnDo, PortDo, PairDo, ConnCan, PortCan, PairCan, ConnCounted, ConnHanded, PortWritten, PortHanded;
    match e
    case OnConn(c, ce) =>
      ConnStepBalances(s.conns[c], ce);
      BalanceConn(s, c, ConnDo(s.conns[c], ce));
    case ResolveTo(c, p) =>
      ResolveBalances(s.conns[c], p);
      BalanceConn(s, c, s.conns[c].(reader := OpenWait(p, s.conns[c].reader.req)));
    case CloserKills(c) =>
      KillBalances(s.conns[c]);
      BalanceConn(s, c, s.conns[c].(done := true));
    case OnPort(p, pe) =>
      PortStepBalances(cfg, s.m, p, s.ports[p], pe);
      BalancePort(s, p, PortDo(cfg, s.m, p, s.ports[p], pe).q);
    case OnPair(c, p, pe) =>
      PairStepBalances(cfg, s.m, c, s.conns[c], p, s.ports[p], pe);
      var r := PairDo(cfg, s.m, c, s.conns[c], p, s.ports[p], pe);
      BalanceConn(s, c, r.k);
      BalancePort(s, p, r.q);
    case OnMgr(me) =>
      if me.Serve? { FreshBalances(0, false); BalanceConn(s, me.c, FRESH_CONN); }
      if me.AddPort? {
        var q := FreshPort(if me.baud > 0 then me.baud else cfg.defaultBaud, me.hasLog);
        FreshBalances(q.baud, me.hasLog);
        BalancePort(s, me.p, q);
      }
  }

  // ------------------------------------------------------------------ every run

  lemma StepKeepsInv(cfg: Config, s: State, e: Event)
    requires Inv(cfg, s) && Can(s, e)
    ensures Inv(cfg, Do(cfg, s, e))
  {
    hide PortGood, ConnGood, PairGood, ConnDo, PortDo, PairDo, ConnCan, PortCan, PairCan;
    MovesKeepBalance(cfg, s, e);
    match e
    case OnConn(c, ce) => ConnMovesKeepShape(cfg, s, c, ce);
    case ResolveTo(c, p) => ResolveKeepsShape(cfg, s, c, p);
    case CloserKills(c) => CloserKillKeepsShape(cfg, s, c);
    case OnPort(p, pe) =>
      assert PortGood(cfg, s.m, p, s.ports[p], s.conns.Keys);
      PortMovesKeepShape(cfg, s, p, pe);
      PortMovesKeepManaged(cfg, s, p, pe);
    case OnPair(c, p, pe) =>
      assert PortGood(cfg, s.m, p, s.ports[p], s.conns.Keys);
      PairMovesKeepShape(cfg, s, c, p, pe);
      PairMovesKeepManaged(cfg, s, c, p, pe);
    case OnMgr(me) =>
      MgrMovesKeepShape(cfg, s, me);
      MgrMovesKeepManaged(cfg, s, me);
  }

  lemma {:induction false} RunKeepsInv(cfg: Config, s: State, es: seq<Event>)
    requires Inv(cfg, s) && IsRun(cfg, s, es)
    ensures Inv(cfg, StateAfter(cfg, s, es))
    decreases |es|
  {
    if es != [] {
      var front := es[..|es| - 1];
      RunKeepsInv(cfg, s, front);
      StepKeepsInv(cfg, StateAfter(cfg, s, front), es[|es| - 1]);
    }
  }

  /** The state a schedule reaches from a fresh manager. */
  function Reached(cfg: Config, es: seq<Event>): (s: State)
    requires IsRun(cfg, INIT, es)
  {
    StateAfter(cfg, INIT, es)
  }

  lemma ReachedInv(cfg: Config, es: seq<Event>)
    requires IsRun(cfg, INIT, es)
    ensures Inv(cfg, Reached(cfg, es))
  {
    RunKeepsInv(cfg, INIT, es);
  }
}
