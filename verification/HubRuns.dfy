/** Building runs of the hub: one event in front, one event behind, and the small hub of
    one client and one port in which the example runs take place. */
module HubRuns {
  import opened Prelude
  import opened Ring
  import opened HubModel
  import opened HubInvariant

  /** An event before a run makes a run. */
  lemma {:induction false} RunPrepends(cfg: Config, s: State, e: Event, es: seq<Event>)
    requires Can(s, e) && IsRun(cfg, Do(cfg, s, e), es)
    ensures IsRun(cfg, s, [e] + es) && StateAfter(cfg, s, [e] + es) == StateAfter(cfg, Do(cfg, s, e), es)
    decreases |es|
  {
    hide Can, Do;
    if es == [] {
      assert [e] + es == [e] && [e][..0] == [];
    } else {
      var front := es[..|es| - 1];
      RunPrepends(cfg, s, e, front);
      assert ([e] + es)[..|es|] == [e] + front;
    }
  }

  /** An event behind a run makes a run. */
  lemma RunExtends(cfg: Config, es: seq<Event>, e: Event)
    requires IsRun(cfg, INIT, es) && Can(Reached(cfg, es), e)
    ensures IsRun(cfg, INIT, es + [e]) && Reached(cfg, es + [e]) == Do(cfg, Reached(cfg, es), e)
  {
    assert (es + [e])[..|es|] == es;
  }

  // ------------------------------------------ one client and one port, among others

  /** s, but for what one client, one port and the manager have come to. */
  function Put(s: State, m: Mgr, c: ConnId, k: Conn, p: PortId, q: Port): (r: State) {
    State(m, s.ports[p := q], s.conns[c := k])
  }

  lemma PutItself(s: State, c: ConnId, p: PortId)
    requires c in s.conns && p in s.ports
    ensures Put(s, s.m, c, s.conns[c], p, s.ports[p]) == s
  {
    assert s.ports[p := s.ports[p]] == s.ports && s.conns[c := s.conns[c]] == s.conns;
  }

  lemma ConnGoes(cfg: Config, es: seq<Event>, s: State, m: Mgr, c: ConnId, k: Conn, p: PortId, q: Port, e: ConnEv)
    requires IsRun(cfg, INIT, es) && Reached(cfg, es) == Put(s, m, c, k, p, q) && ConnCan(k, e)
    ensures IsRun(cfg, INIT, es + [OnConn(c, e)])
    ensures Reached(cfg, es + [OnConn(c, e)]) == Put(s, m, c, ConnDo(k, e), p, q)
  {
    hide ConnDo, ConnCan, IsRun, StateAfter;
    RunExtends(cfg, es, OnConn(c, e));
    assert s.conns[c := k][c := ConnDo(k, e)] == s.conns[c := ConnDo(k, e)];
  }

  lemma PortGoes(cfg: Config, es: seq<Event>, s: State, m: Mgr, c: ConnId, k: Conn, p: PortId, q: Port, e: PortEv)
    requires IsRun(cfg, INIT, es) && Reached(cfg, es) == Put(s, m, c, k, p, q) && PortCan(m, p, q, e)
    ensures var r := PortDo(cfg, m, p, q, e);
            IsRun(cfg, INIT, es + [OnPort(p, e)]) && Reached(cfg, es + [OnPort(p, e)]) == Put(s, r.m, c, k, p, r.q)
  {
    hide PortDo, PortCan, IsRun, StateAfter;
    RunExtends(cfg, es, OnPort(p, e));
    var r := PortDo(cfg, m, p, q, e);
    assert s.ports[p := q][p := r.q] == s.ports[p := r.q];
  }

  lemma PairGoes(cfg: Config, es: seq<Event>, s: State, m: Mgr, c: ConnId, k: Conn, p: PortId, q: Port, e: PairEv)
    requires IsRun(cfg, INIT, es) && Reached(cfg, es) == Put(s, m, c, k, p, q) && PairCan(m, c, k, p, q, e)
    ensures var r := PairDo(cfg, m, c, k, p, q, e);
            && IsRun(cfg, INIT, es + [OnPair(c, p, e)])
            && Reached(cfg, es + [OnPair(c, p, e)]) == Put(s, r.m, c, r.k, p, r.q)
  {
    hide PairDo, PairCan, IsRun, StateAfter;
    RunExtends(cfg, es, OnPair(c, p, e));
    var r := PairDo(cfg, m, c, k, p, q, e);
    assert s.ports[p := q][p := r.q] == s.ports[p := r.q] && s.conns[c := k][c := r.k] == s.conns[c := r.k];
  }

  /** s, but for what one port and the manager have come to. */
  function PutPort(s: State, m: Mgr, p: PortId, q: Port): (r: State) { s.(m := m, ports := s.ports[p := q]) }

  lemma PutPortItself(s: State, p: PortId)
    requires p in s.ports
    ensures PutPort(s, s.m, p, s.ports[p]) == s
  {
    assert s.ports[p := s.ports[p]] == s.ports;
  }

  lemma PortGoesOn(cfg: Config, es: seq<Event>, s: State, m: Mgr, p: PortId, q: Port, e: PortEv)
    requires IsRun(cfg, INIT, es) && Reached(cfg, es) == PutPort(s, m, p, q) && PortCan(m, p, q, e)
    ensures var r := PortDo(cfg, m, p, q, e);
            IsRun(cfg, INIT, es + [OnPort(p, e)]) && Reached(cfg, es + [OnPort(p, e)]) == PutPort(s, r.m, p, r.q)
  {
    hide PortDo, PortCan, IsRun, StateAfter;
    RunExtends(cfg, es, OnPort(p, e));
    var r := PortDo(cfg, m, p, q, e);
    assert s.ports[p := q][p := r.q] == s.ports[p := r.q];
  }

  /** s, but for what one client has come to. */
  function PutConn(s: State, c: ConnId, k: Conn): (r: State) { s.(conns := s.conns[c := k]) }

  lemma PutConnItself(s: State, c: ConnId)
    requires c in s.conns
    ensures PutConn(s, c, s.conns[c]) == s
  {
    assert s.conns[c := s.conns[c]] == s.conns;
  }

  lemma ConnGoesOn(cfg: Config, es: seq<Event>, s: State, c: ConnId, k: Conn, e: ConnEv)
    requires IsRun(cfg, INIT, es) && Reached(cfg, es) == PutConn(s, c, k) && ConnCan(k, e)
    ensures IsRun(cfg, INIT, es + [OnConn(c, e)])
    ensures Reached(cfg, es + [OnConn(c, e)]) == PutConn(s, c, ConnDo(k, e))
  {
    hide ConnDo, ConnCan, IsRun, StateAfter;
    RunExtends(cfg, es, OnConn(c, e));
    assert s.conns[c := k][c := ConnDo(k, e)] == s.conns[c := ConnDo(k, e)];
  }

  // ------------------------------------------------------ one client and one port

  function Small(m: Mgr, k: Conn, q: Port): (s: State) { State(m, map[0 := q], map[0 := k]) }

  predicate At(s: State, m: Mgr, k: Conn, q: Port) { s == Small(m, k, q) }

  lemma AtHas(s: State, m: Mgr)
    ensures forall k, q :: At(s, m, k, q) ==> 0 in s.conns && s.conns[0] == k && 0 in s.ports && s.ports[0] == q
  {
  }

  lemma PortRuns(cfg: Config, es: seq<Event>, m: Mgr, k: Conn, q: Port, e: PortEv)
    requires IsRun(cfg, INIT, es) && At(Reached(cfg, es), m, k, q) && PortCan(m, 0, q, e)
    ensures var r := PortDo(cfg, m, 0, q, e);
            IsRun(cfg, INIT, es + [OnPort(0, e)]) && At(Reached(cfg, es + [OnPort(0, e)]), r.m, k, r.q)
  {
    hide PortDo, PortCan, IsRun, StateAfter;
    RunExtends(cfg, es, OnPort(0, e));
    assert map[0 := q][0 := PortDo(cfg, m, 0, q, e).q] == map[0 := PortDo(cfg, m, 0, q, e).q];
  }

  lemma ConnRuns(cfg: Config, es: seq<Event>, m: Mgr, k: Conn, q: Port, e: ConnEv)
    requires IsRun(cfg, INIT, es) && At(Reached(cfg, es), m, k, q) && ConnCan(k, e)
    ensures IsRun(cfg, INIT, es + [OnConn(0, e)]) && At(Reached(cfg, es + [OnConn(0, e)]), m, ConnDo(k, e), q)
  {
    hide ConnDo, ConnCan, IsRun, StateAfter;
    RunExtends(cfg, es, OnConn(0, e));
    assert map[0 := k][0 := ConnDo(k, e)] == map[0 := ConnDo(k, e)];
  }

  lemma PairRuns(cfg: Config, es: seq<Event>, m: Mgr, k: Conn, q: Port, e: PairEv)
    requires IsRun(cfg, INIT, es) && At(Reached(cfg, es), m, k, q) && PairCan(m, 0, k, 0, q, e)
    ensures var r := PairDo(cfg, m, 0, k, 0, q, e);
            IsRun(cfg, INIT, es + [OnPair(0, 0, e)]) && At(Reached(cfg, es + [OnPair(0, 0, e)]), r.m, r.k, r.q)
  {
    hide PairDo, PairCan, IsRun, StateAfter;
    RunExtends(cfg, es, OnPair(0, 0, e));
    var r := PairDo(cfg, m, 0, k, 0, q, e);
    assert map[0 := q][0 := r.q] == map[0 := r.q] && map[0 := k][0 := r.k] == map[0 := r.k];
  }

  lemma ResolveRuns(cfg: Config, es: seq<Event>, m: Mgr, k: Conn, q: Port)
    requires IsRun(cfg, INIT, es) && At(Reached(cfg, es), m, k, q) && k.reader.Resolving?
    ensures IsRun(cfg, INIT, es + [ResolveTo(0, 0)])
    ensures At(Reached(cfg, es + [ResolveTo(0, 0)]), m, k.(reader := OpenWait(0, k.reader.req)), q)
  {
    hide IsRun, StateAfter;
    RunExtends(cfg, es, ResolveTo(0, 0));
    var k' := k.(reader := OpenWait(0, k.reader.req));
    assert map[0 := k][0 := k'] == map[0 := k'];
  }

  lemma CloserKillRuns(cfg: Config, es: seq<Event>, m: Mgr, k: Conn, q: Port)
    requires IsRun(cfg, INIT, es) && At(Reached(cfg, es), m, k, q) && m.closer.Killing? && 0 in m.closer.todo
    ensures IsRun(cfg, INIT, es + [CloserKills(0)])
    ensures At(Reached(cfg, es + [CloserKills(0)]), m.(closer := m.closer.(todo := m.closer.todo - {0})),
               k.(done := true), q)
  {
    hide IsRun, StateAfter;
    RunExtends(cfg, es, CloserKills(0));
    assert map[0 := k][0 := k.(done := true)] == map[0 := k.(done := true)];
  }

  lemma MgrRuns(cfg: Config, es: seq<Event>, m: Mgr, k: Conn, q: Port, e: MgrEv)
    requires IsRun(cfg, INIT, es) && At(Reached(cfg, es), m, k, q) && MgrCan(Small(m, k, q), e)
    requires !e.Serve? && !e.AddPort?
    ensures IsRun(cfg, INIT, es + [OnMgr(e)])
    ensures At(Reached(cfg, es + [OnMgr(e)]), MgrDo(cfg, Small(m, k, q), e).m, k, q)
  {
    hide IsRun, StateAfter;
    RunExtends(cfg, es, OnMgr(e));
  }

  /** A manager with one worker. */
  const ONE_WORKER := Mgr(false, 1, NotStarted, NotClosing, 0)

  const WRITE_REQ := OpenReq(false, 0)

  /** A port whose worker is at w, with these chunks in the ring and none fanned out. */
  function OnlinePort(cfg: Config, w: Worker, chunks: seq<bytes>): (q: Port) {
    FreshPort(cfg.defaultBaud, true).(sp := Some(5), online := true, running := true, worker := w, spawned := 1,
                                      audit := [true], lines := [Went(true)],
                                      ringed := chunks, ring := Last(cfg.ringSize, Flat(chunks)))
  }

  lemma ServedAndPlugged(cfg: Config) returns (es: seq<Event>)
    ensures IsRun(cfg, INIT, es) && At(Reached(cfg, es), INIT.m, FRESH_CONN, FreshPort(cfg.defaultBaud, true))
  {
    assert IsRun(cfg, INIT, []);
    RunExtends(cfg, [], OnMgr(Serve(0)));
    RunExtends(cfg, [] + [OnMgr(Serve(0))], OnMgr(AddPort(0, 0, true)));
    es := [] + [OnMgr(Serve(0))] + [OnMgr(AddPort(0, 0, true))];
    assert map[][0 := FRESH_CONN] == map[0 := FRESH_CONN];
  }

  /** The worker starts and opens the device. */
  lemma WentOnline(cfg: Config) returns (es: seq<Event>)
    ensures IsRun(cfg, INIT, es) && At(Reached(cfg, es), ONE_WORKER, FRESH_CONN, OnlinePort(cfg, Reading, []))
  {
    hide IsRun, StateAfter, At;
    es := ServedAndPlugged(cfg);
    var k, q := FRESH_CONN, FreshPort(cfg.defaultBaud, true);
    PortRuns(cfg, es, INIT.m, k, q, EnsureBySync);
    es, q := es + [OnPort(0, EnsureBySync)], q.(running := true, worker := Top, spawned := 1);
    PortRuns(cfg, es, ONE_WORKER, k, q, Look);
    es, q := es + [OnPort(0, Look)], q.(worker := Opening(q.baud));
    PortRuns(cfg, es, ONE_WORKER, k, q, Opened(5));
    es, q := es + [OnPort(0, Opened(5))], q.(worker := GoOnline(5, q.baud));
    PortRuns(cfg, es, ONE_WORKER, k, q, Online);
    es, q := es + [OnPort(0, Online)], q.(sp := Some(5), online := true, worker := AuditOnline(true));
    PortRuns(cfg, es, ONE_WORKER, k, q, LogOnline);
    es := es + [OnPort(0, LogOnline)];
    assert [] + [true] == [true] && [] + [Went(true)] == [Went(true)];
    assert Flat<byte>([]) == [] && Last<byte>(cfg.ringSize, []) == [];
  }
}
