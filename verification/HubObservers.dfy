/** The observer limit is the only limit there is: without one any number of clients can
    watch a port, and with one exactly that many. */
module HubObservers {
  import opened Prelude
  import opened Ring
  import opened HubModel
  import opened HubAttach
  import opened HubDelivery
  import opened HubLifecycle
  import opened HubInvariant
  import opened HubDevices
  import opened HubRequests
  import opened HubRuns

  const WATCH := OpenReq(true, 0)

  /** Clients 0 to n - 1 are there, and all of them watch port 0, which nobody writes to. */
  predicate Crowd(s: State, n: nat) {
    && !s.m.closed && (forall c | c in s.conns :: c < n) && 0 in s.ports
    && var q := s.ports[0]; q.sp.Some? && q.lock.None? && q.owner.None? && |q.conns| == n && q.conns <= s.conns.Keys
  }

  lemma EverybodyWatches(q: Port)
    requires q.owner.None?
    ensures Watching(q) == q.conns
  {
  }

  lemma NothingYet(cfg: Config)
    ensures IsRun(cfg, INIT, []) && Reached(cfg, []) == INIT
  {
  }

  /** A port with its device, and nobody there. */
  lemma PortAlone(cfg: Config) returns (es: seq<Event>)
    ensures IsRun(cfg, INIT, es) && Crowd(Reached(cfg, es), 0)
  {
    hide IsRun, StateAfter;
    NothingYet(cfg);
    RunExtends(cfg, [], OnMgr(AddPort(0, 0, true)));
    es := [] + [OnMgr(AddPort(0, 0, true))];
    SyncStartsOneWorker(cfg, es, 0);
    RunExtends(cfg, es, OnPort(0, EnsureBySync));
    es := es + [OnPort(0, EnsureBySync)];
    es := DeviceComesOnline(cfg, es, 0, 5);
  }

  /** Client n connects and asks for the port. */
  lemma NextAsks(cfg: Config, es: seq<Event>, n: nat) returns (es': seq<Event>)
    requires IsRun(cfg, INIT, es) && Crowd(Reached(cfg, es), n)
    ensures IsRun(cfg, INIT, es')
    ensures var s := Reached(cfg, es);
            Reached(cfg, es') == PutConn(s, n, FRESH_CONN.(reader := OpenWait(0, WATCH)))
  {
    hide IsRun, StateAfter;
    var s := Reached(cfg, es);
    RunExtends(cfg, es, OnMgr(Serve(n)));
    es' := es + [OnMgr(Serve(n))];
    assert Reached(cfg, es') == PutConn(s, n, FRESH_CONN);
    ConnGoesOn(cfg, es', s, n, FRESH_CONN, AskOpen(WATCH));
    es' := es' + [OnConn(n, AskOpen(WATCH))];
    var k := FRESH_CONN.(reader := Resolving(WATCH));
    assert Reached(cfg, es') == PutConn(s, n, k);
    RunExtends(cfg, es', ResolveTo(n, 0));
    es' := es' + [ResolveTo(n, 0)];
    var k' := FRESH_CONN.(reader := OpenWait(0, WATCH));
    assert s.conns[n := k][n := k'] == s.conns[n := k'];
  }

  lemma CrowdGrows(cfg: Config, s: State, s': State, n: nat, k: Conn, q: Port)
    requires Crowd(s, n) && s' == Put(s, s.m, n, k, 0, q)
    requires q.conns == s.ports[0].conns + {n} && q.owner.None? && q.lock.None? && q.sp.Some?
    ensures Crowd(s', n + 1)
  {
  }

  lemma NextJoins(cfg: Config, es: seq<Event>, n: nat) returns (es': seq<Event>)
    requires cfg.allowObserve && (cfg.maxObservers <= 0 || n < cfg.maxObservers)
    requires IsRun(cfg, INIT, es) && Crowd(Reached(cfg, es), n)
    ensures IsRun(cfg, INIT, es') && Crowd(Reached(cfg, es'), n + 1)
  {
    hide IsRun, StateAfter, Inv, WithBacklog, If;
    var s := Reached(cfg, es);
    es' := NextAsks(cfg, es, n);
    var asked := Reached(cfg, es');
    var k := FRESH_CONN.(reader := OpenWait(0, WATCH));
    EverybodyWatches(s.ports[0]);
    es' := GrantedOpenAttaches(cfg, es', n, 0);
    var s' := Reached(cfg, es');
    assert s'.conns == s.conns[n := s'.conns[n]] by { assert asked.conns == s.conns[n := k]; }
    CrowdGrows(cfg, s, s', n, s'.conns[n], s'.ports[0]);
  }

  /** Any number of clients the limit allows can watch a port at once; AttachmentSet says
      that it is never more. */
  lemma {:induction false} ObserversReachAnySize(cfg: Config, n: nat) returns (es: seq<Event>)
    requires cfg.allowObserve && (cfg.maxObservers <= 0 || n <= cfg.maxObservers)
    ensures IsRun(cfg, INIT, es)
    ensures var s := Reached(cfg, es); 0 in s.ports && |Watching(s.ports[0])| == n && Crowd(s, n)
  {
    hide IsRun, StateAfter;
    if n == 0 {
      es := PortAlone(cfg);
    } else {
      es := ObserversReachAnySize(cfg, n - 1);
      es := NextJoins(cfg, es, n - 1);
    }
    EverybodyWatches(Reached(cfg, es).ports[0]);
  }
}
