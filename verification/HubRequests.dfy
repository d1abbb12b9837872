/** What a client's requests come to when nothing is in their way: opening a port, typing,
    letting go, leaving. Each is a run from any reachable state, and what it leaves behind
    is said of the whole state. */
module HubRequests {
  import opened Prelude
  import opened Ring
  import opened HubModel
  import opened HubAttach
  import opened HubDelivery
  import opened HubLifecycle
  import opened HubInvariant
  import opened HubDevices
  import opened HubRuns

  // ------------------------------------------------------------------ opening a port

  /** Who is attached without being the owner. */
  function Watching(q: Port): (cs: set<ConnId>) { set o | o in q.conns && q.owner != Some(o) }

  /** The port is there, and either nobody else writes to it or one more may watch. */
  predicate Granted(cfg: Config, q: Port, req: OpenReq) {
    && q.sp.Some?
    && if req.observe then cfg.allowObserve && (cfg.maxObservers <= 0 || |Watching(q)| < cfg.maxObservers)
       else q.owner.None?
  }

  lemma ObserversAreWatching(q: Port)
    ensures Observers(q.conns, q.owner) == |Watching(q)|
  {
    assert Watching(q) == if q.owner.Some? then q.conns - {q.owner.value} else q.conns;
  }

  /** Who asks for a port is not attached to it. */
  lemma AskerIsOut(cfg: Config, s: State, c: ConnId, p: PortId)
    requires Inv(cfg, s) && c in s.conns && p in s.ports && s.conns[c].reader.OpenWait?
    ensures s.conns[c].port.None? && s.ports[p].owner != Some(c) && c !in s.ports[p].conns
  {
    hide ConnFlow, Known, Flow, LifeOk, PortFlow, Managed, Balanced, Observers, HubAttach.Admitted;
    assert ConnGood(s.conns[c], s.ports.Keys) && PairGood(cfg, c, s.conns[c], p, s.ports[p]);
  }

  /** An opening is granted exactly under that condition; if it is not, an error is sent and
      nothing has changed. */
  lemma OpenIsGrantedIff(cfg: Config, es: seq<Event>, c: ConnId, p: PortId)
    requires IsRun(cfg, INIT, es) && Can(Reached(cfg, es), OnPair(c, p, OpenLock))
    ensures var s := Reached(cfg, es); var s' := Do(cfg, s, OnPair(c, p, OpenLock)); var k, q := s.conns[c], s.ports[p];
            && c in s'.conns
            && (s'.conns[c].reader.OpenHold? <==> Granted(cfg, q, k.reader.req))
            && (!Granted(cfg, q, k.reader.req) ==> s' == s.(conns := s.conns[c := k.(reader := Sending)]))
  {
    hide Inv, IsRun, StateAfter, Observers;
    ReachedInv(cfg, es);
    var s := Reached(cfg, es);
    AskerIsOut(cfg, s, c, p);
    ObserversAreWatching(s.ports[p]);
    assert s.ports[p := s.ports[p]] == s.ports;
  }

  /** The line rate an opening leaves: its own if it asks for one and is the first. */
  function RateAfter(q: Port, req: OpenReq): (baud: int) { if req.baud > 0 && q.conns == {} then req.baud else q.baud }

  /** The port once c has joined it. */
  function WithClient(c: ConnId, q: Port, req: OpenReq): (r: Port) {
    q.(conns := q.conns + {c}, owner := if req.observe then q.owner else Some(c), baud := RateAfter(q, req))
  }

  lemma OpeningLocks(cfg: Config, m: Mgr, c: ConnId, k: Conn, p: PortId, q: Port, req: OpenReq)
    requires k.reader == OpenWait(p, req) && q.lock.None? && Granted(cfg, q, req)
    ensures PairCan(m, c, k, p, q, OpenLock)
    ensures PairDo(cfg, m, c, k, p, q, OpenLock)
            == Effect(m, k.(reader := OpenHold(p, req, q.ring, |q.ringed|, k.done)),
                      q.(lock := Some(ByReader(c)), baud := RateAfter(q, req)))
  {
    hide Observers;
    ObserversAreWatching(q);
  }

  /** The connection with its backlog queued, or dropped because it has no room for it. */
  function WithBacklog(k: Conn, p: PortId, q: Port): (r: Conn) {
    var queued := if q.ring != [] && !k.done && |k.queue| < QUEUE_DEPTH then [Data(q.ring)] else [];
    k.(queue := k.queue + queued, enq := k.enq + queued,
       past := k.past + k.got, got := if queued == [] then [] else [q.ring],
       done := k.done || (q.ring != [] && |k.queue| >= QUEUE_DEPTH),
       cut := k.cut || (q.ring != [] && queued == []),
       att := Some(Att(p, q.ring, |q.ringed|, q.fanned, q.fanned)))
  }

  lemma BacklogIsQueued(k: Conn, p: PortId, q: Port, q1: Port, req: OpenReq)
    requires q1.fanned == q.fanned
    ensures var k1 := k.(reader := OpenHold(p, req, q.ring, |q.ringed|, k.done));
            OpenQueued(k1, p, q1) == WithBacklog(k, p, q).(reader := k1.reader)
  {
    assert k.queue + [] == k.queue && k.enq + [] == k.enq;
    assert [] + [q.ring] == [q.ring];
  }

  lemma OpeningFinishes(cfg: Config, m: Mgr, c: ConnId, k: Conn, p: PortId, q: Port, req: OpenReq)
    requires q.lock.None?
    ensures var k1 := k.(reader := OpenHold(p, req, q.ring, |q.ringed|, k.done));
            var q1 := q.(lock := Some(ByReader(c)), baud := RateAfter(q, req));
            && PairCan(m, c, k1, p, q1, OpenFinish)
            && PairDo(cfg, m, c, k1, p, q1, OpenFinish)
               == Effect(m, WithBacklog(k, p, q).(reader := OpenCommit(p, !req.observe, q.logOpen)),
                         WithClient(c, q, req))
  {
    hide OpenQueued, WithBacklog;
    BacklogIsQueued(k, p, q, q.(lock := Some(ByReader(c)), baud := RateAfter(q, req)), req);
  }

  lemma OpeningCommits(k: Conn, p: PortId, w: bool, log: bool)
    requires k.reader == OpenCommit(p, w, log)
    ensures ConnCan(k, CommitOpen)
    ensures ConnDo(k, CommitOpen) == k.(port := Some(p), writable := w, reader := OpenEnsure(p, log))
  {
  }

  lemma OpeningEnsures(cfg: Config, m: Mgr, c: ConnId, k: Conn, p: PortId, q: Port, log: bool)
    requires k.reader == OpenEnsure(p, log) && q.running && q.lock.None?
    ensures PairCan(m, c, k, p, q, EnsureByOpen)
    ensures PairDo(cfg, m, c, k, p, q, EnsureByOpen) == Effect(m, k.(reader := LineDue(p, log, Joined)), q)
  {
  }

  lemma LineIsSaid(cfg: Config, m: Mgr, c: ConnId, k: Conn, p: PortId, q: Port, log: bool, after: After)
    requires k.reader == LineDue(p, log, after)
    ensures PairCan(m, c, k, p, q, SayNote)
    ensures PairDo(cfg, m, c, k, p, q, SayNote)
            == Effect(m, k.(reader := Resume(after)), q.(lines := q.lines + If(log, Says(c))))
  {
  }

  lemma OpenerHasPort(cfg: Config, es: seq<Event>, c: ConnId, p: PortId)
    requires IsRun(cfg, INIT, es) && Can(Reached(cfg, es), OnPair(c, p, OpenLock))
    ensures var s := Reached(cfg, es);
            && c in s.conns && p in s.ports && s.conns[c].reader == OpenWait(p, s.conns[c].reader.req)
            && s.ports[p].lock.None?
            && (Granted(cfg, s.ports[p], s.conns[c].reader.req) ==> s.ports[p].sp.Some?)
  {
    hide IsRun, StateAfter;
  }

  /** A granted opening, if nothing comes in between, attaches the client: it stands in the
      port's set, owns the port if it is to write and not otherwise, has the backlog queued
      ahead of anything live, and the first to attach has set the line rate. */
  lemma GrantedOpenAttaches(cfg: Config, es: seq<Event>, c: ConnId, p: PortId) returns (es': seq<Event>)
    requires IsRun(cfg, INIT, es) && Can(Reached(cfg, es), OnPair(c, p, OpenLock))
    requires var s := Reached(cfg, es); Granted(cfg, s.ports[p], s.conns[c].reader.req)
    ensures es' == es + [OnPair(c, p, OpenLock)] + [OnPair(c, p, OpenFinish)] + [OnConn(c, CommitOpen)]
                      + [OnPair(c, p, EnsureByOpen)] + [OnPair(c, p, SayNote)]
    ensures IsRun(cfg, INIT, es')
    ensures var s := Reached(cfg, es); var k, q := s.conns[c], s.ports[p]; var req := k.reader.req;
            Reached(cfg, es') == Put(s, s.m,
              c, WithBacklog(k, p, q).(port := Some(p), writable := !req.observe, reader := Sending),
              p, WithClient(c, q, req).(lines := q.lines + If(q.logOpen, Says(c))))
  {
    hide IsRun, StateAfter, Inv, PairDo, PairCan, ConnDo, ConnCan, Put, Granted, WithBacklog, If, Last;
    var s := Reached(cfg, es);
    var m, k, q := s.m, s.conns[c], s.ports[p];
    OpenerHasPort(cfg, es, c, p);
    var req := k.reader.req;
    DeviceIsTheWorkers(cfg, es, p);
    PutItself(s, c, p);
    OpeningLocks(cfg, m, c, k, p, q, req);
    PairGoes(cfg, es, s, m, c, k, p, q, OpenLock);
    es' := es + [OnPair(c, p, OpenLock)];
    OpeningFinishes(cfg, m, c, k, p, q, req);
    var k1 := k.(reader := OpenHold(p, req, q.ring, |q.ringed|, k.done));
    var q1 := q.(lock := Some(ByReader(c)), baud := RateAfter(q, req));
    PairGoes(cfg, es', s, m, c, k1, p, q1, OpenFinish);
    es' := es' + [OnPair(c, p, OpenFinish)];
    var k2 := WithBacklog(k, p, q).(reader := OpenCommit(p, !req.observe, q.logOpen));
    var q2 := WithClient(c, q, req);
    OpeningCommits(k2, p, !req.observe, q.logOpen);
    ConnGoes(cfg, es', s, m, c, k2, p, q2, CommitOpen);
    es' := es' + [OnConn(c, CommitOpen)];
    var k3 := k2.(port := Some(p), writable := !req.observe, reader := OpenEnsure(p, q.logOpen));
    OpeningEnsures(cfg, m, c, k3, p, q2, q.logOpen);
    PairGoes(cfg, es', s, m, c, k3, p, q2, EnsureByOpen);
    es' := es' + [OnPair(c, p, EnsureByOpen)];
    var k4 := k3.(reader := LineDue(p, q.logOpen, Joined));
    LineIsSaid(cfg, m, c, k4, p, q2, q.logOpen, Joined);
    PairGoes(cfg, es', s, m, c, k4, p, q2, SayNote);
    es' := es' + [OnPair(c, p, SayNote)];
  }

  /** A client comes unattached and with nothing queued; a port comes with nobody attached,
      no device, no worker and an empty ring, at its configured rate or, without one, at the
      default. Neither comes once Close has begun, and neither disturbs what is there. */
  lemma NewcomersStartClean(cfg: Config, s: State, c: ConnId, p: PortId, baud: int, hasLog: bool)
    ensures Can(s, OnMgr(Serve(c))) <==> !s.m.closed && c !in s.conns
    ensures Can(s, OnMgr(AddPort(p, baud, hasLog))) <==> !s.m.closed && p !in s.ports
    ensures Can(s, OnMgr(Serve(c))) ==>
              var k := Do(cfg, s, OnMgr(Serve(c))).conns[c];
              && Do(cfg, s, OnMgr(Serve(c))) == PutConn(s, c, k)
              && k.reader.Idle? && k.writer.Loop? && k.port.None? && !k.writable && k.queue == [] && !k.done
              && k.written == 0
    ensures Can(s, OnMgr(AddPort(p, baud, hasLog))) ==>
              var q := Do(cfg, s, OnMgr(AddPort(p, baud, hasLog))).ports[p];
              && Do(cfg, s, OnMgr(AddPort(p, baud, hasLog))) == PutPort(s, s.m, p, q)
              && q.conns == {} && q.owner.None? && q.lock.None? && q.sp.None? && !q.online && q.ring == []
              && !Alive(q) && q.logOpen == hasLog && q.written == 0
              && (baud > 0 ==> q.baud == baud) && (baud <= 0 ==> q.baud == cfg.defaultBaud)
  {
  }

  // ---------------------------------------------------------------------------- typing

  /** The connection may write to p and is about to read its next frame. */
  predicate ReadyToWrite(s: State, c: ConnId, p: PortId) {
    && c in s.conns && p in s.ports
    && s.conns[c].reader.Idle? && s.conns[c].port == Some(p) && s.conns[c].writable && s.ports[p].lock.None?
  }

  lemma InputGoesToPort(k: Conn, p: PortId, data: bytes)
    requires k.reader.Idle? && k.port == Some(p) && k.writable
    ensures ConnCan(k, Input(data)) && ConnDo(k, Input(data)) == k.(reader := InputPort(p, data))
  {
  }

  lemma PortGoesToDevice(cfg: Config, m: Mgr, c: ConnId, k: Conn, p: PortId, q: Port, data: bytes)
    requires q.lock.None?
    ensures var k1 := k.(reader := InputPort(p, data));
            && PairCan(m, c, k1, p, q, ReadDevice)
            && PairDo(cfg, m, c, k1, p, q, ReadDevice)
               == Effect(m, k.(reader := if q.sp.Some? then InputDevice(p, data) else Sending), q)
  {
  }

  lemma DeviceTakes(cfg: Config, m: Mgr, c: ConnId, k: Conn, p: PortId, q: Port, data: bytes, n: nat, err: bool)
    requires 0 < n <= |data|
    ensures var k1 := k.(reader := InputDevice(p, data));
            && PairCan(m, c, k1, p, q, DeviceTook(n, err))
            && PairDo(cfg, m, c, k1, p, q, DeviceTook(n, err))
               == Effect(m, k.(reader := CountPort(p, n, err)), q.(handed := q.handed + [(c, data[..n])]))
  {
  }

  lemma PortCounts(cfg: Config, m: Mgr, c: ConnId, k: Conn, p: PortId, q: Port, n: nat, err: bool)
    requires q.lock.None?
    ensures var k1 := k.(reader := CountPort(p, n, err));
            && PairCan(m, c, k1, p, q, CountOnPort)
            && PairDo(cfg, m, c, k1, p, q, CountOnPort)
               == Effect(m, k.(reader := CountConn(n, err)), q.(written := q.written + n))
  {
  }

  lemma ConnCounts(k: Conn, n: nat, err: bool)
    ensures var k1 := k.(reader := CountConn(n, err));
            && ConnCan(k1, CountOwn)
            && ConnDo(k1, CountOwn) == k.(written := k.written + n, reader := if err then Sending else Check)
  {
  }

  /** What a writer types reaches the device: as many bytes of the frame as the device takes
      are handed to it, and counted once for the port and once for the connection; only an
      error of the device is answered. */
  lemma InputReachesTheDevice(cfg: Config, es: seq<Event>, c: ConnId, p: PortId, data: bytes, n: nat, err: bool)
    returns (es': seq<Event>)
    requires IsRun(cfg, INIT, es) && ReadyToWrite(Reached(cfg, es), c, p) && Reached(cfg, es).ports[p].sp.Some?
    requires 0 < n <= |data|
    ensures es' == es + [OnConn(c, Input(data))] + [OnPair(c, p, ReadDevice)] + [OnPair(c, p, DeviceTook(n, err))]
                      + [OnPair(c, p, CountOnPort)] + [OnConn(c, CountOwn)]
    ensures IsRun(cfg, INIT, es')
    ensures var s := Reached(cfg, es); var k, q := s.conns[c], s.ports[p];
            Reached(cfg, es') == Put(s, s.m,
              c, k.(written := k.written + n, reader := if err then Sending else Check),
              p, q.(handed := q.handed + [(c, data[..n])], written := q.written + n))
  {
    hide IsRun, StateAfter, PairDo, PairCan, ConnDo, ConnCan, Put;
    var s := Reached(cfg, es);
    var m, k, q := s.m, s.conns[c], s.ports[p];
    PutItself(s, c, p);
    InputGoesToPort(k, p, data);
    ConnGoes(cfg, es, s, m, c, k, p, q, Input(data));
    es' := es + [OnConn(c, Input(data))];
    PortGoesToDevice(cfg, m, c, k, p, q, data);
    PairGoes(cfg, es', s, m, c, k.(reader := InputPort(p, data)), p, q, ReadDevice);
    es' := es' + [OnPair(c, p, ReadDevice)];
    DeviceTakes(cfg, m, c, k, p, q, data, n, err);
    PairGoes(cfg, es', s, m, c, k.(reader := InputDevice(p, data)), p, q, DeviceTook(n, err));
    es' := es' + [OnPair(c, p, DeviceTook(n, err))];
    var q1 := q.(handed := q.handed + [(c, data[..n])]);
    PortCounts(cfg, m, c, k, p, q1, n, err);
    PairGoes(cfg, es', s, m, c, k.(reader := CountPort(p, n, err)), p, q1, CountOnPort);
    es' := es' + [OnPair(c, p, CountOnPort)];
    ConnCounts(k, n, err);
    ConnGoes(cfg, es', s, m, c, k.(reader := CountConn(n, err)), p, q1.(written := q1.written + n), CountOwn);
    es' := es' + [OnConn(c, CountOwn)];
  }

  /** Typed at a port that is offline, it is answered with an error and goes nowhere. */
  lemma InputWithoutDevice(cfg: Config, es: seq<Event>, c: ConnId, p: PortId, data: bytes) returns (es': seq<Event>)
    requires IsRun(cfg, INIT, es) && ReadyToWrite(Reached(cfg, es), c, p) && Reached(cfg, es).ports[p].sp.None?
    ensures es' == es + [OnConn(c, Input(data))] + [OnPair(c, p, ReadDevice)] && IsRun(cfg, INIT, es')
    ensures var s := Reached(cfg, es);
            Reached(cfg, es') == s.(conns := s.conns[c := s.conns[c].(reader := Sending)])
  {
    hide IsRun, StateAfter, PairDo, PairCan, ConnDo, ConnCan;
    var s := Reached(cfg, es);
    var m, k, q := s.m, s.conns[c], s.ports[p];
    PutItself(s, c, p);
    InputGoesToPort(k, p, data);
    ConnGoes(cfg, es, s, m, c, k, p, q, Input(data));
    es' := es + [OnConn(c, Input(data))];
    PortGoesToDevice(cfg, m, c, k, p, q, data);
    PairGoes(cfg, es', s, m, c, k.(reader := InputPort(p, data)), p, q, ReadDevice);
    es' := es' + [OnPair(c, p, ReadDevice)];
    assert s.ports[p := q] == s.ports;
  }

  /** Typed by a connection that may not write, it is passed over: the reader goes on to its
      next frame, and nothing else has changed. */
  lemma InputOfOthersIsDropped(cfg: Config, es: seq<Event>, c: ConnId, data: bytes)
    requires IsRun(cfg, INIT, es) && c in Reached(cfg, es).conns && Reached(cfg, es).conns[c].reader.Idle?
    requires var k := Reached(cfg, es).conns[c]; k.port.None? || !k.writable
    ensures Can(Reached(cfg, es), OnConn(c, Input(data)))
    ensures var s := Reached(cfg, es);
            Do(cfg, s, OnConn(c, Input(data))) == s.(conns := s.conns[c := s.conns[c].(reader := Check)])
  {
    hide IsRun, StateAfter;
  }

  // ------------------------------------------------------------------------ letting go

  /** A request that ends an attachment, and what comes after. */
  predicate LetsGoBy(k: Conn, e: ConnEv, after: After) {
    match e
    case AskOpen(req) => k.reader.Idle? && after == Reopen(req)
    case AskClose => k.reader.Idle? && after == ReplyClosed
    case ReadEnd => k.reader.Idle? && after == Teardown
    case LookDone => k.reader.Check? && k.done && after == Teardown
    case _ => false
  }

  /** Where that leads: the reopened port is looked up, the reply is sent, the connection
      is taken down. */
  predicate Follows(after: After, r: Reader) {
    match after
    case Reopen(req) => r == Resolving(req)
    case ReplyClosed => r == Sending
    case Teardown => r == CloseDone
    case _ => false
  }

  lemma LettingGo(k: Conn, e: ConnEv, after: After, p: PortId)
    requires LetsGoBy(k, e, after)
    ensures ConnCan(k, e)
    ensures k.port == Some(p) ==>
              ConnDo(k, e) == k.(port := None, writable := false, reader := DetachPort(p, k.writable, after))
    ensures k.port.None? ==>
              && ConnDo(k, e) == k.(writable := false, reader := ConnDo(k, e).reader)
              && Follows(after, ConnDo(k, e).reader)
  {
  }

  lemma GoingOn(k: Conn, e: ConnEv, after: After)
    requires LetsGoBy(k, e, after)
    ensures (k.reader.Idle? || k.reader.Check?) && Follows(after, Resume(after))
  {
  }

  lemma LeavingPort(cfg: Config, m: Mgr, c: ConnId, k: Conn, p: PortId, q: Port, w: bool, after: After)
    requires q.lock.None?
    ensures var k1 := k.(reader := DetachPort(p, w, after));
            && PairCan(m, c, k1, p, q, DetachStep)
            && PairDo(cfg, m, c, k1, p, q, DetachStep)
               == Effect(m, k.(reader := LineDue(p, q.logOpen, after)),
                         q.(conns := q.conns - {c}, owner := if q.owner == Some(c) then None else q.owner))
  {
  }

  lemma AttachedPort(cfg: Config, s: State, c: ConnId, p: PortId)
    requires Inv(cfg, s) && c in s.conns && s.conns[c].port == Some(p)
    requires s.conns[c].reader.Idle? || s.conns[c].reader.Check?
    ensures p in s.ports && c in s.ports[p].conns && (s.conns[c].writable <==> s.ports[p].owner == Some(c))
  {
    hide ConnOk, ConnFlow, Flow, LifeOk, PortFlow, Managed, Balanced, Observers, HubAttach.Admitted;
    assert ConnGood(s.conns[c], s.ports.Keys) && PairGood(cfg, c, s.conns[c], p, s.ports[p]);
  }

  /** Closing, reopening, hanging up and being killed all let the port go: the client leaves
      its set, and a writer leaves the port free for the next one. */
  lemma LeavingFreesThePort(cfg: Config, es: seq<Event>, c: ConnId, p: PortId, e: ConnEv, after: After)
    returns (es': seq<Event>)
    requires IsRun(cfg, INIT, es) && c in Reached(cfg, es).conns && p in Reached(cfg, es).ports
    requires LetsGoBy(Reached(cfg, es).conns[c], e, after) && Reached(cfg, es).conns[c].port == Some(p)
    requires Reached(cfg, es).ports[p].lock.None?
    ensures es' == es + [OnConn(c, e)] + [OnPair(c, p, DetachStep)] + [OnPair(c, p, SayNote)] && IsRun(cfg, INIT, es')
    ensures var s := Reached(cfg, es); var k, q := s.conns[c], s.ports[p];
            && Follows(after, Resume(after))
            && Reached(cfg, es') == Put(s, s.m,
                 c, k.(port := None, writable := false, reader := Resume(after)),
                 p, q.(conns := q.conns - {c}, owner := if k.writable then None else q.owner,
                       lines := q.lines + If(q.logOpen, Says(c))))
  {
    hide IsRun, StateAfter, Inv, PairDo, PairCan, ConnDo, ConnCan, Put, If, LetsGoBy, Follows, Resume;
    var s := Reached(cfg, es);
    var m, k, q := s.m, s.conns[c], s.ports[p];
    ReachedInv(cfg, es);
    GoingOn(k, e, after);
    AttachedPort(cfg, s, c, p);
    PutItself(s, c, p);
    LettingGo(k, e, after, p);
    ConnGoes(cfg, es, s, m, c, k, p, q, e);
    es' := es + [OnConn(c, e)];
    var k1 := k.(port := None, writable := false);
    LeavingPort(cfg, m, c, k1, p, q, k.writable, after);
    PairGoes(cfg, es', s, m, c, k1.(reader := DetachPort(p, k.writable, after)), p, q, DetachStep);
    es' := es' + [OnPair(c, p, DetachStep)];
    var q1 := q.(conns := q.conns - {c}, owner := if q.owner == Some(c) then None else q.owner);
    LineIsSaid(cfg, m, c, k1.(reader := LineDue(p, q.logOpen, after)), p, q1, q.logOpen, after);
    PairGoes(cfg, es', s, m, c, k1.(reader := LineDue(p, q.logOpen, after)), p, q1, SayNote);
    es' := es' + [OnPair(c, p, SayNote)];
  }

  /** Without an attachment there is nothing to let go of. */
  lemma NothingToLeave(cfg: Config, es: seq<Event>, c: ConnId, e: ConnEv, after: After)
    requires IsRun(cfg, INIT, es) && c in Reached(cfg, es).conns && Reached(cfg, es).conns[c].port.None?
    requires LetsGoBy(Reached(cfg, es).conns[c], e, after)
    ensures Can(Reached(cfg, es), OnConn(c, e))
    ensures var s := Reached(cfg, es); var s' := Do(cfg, s, OnConn(c, e));
            && c in s'.conns && Follows(after, s'.conns[c].reader)
            && s' == s.(conns := s.conns[c := s.conns[c].(writable := false, reader := s'.conns[c].reader)])
  {
    hide IsRun, StateAfter, ConnDo, ConnCan;
    LettingGo(Reached(cfg, es).conns[c], e, after, 0);
  }

  // -------------------------------------------------------------------- answers, breaks

  /** A request that asks nothing of a port is answered, while there is room, with one
      control frame; then the reader takes the next. */
  lemma RequestIsAnswered(cfg: Config, es: seq<Event>, c: ConnId) returns (es': seq<Event>)
    requires IsRun(cfg, INIT, es) && c in Reached(cfg, es).conns
    requires var k := Reached(cfg, es).conns[c]; k.reader.Idle? && |k.queue| < QUEUE_DEPTH && !k.done
    ensures es' == es + [OnConn(c, AskOther)] + [OnConn(c, SendPush)] + [OnConn(c, LookDone)] && IsRun(cfg, INIT, es')
    ensures var s := Reached(cfg, es); var k := s.conns[c];
            Reached(cfg, es') == PutConn(s, c, k.(queue := k.queue + [Ctrl], enq := k.enq + [Ctrl]))
  {
    hide IsRun, StateAfter, PutConn;
    var s := Reached(cfg, es);
    var k := s.conns[c];
    PutConnItself(s, c);
    ConnGoesOn(cfg, es, s, c, k, AskOther);
    es' := es + [OnConn(c, AskOther)];
    ConnGoesOn(cfg, es', s, c, k.(reader := Sending), SendPush);
    es' := es' + [OnConn(c, SendPush)];
    ConnGoesOn(cfg, es', s, c, Push(k, Ctrl).(reader := Check), LookDone);
    es' := es' + [OnConn(c, LookDone)];
  }

  /** A lookup that finds no port, a break without the right to it, and one the device does
      not take are answered too, and nothing else has changed. */
  lemma ErrorsAreAnswered(cfg: Config, s: State, c: ConnId, p: PortId, ok: bool)
    requires c in s.conns && p in s.ports
    ensures var k, q := s.conns[c], s.ports[p];
            && (Can(s, OnConn(c, ResolveFails)) ==>
                Do(cfg, s, OnConn(c, ResolveFails)) == PutConn(s, c, k.(reader := Sending)))
            && (Can(s, OnConn(c, AskBreak)) && (k.port.None? || !k.writable) ==>
                Do(cfg, s, OnConn(c, AskBreak)) == PutConn(s, c, k.(reader := Sending)))
            && (Can(s, OnPair(c, p, BreakTry(ok))) && (q.sp.None? || !ok) ==>
                Do(cfg, s, OnPair(c, p, BreakTry(ok))) == PutConn(s, c, k.(reader := Sending)))
  {
    assert s.ports[p := s.ports[p]] == s.ports;
  }

  /** The writer takes the oldest frame of the queue and writes it. */
  lemma OldestFrameIsWritten(cfg: Config, es: seq<Event>, c: ConnId) returns (es': seq<Event>)
    requires IsRun(cfg, INIT, es) && c in Reached(cfg, es).conns
    requires var k := Reached(cfg, es).conns[c]; k.writer.Loop? && k.queue != []
    ensures es' == es + [OnConn(c, Take)] + [OnConn(c, Wrote)] && IsRun(cfg, INIT, es')
    ensures var s := Reached(cfg, es); var k := s.conns[c];
            Reached(cfg, es') == PutConn(s, c, k.(queue := k.queue[1..], sent := k.sent + [k.queue[0]]))
  {
    hide IsRun, StateAfter, PutConn;
    var s := Reached(cfg, es);
    var k := s.conns[c];
    PutConnItself(s, c);
    ConnGoesOn(cfg, es, s, c, k, Take);
    es' := es + [OnConn(c, Take)];
    ConnGoesOn(cfg, es', s, c, k.(queue := k.queue[1..], writer := Writing(k.queue[0])), Wrote);
    es' := es' + [OnConn(c, Wrote)];
  }

  /** A notice is queued if there is room and forgotten if not; nobody is dropped for it. */
  lemma NoticeIsBestEffort(cfg: Config, s: State, c: ConnId)
    requires c in s.conns
    ensures Can(s, OnConn(c, Notice))
    ensures var k := s.conns[c];
            Do(cfg, s, OnConn(c, Notice)) ==
            if |k.queue| < QUEUE_DEPTH then
              s.(conns := s.conns[c := k.(queue := k.queue + [Ctrl], enq := k.enq + [Ctrl])])
            else s
  {
    assert s.conns[c := s.conns[c]] == s.conns;
  }

  lemma BreakSteps(cfg: Config, m: Mgr, c: ConnId, k: Conn, p: PortId, q: Port)
    requires q.sp.Some? && q.lock.None?
    ensures var k1, k2 := k.(reader := BreakPort(p)), k.(reader := BreakNote(p));
            && PairCan(m, c, k1, p, q, BreakTry(true))
            && PairDo(cfg, m, c, k1, p, q, BreakTry(true)) == Effect(m, k2, q)
            && PairCan(m, c, k2, p, q, BreakTake)
            && PairDo(cfg, m, c, k2, p, q, BreakTake) == Effect(m, k.(reader := LineDue(p, q.logOpen, Broke)), q)
  {
  }

  lemma BreakAsked(k: Conn, p: PortId)
    requires k.reader.Idle? && k.port == Some(p) && k.writable
    ensures ConnCan(k, AskBreak) && ConnDo(k, AskBreak) == k.(reader := BreakPort(p))
  {
  }

  /** A writer's break leaves one line in the log and changes nothing else. */
  lemma BreakIsNoted(cfg: Config, es: seq<Event>, c: ConnId, p: PortId) returns (es': seq<Event>)
    requires IsRun(cfg, INIT, es) && ReadyToWrite(Reached(cfg, es), c, p) && Reached(cfg, es).ports[p].sp.Some?
    ensures es' == es + [OnConn(c, AskBreak)] + [OnPair(c, p, BreakTry(true))] + [OnPair(c, p, BreakTake)]
                      + [OnPair(c, p, SayNote)]
    ensures IsRun(cfg, INIT, es')
    ensures var s := Reached(cfg, es); var k, q := s.conns[c], s.ports[p];
            Reached(cfg, es') == Put(s, s.m, c, k.(reader := Check), p, q.(lines := q.lines + If(q.logOpen, Says(c))))
  {
    hide IsRun, StateAfter, PairDo, PairCan, ConnDo, ConnCan, Put, If;
    var s := Reached(cfg, es);
    var m, k, q := s.m, s.conns[c], s.ports[p];
    PutItself(s, c, p);
    BreakAsked(k, p);
    ConnGoes(cfg, es, s, m, c, k, p, q, AskBreak);
    es' := es + [OnConn(c, AskBreak)];
    BreakSteps(cfg, m, c, k, p, q);
    PairGoes(cfg, es', s, m, c, k.(reader := BreakPort(p)), p, q, BreakTry(true));
    es' := es' + [OnPair(c, p, BreakTry(true))];
    PairGoes(cfg, es', s, m, c, k.(reader := BreakNote(p)), p, q, BreakTake);
    es' := es' + [OnPair(c, p, BreakTake)];
    LineIsSaid(cfg, m, c, k.(reader := LineDue(p, q.logOpen, Broke)), p, q, q.logOpen, Broke);
    PairGoes(cfg, es', s, m, c, k.(reader := LineDue(p, q.logOpen, Broke)), p, q, SayNote);
    es' := es' + [OnPair(c, p, SayNote)];
  }

  // ---------------------------------------------------------------------------- leaving

  /** What the writer still has to do once done is signalled. */
  function WriterEnds(w: Writer): (r: seq<ConnEv>) {
    match w case Loop => [WriterSeesDone] case Writing(_) => [WriteFails] case Stopped => []
  }

  lemma WriterCanEnd(k: Conn)
    requires k.done
    ensures var ends := WriterEnds(k.writer);
            if ends == [] then k.writer.Stopped?
            else ConnCan(k, ends[0]) && ConnDo(k, ends[0]) == k.(writer := Stopped) && |ends| == 1
  {
  }

  /** A connection that is taken down signals its writer, waits for it and is gone; nothing
      it still has queued is written. */
  lemma EndedConnectionIsGone(cfg: Config, es: seq<Event>, c: ConnId) returns (es': seq<Event>)
    requires IsRun(cfg, INIT, es) && c in Reached(cfg, es).conns && Reached(cfg, es).conns[c].reader.CloseDone?
    ensures IsRun(cfg, INIT, es') && es <= es'
    ensures var s := Reached(cfg, es);
            Reached(cfg, es') == PutConn(s, c, s.conns[c].(reader := Exited, writer := Stopped, done := true))
  {
    hide IsRun, StateAfter, PutConn, WriterEnds;
    var s := Reached(cfg, es);
    var k := s.conns[c];
    PutConnItself(s, c);
    ConnGoesOn(cfg, es, s, c, k, SignalDone);
    es', k := es + [OnConn(c, SignalDone)], k.(done := true, reader := WaitWriter);
    WriterCanEnd(k);
    var ends := WriterEnds(k.writer);
    if ends != [] {
      ConnGoesOn(cfg, es', s, c, k, ends[0]);
      es', k := es' + [OnConn(c, ends[0])], k.(writer := Stopped);
    }
    ConnGoesOn(cfg, es', s, c, k, JoinWriter);
    es' := es' + [OnConn(c, JoinWriter)];
    ConnGoesOn(cfg, es', s, c, k.(reader := Unregister), Leave);
    es' := es' + [OnConn(c, Leave)];
  }
}
