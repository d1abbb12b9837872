/** No client is ever stuck: whatever its reader waits for, a lock, room in its queue or
    its writer, the others or it itself can bring that about. */
module HubReaders {
  import opened Prelude
  import opened HubModel
  import opened HubAttach
  import opened HubDelivery
  import opened HubLifecycle
  import opened HubInvariant
  import opened HubTheorems
  import opened HubDrops
  import opened HubRequests
  import opened HubRuns

  // ------------------------------------------------------------------- freeing a lock

  /** Steps until the lock of a port can be free. */
  function LockLeft(q: Port): (n: nat) {
    if q.lock.None? then 0
    else if q.lock.value.ByReader? then 1
    else if q.worker.FanLoop? then 2 * |q.worker.todo| + 1
    else if q.worker.FanTry? then 2 * |q.worker.todo| + 2
    else 0
  }

  /** Where connection c stands, whoever moves. */
  predicate ReaderStays(c: ConnId, s: State, s': State) {
    c in s.conns && c in s'.conns && s'.conns[c].reader == s.conns[c].reader
  }

  lemma FanHolds(cfg: Config, s: State, p: PortId)
    requires Inv(cfg, s) && p in s.ports && s.ports[p].lock == Some(ByWorker)
    ensures var q := s.ports[p];
            && (q.worker.FanLoop? || q.worker.FanTry?)
            && (q.worker.FanLoop? ==> q.worker.todo <= s.conns.Keys) && (q.worker.FanTry? ==> q.worker.c in s.conns)
  {
    hide Flow, ConnGood, LifeOk, PortFlow, Linked, Managed, Balanced, Observers;
    assert PortGood(cfg, s.m, p, s.ports[p], s.conns.Keys);
  }

  lemma FanLeft(cfg: Config, m: Mgr, c: ConnId, k: Conn, p: PortId, q: Port, e: PairEv)
    requires PairCan(m, c, k, p, q, e) && (e.FanCheck? || e.FanPush?) && q.lock == Some(ByWorker)
    ensures var r := PairDo(cfg, m, c, k, p, q, e); LockLeft(r.q) < LockLeft(q) && r.k.reader == k.reader
  {
    hide TryEnqueue, Offered;
    FanStepKeepsReader(cfg, m, c, k, p, q, e);
    var q' := PairDo(cfg, m, c, k, p, q, e).q;
    if e.FanCheck? { assert q'.worker.todo == q.worker.todo - {c}; }
  }

  lemma FanEnds(cfg: Config, m: Mgr, p: PortId, q: Port)
    requires q.worker.FanLoop? && q.worker.todo == {} && q.lock.Some?
    ensures PortCan(m, p, q, FanEnd) && PortDo(cfg, m, p, q, FanEnd).q.lock.None?
  {
  }

  lemma HolderEnds(cfg: Config, m: Mgr, c: ConnId, k: Conn, p: PortId, q: Port)
    requires PairCan(m, c, k, p, q, OpenFinish)
    ensures PairDo(cfg, m, c, k, p, q, OpenFinish).q.lock.None?
  {
    hide OpenQueued;
  }

  /** The fan-out, if it has the lock, takes a step towards its end. */
  lemma FanCanMove(cfg: Config, s: State, c: ConnId, p: PortId) returns (e: Event)
    requires Inv(cfg, s) && p in s.ports && s.ports[p].lock == Some(ByWorker) && c in s.conns
    ensures Can(s, e) && p in Do(cfg, s, e).ports && ReaderStays(c, s, Do(cfg, s, e))
    ensures LockLeft(Do(cfg, s, e).ports[p]) < LockLeft(s.ports[p])
  {
    hide Inv, PairDo, PortDo;
    FanHolds(cfg, s, p);
    var q := s.ports[p];
    if q.worker.FanTry? {
      e := OnPair(q.worker.c, p, FanPush);
      FanLeft(cfg, s.m, q.worker.c, s.conns[q.worker.c], p, q, FanPush);
    } else if q.worker.todo != {} {
      var d :| d in q.worker.todo;
      e := OnPair(d, p, FanCheck);
      FanLeft(cfg, s.m, d, s.conns[d], p, q, FanCheck);
    } else {
      e := OnPort(p, FanEnd);
      FanEnds(cfg, s.m, p, q);
    }
  }

  lemma HolderIsAnother(cfg: Config, s: State, c: ConnId, p: PortId)
    requires Inv(cfg, s) && p in s.ports && c in s.conns && !s.conns[c].reader.OpenHold?
    ensures s.ports[p].lock != Some(ByReader(c))
  {
    hide Flow, ConnGood, PortGood, Managed, Balanced, Observers, Holds, Writes;
    assert PairGood(cfg, c, s.conns[c], p, s.ports[p]);
  }

  lemma HolderCanMove(cfg: Config, s: State, c: ConnId, p: PortId) returns (e: Event)
    requires Inv(cfg, s) && p in s.ports && c in s.conns && !s.conns[c].reader.OpenHold?
    requires s.ports[p].lock.Some? && s.ports[p].lock.value.ByReader?
    ensures Can(s, e) && p in Do(cfg, s, e).ports && ReaderStays(c, s, Do(cfg, s, e))
    ensures LockLeft(Do(cfg, s, e).ports[p]) < LockLeft(s.ports[p])
  {
    hide Inv, PairDo, PairCan;
    HolderIsAnother(cfg, s, c, p);
    HolderCanFinish(cfg, s, p);
    var d := s.ports[p].lock.value.c;
    e := OnPair(d, p, OpenFinish);
    HolderEnds(cfg, s.m, d, s.conns[d], p, s.ports[p]);
  }

  /** Whoever is inside p.mu can leave, without c moving. */
  lemma {:induction false} LockCanBeFreed(cfg: Config, es: seq<Event>, c: ConnId, p: PortId) returns (es': seq<Event>)
    requires IsRun(cfg, INIT, es) && c in Reached(cfg, es).conns && p in Reached(cfg, es).ports
    requires !Reached(cfg, es).conns[c].reader.OpenHold?
    ensures IsRun(cfg, INIT, es') && es <= es' && ReaderStays(c, Reached(cfg, es), Reached(cfg, es'))
    ensures p in Reached(cfg, es').ports && Reached(cfg, es').ports[p].lock.None?
    decreases LockLeft(Reached(cfg, es).ports[p])
  {
    hide Inv, IsRun, StateAfter, Can, Do, LockLeft;
    var s := Reached(cfg, es);
    if s.ports[p].lock.None? { return es; }
    ReachedInv(cfg, es);
    var e: Event;
    if s.ports[p].lock.value.ByReader? {
      e := HolderCanMove(cfg, s, c, p);
    } else {
      e := FanCanMove(cfg, s, c, p);
    }
    RunExtends(cfg, es, e);
    es' := LockCanBeFreed(cfg, es + [e], c, p);
  }

  // ------------------------------------------------------------------- where a reader goes

  function AfterThat(after: After): (n: nat) {
    match after case Reopen(_) => 14 case ReplyClosed => 8 case Teardown => 3 case Joined => 8 case Broke => 7
  }

  /** How far a reader is from its next frame, or its end. */
  function ToGo(r: Reader): (n: nat) {
    match r
    case Exited => 0
    case Idle => 0
    case Unregister => 1
    case WaitWriter => 2
    case CloseDone => 3
    case Check => 7
    case Sending => 8
    case CountConn(_, _) => 9
    case CountPort(_, _, _) => 10
    case InputDevice(_, _) => 11
    case InputPort(_, _) => 12
    case BreakPort(_) => 9
    case BreakNote(_) => 10
    case Resolving(_) => 14
    case OpenWait(_, _) => 13
    case OpenHold(_, _, _, _, _) => 12
    case OpenCommit(_, _, _) => 11
    case OpenEnsure(_, _) => 10
    case LineDue(_, _, after) => 1 + AfterThat(after)
    case DetachPort(_, _, after) => 2 + AfterThat(after)
  }

  /** Steps that a reader takes on its own. */
  function OwnStep(r: Reader): (e: ConnEv)
    requires r.Unregister? || r.CloseDone? || r.Check? || r.CountConn? || r.Resolving? || r.OpenCommit?
  {
    match r
    case Unregister => Leave
    case CloseDone => SignalDone
    case Check => LookDone
    case CountConn(_, _) => CountOwn
    case Resolving(_) => ResolveFails
    case OpenCommit(_, _, _) => CommitOpen
  }

  predicate OnItsOwn(r: Reader) {
    r.Unregister? || r.CloseDone? || r.Check? || r.CountConn? || r.Resolving? || r.OpenCommit?
  }

  lemma OwnStepGoes(k: Conn)
    requires OnItsOwn(k.reader)
    ensures ConnCan(k, OwnStep(k.reader)) && ToGo(ConnDo(k, OwnStep(k.reader)).reader) < ToGo(k.reader)
  {
  }

  /** Steps that need a port, and mostly its lock. */
  predicate AtPort(r: Reader) {
    || r.DetachPort? || r.OpenWait? || r.OpenHold? || r.OpenEnsure? || r.InputPort? || r.InputDevice? || r.CountPort?
    || r.BreakPort? || r.BreakNote? || r.LineDue?
  }

  function PortStep(r: Reader): (e: PairEv)
    requires AtPort(r)
  {
    match r
    case DetachPort(_, _, _) => DetachStep
    case OpenWait(_, _) => OpenLock
    case OpenHold(_, _, _, _, _) => OpenFinish
    case OpenEnsure(_, _) => EnsureByOpen
    case InputPort(_, _) => ReadDevice
    case InputDevice(_, _) => DeviceTook(0, false)
    case CountPort(_, _, _) => CountOnPort
    case BreakPort(_) => BreakTry(false)
    case BreakNote(_) => BreakTake
    case LineDue(_, _, _) => SayNote
  }

  lemma OpenStepGoes(cfg: Config, m: Mgr, c: ConnId, k: Conn, p: PortId, q: Port)
    requires k.reader.DetachPort? || k.reader.OpenWait? || k.reader.OpenHold? || k.reader.OpenEnsure?
    requires k.reader.p == p && (q.lock.None? || k.reader.OpenHold?)
    ensures PairCan(m, c, k, p, q, PortStep(k.reader))
    ensures ToGo(PairDo(cfg, m, c, k, p, q, PortStep(k.reader)).k.reader) < ToGo(k.reader)
  {
    hide Refused, OpenQueued;
  }

  lemma PortStepGoes(cfg: Config, m: Mgr, c: ConnId, k: Conn, p: PortId, q: Port)
    requires AtPort(k.reader) && k.reader.p == p && (q.lock.None? || k.reader.OpenHold?)
    ensures PairCan(m, c, k, p, q, PortStep(k.reader))
    ensures ToGo(PairDo(cfg, m, c, k, p, q, PortStep(k.reader)).k.reader) < ToGo(k.reader)
  {
    if k.reader.DetachPort? || k.reader.OpenWait? || k.reader.OpenHold? || k.reader.OpenEnsure? {
      hide PairDo, PairCan, ToGo, PortStep;
      OpenStepGoes(cfg, m, c, k, p, q);
    } else {
      hide OpenChecked, OpenQueued, FanChecked, FanPushed;
    }
  }

  lemma NamedPortIsThere(cfg: Config, s: State, c: ConnId)
    requires Inv(cfg, s) && c in s.conns && AtPort(s.conns[c].reader)
    ensures s.conns[c].reader.p in s.ports
  {
    hide ConnOk, ConnFlow, PortGood, PairGood, Managed, Balanced;
    assert ConnGood(s.conns[c], s.ports.Keys);
  }

  lemma ReaderAtPortMoves(cfg: Config, es: seq<Event>, c: ConnId) returns (es': seq<Event>)
    requires IsRun(cfg, INIT, es) && c in Reached(cfg, es).conns && AtPort(Reached(cfg, es).conns[c].reader)
    ensures IsRun(cfg, INIT, es') && es <= es' && c in Reached(cfg, es').conns
    ensures ToGo(Reached(cfg, es').conns[c].reader) < ToGo(Reached(cfg, es).conns[c].reader)
  {
    hide Inv, IsRun, StateAfter, ToGo, PairDo, PairCan, PortStep;
    var r := Reached(cfg, es).conns[c].reader;
    ReachedInv(cfg, es);
    NamedPortIsThere(cfg, Reached(cfg, es), c);
    es' := es;
    if !r.OpenHold? { es' := LockCanBeFreed(cfg, es, c, r.p); }
    var s := Reached(cfg, es');
    PortStepGoes(cfg, s.m, c, s.conns[c], r.p, s.ports[r.p]);
    var e := OnPair(c, r.p, PortStep(r));
    RunExtends(cfg, es', e);
    es' := es' + [e];
  }

  lemma PutConnHas(s: State, c: ConnId, k: Conn)
    ensures c in PutConn(s, c, k).conns && PutConn(s, c, k).conns[c] == k
  {
  }

  lemma QueueIsBounded(cfg: Config, es: seq<Event>, c: ConnId)
    requires IsRun(cfg, INIT, es) && c in Reached(cfg, es).conns
    ensures |Reached(cfg, es).conns[c].queue| <= QUEUE_DEPTH
  {
    hide IsRun, StateAfter, DataOf;
    SlowClientSeesNoHole(cfg, es, c);
  }

  /** A full queue is emptied by the writer, or the client is dropped. */
  lemma RoomCanBeMade(cfg: Config, es: seq<Event>, c: ConnId) returns (es': seq<Event>)
    requires IsRun(cfg, INIT, es) && c in Reached(cfg, es).conns && Reached(cfg, es).conns[c].reader.Sending?
    ensures IsRun(cfg, INIT, es') && es <= es' && c in Reached(cfg, es').conns
            && Reached(cfg, es').conns[c].reader.Sending?
    ensures var k := Reached(cfg, es').conns[c]; k.done || |k.queue| < QUEUE_DEPTH
  {
    hide Inv, IsRun, StateAfter, PutConn;
    var s := Reached(cfg, es);
    var k := s.conns[c];
    QueueIsBounded(cfg, es, c);
    StoppedIsDone(cfg, es, c);
    es' := es;
    if k.done || |k.queue| < QUEUE_DEPTH { return; }
    PutConnItself(s, c);
    if k.writer.Writing? {
      ConnGoesOn(cfg, es, s, c, k, Wrote);
      es' := es + [OnConn(c, Wrote)];
      k := k.(sent := k.sent + [k.writer.msg], writer := Loop);
    }
    ConnGoesOn(cfg, es', s, c, k, Take);
    es' := es' + [OnConn(c, Take)];
    PutConnHas(s, c, ConnDo(k, Take));
  }

  lemma SendingMoves(cfg: Config, es: seq<Event>, c: ConnId) returns (es': seq<Event>)
    requires IsRun(cfg, INIT, es) && c in Reached(cfg, es).conns && Reached(cfg, es).conns[c].reader.Sending?
    ensures IsRun(cfg, INIT, es') && es <= es' && c in Reached(cfg, es').conns
            && Reached(cfg, es').conns[c].reader.Check?
  {
    hide IsRun, StateAfter;
    es' := RoomCanBeMade(cfg, es, c);
    var e := OnConn(c, if Reached(cfg, es').conns[c].done then SendAborted else SendPush);
    RunExtends(cfg, es', e);
    es' := es' + [e];
  }

  lemma WaitingMoves(cfg: Config, es: seq<Event>, c: ConnId) returns (es': seq<Event>)
    requires IsRun(cfg, INIT, es) && c in Reached(cfg, es).conns && Reached(cfg, es).conns[c].reader.WaitWriter?
    ensures IsRun(cfg, INIT, es') && es <= es' && c in Reached(cfg, es').conns
            && Reached(cfg, es').conns[c].reader.Unregister?
  {
    hide IsRun, StateAfter, PutConn, WriterEnds;
    var s := Reached(cfg, es);
    var k := s.conns[c];
    CloseDropsEverybody(cfg, es, c);
    PutConnItself(s, c);
    WriterCanEnd(k);
    var ends := WriterEnds(k.writer);
    es' := es;
    if ends != [] {
      ConnGoesOn(cfg, es', s, c, k, ends[0]);
      es', k := es' + [OnConn(c, ends[0])], k.(writer := Stopped);
    }
    ConnGoesOn(cfg, es', s, c, k, JoinWriter);
    es' := es' + [OnConn(c, JoinWriter)];
    PutConnHas(s, c, ConnDo(k, JoinWriter));
  }

  lemma OwnMoves(cfg: Config, es: seq<Event>, c: ConnId) returns (es': seq<Event>)
    requires IsRun(cfg, INIT, es) && c in Reached(cfg, es).conns && OnItsOwn(Reached(cfg, es).conns[c].reader)
    ensures IsRun(cfg, INIT, es') && es <= es' && c in Reached(cfg, es').conns
    ensures ToGo(Reached(cfg, es').conns[c].reader) < ToGo(Reached(cfg, es).conns[c].reader)
  {
    hide IsRun, StateAfter, ConnDo, ConnCan, ToGo, OwnStep;
    var k := Reached(cfg, es).conns[c];
    OwnStepGoes(k);
    RunExtends(cfg, es, OnConn(c, OwnStep(k.reader)));
    es' := es + [OnConn(c, OwnStep(k.reader))];
  }

  lemma Nearer(r: Reader)
    ensures r.Sending? ==> ToGo(Check) < ToGo(r)
    ensures r.WaitWriter? ==> ToGo(Unregister) < ToGo(r)
    ensures r.Idle? || r.Exited? || OnItsOwn(r) || AtPort(r) || r.Sending? || r.WaitWriter?
  {
  }

  /** No request hangs: from every reachable state there is a continuation in which a given
      client's reader is back at reading frames, or has left. */
  lemma {:induction false} NoRequestHangs(cfg: Config, es: seq<Event>, c: ConnId) returns (es': seq<Event>)
    requires IsRun(cfg, INIT, es) && c in Reached(cfg, es).conns
    ensures IsRun(cfg, INIT, es') && es <= es' && c in Reached(cfg, es').conns
    ensures var r := Reached(cfg, es').conns[c].reader; r.Idle? || r.Exited?
    decreases ToGo(Reached(cfg, es).conns[c].reader)
  {
    hide IsRun, StateAfter, ToGo, AtPort, OnItsOwn;
    var r := Reached(cfg, es).conns[c].reader;
    Nearer(r);
    if r.Idle? || r.Exited? { return es; }
    if OnItsOwn(r) { es' := OwnMoves(cfg, es, c); }
    else if AtPort(r) { es' := ReaderAtPortMoves(cfg, es, c); }
    else if r.Sending? { es' := SendingMoves(cfg, es, c); }
    else { es' := WaitingMoves(cfg, es, c); }
    es' := NoRequestHangs(cfg, es', c);
  }
}
