/** The one overlap in what a client is sent: a chunk that is in the ring already but
    not fanned out yet when the client opens the port. When it happens, that it
    happens, and that it is nothing but that chunk. */
module HubOverlap {
  import opened Prelude
  import opened Ring
  import opened HubModel
  import opened HubAttach
  import opened HubDelivery
  import opened HubLifecycle
  import opened HubInvariant
  import opened HubRuns

  // ---------------------------------------------------------- when it happens

  /** An opening that its checks admit. */
  predicate Admits(cfg: Config, s: State, c: ConnId, p: PortId) {
    && Can(s, OnPair(c, p, OpenLock))
    && !Refused(cfg, c, s.ports[p], s.conns[c].reader.req.observe)
  }

  /** The copy of the ring is one chunk ahead of the fan-out exactly when the worker
      stands between fanout's ring step and its p.mu section. */
  lemma BacklogIsAheadIff(cfg: Config, s: State, c: ConnId, p: PortId)
    requires Inv(cfg, s) && Admits(cfg, s, c, p)
    ensures var s' := Do(cfg, s, OnPair(c, p, OpenLock)); var hold := s'.conns[c].reader;
            && hold.OpenHold? && hold.p == p && s'.ports[p].fanned == s.ports[p].fanned
            && hold.seen == s.ports[p].fanned + if s.ports[p].worker.FanLock? then 1 else 0
  {
    hide Flow, ConnGood, LifeOk, Linked, Observers, Managed, Balanced;
    assert PortGood(cfg, s.m, p, s.ports[p], s.conns.Keys);
  }

  lemma HoldingConnStep(k: Conn, e: ConnEv)
    requires k.reader.OpenHold? && ConnCan(k, e)
    ensures ConnDo(k, e).reader == k.reader
  {
  }

  lemma HoldingPairStep(cfg: Config, m: Mgr, c: ConnId, k: Conn, p: PortId, q: Port, e: PairEv)
    requires k.reader.OpenHold? && PairCan(m, c, k, p, q, e) && !e.OpenFinish?
    ensures PairDo(cfg, m, c, k, p, q, e).k.reader == k.reader
    ensures PairDo(cfg, m, c, k, p, q, e).q.fanned == q.fanned
  {
    assert e.FanCheck? || e.FanPush?;
    FanStepKeepsReader(cfg, m, c, k, p, q, e);
  }

  lemma HolderFacts(cfg: Config, s: State, c: ConnId, p: PortId)
    requires Inv(cfg, s) && c in s.conns && p in s.ports
    requires s.conns[c].reader.OpenHold? && s.conns[c].reader.p == p
    ensures var q := s.ports[p]; PortOk(cfg, q) && q.lock == Some(ByReader(c)) && (q.running <==> !q.worker.Absent?)
  {
    hide Flow, ConnGood, PortFlow, PortOk, Placed, Alternates, Noted, Managed, Balanced, Holds, Writes;
    hide HubAttach.Admitted;
    assert PortGood(cfg, s.m, p, s.ports[p], s.conns.Keys) && PairGood(cfg, c, s.conns[c], p, s.ports[p]);
  }

  lemma PortWhileHeld(cfg: Config, m: Mgr, p: PortId, q: Port, e: PortEv, c: ConnId)
    requires PortOk(cfg, q) && PortCan(m, p, q, e) && q.lock == Some(ByReader(c))
    requires q.running <==> !q.worker.Absent?
    ensures PortDo(cfg, m, p, q, e).q.fanned == q.fanned
  {
    hide PortOk, PortDo, PortCan, OfferedTo;
    PortStepGrows(cfg, m, p, q, e, c);
  }

  lemma HolderFinishesHere(m: Mgr, c: ConnId, k: Conn, p: PortId, q: Port, e: PairEv)
    requires k.reader.OpenHold? && PairCan(m, c, k, p, q, e)
    ensures e.OpenFinish? ==> k.reader.p == p
  {
  }

  /** While c holds the port's lock nobody else moves it, or the port's count of chunks. */
  lemma StepWhileHolding(cfg: Config, s: State, e: Event, c: ConnId, p: PortId)
    requires Inv(cfg, s) && Can(s, e) && e != OnPair(c, p, OpenFinish)
    requires c in s.conns && p in s.ports && s.conns[c].reader.OpenHold? && s.conns[c].reader.p == p
    ensures var s' := Do(cfg, s, e);
            && c in s'.conns && p in s'.ports
            && s'.conns[c].reader == s.conns[c].reader && s'.ports[p].fanned == s.ports[p].fanned
  {
    hide Inv, PortOk, ConnDo, PortDo, PairDo, ConnCan, PortCan, PairCan, OfferedTo;
    HolderFacts(cfg, s, c, p);
    match e
    case OnConn(d, ce) => if d == c { HoldingConnStep(s.conns[c], ce); }
    case OnPort(r, pe) =>
      if r == p { PortWhileHeld(cfg, s.m, p, s.ports[p], pe, c); }
    case OnPair(d, r, pe) =>
      if d == c { HolderFinishesHere(s.m, c, s.conns[c], r, s.ports[r], pe); }
      if d == c { HoldingPairStep(cfg, s.m, c, s.conns[c], r, s.ports[r], pe); }
      else if r == p { PairStepKeepsOffers(cfg, s.m, d, s.conns[d], p, s.ports[p], pe, c); }
    case _ =>
  }

  lemma {:induction false} RunWhileHolding(cfg: Config, s: State, es: seq<Event>, c: ConnId, p: PortId)
    requires Inv(cfg, s) && IsRun(cfg, s, es) && OnPair(c, p, OpenFinish) !in es
    requires c in s.conns && p in s.ports && s.conns[c].reader.OpenHold? && s.conns[c].reader.p == p
    ensures var s' := StateAfter(cfg, s, es);
            && c in s'.conns && p in s'.ports
            && s'.conns[c].reader == s.conns[c].reader && s'.ports[p].fanned == s.ports[p].fanned
    decreases |es|
  {
    hide Inv, Can, Do;
    if es != [] {
      var front := es[..|es| - 1];
      RunWhileHolding(cfg, s, front, c, p);
      RunKeepsInv(cfg, s, front);
      assert es[|es| - 1] in es;
      StepWhileHolding(cfg, StateAfter(cfg, s, front), es[|es| - 1], c, p);
    }
  }

  /** An attachment's backlog and its live data overlap, by one chunk, exactly when the
      ring was copied for it while the worker stood between fanout's two steps: in any
      run up to the copy, and whatever runs until the lock is released. */
  lemma OverlapIffCaughtBetween(cfg: Config, before: seq<Event>, meanwhile: seq<Event>, c: ConnId, p: PortId)
    requires IsRun(cfg, INIT, before) && Admits(cfg, Reached(cfg, before), c, p)
    requires var locked := Do(cfg, Reached(cfg, before), OnPair(c, p, OpenLock));
             && IsRun(cfg, locked, meanwhile) && OnPair(c, p, OpenFinish) !in meanwhile
             && Can(StateAfter(cfg, locked, meanwhile), OnPair(c, p, OpenFinish))
    ensures var s := Reached(cfg, before);
            var atEnd := StateAfter(cfg, Do(cfg, s, OnPair(c, p, OpenLock)), meanwhile);
            var k := Do(cfg, atEnd, OnPair(c, p, OpenFinish)).conns[c];
            && k.att.Some? && k.att.value.port == p
            && k.att.value.first == s.ports[p].fanned
            && (k.att.value.seen == k.att.value.first + 1 <==> s.ports[p].worker.FanLock?)
            && (k.att.value.seen == k.att.value.first <==> !s.ports[p].worker.FanLock?)
  {
    hide Inv, ConnDo, PortDo, IsRun, StateAfter;
    var s := Reached(cfg, before);
    var locked := Do(cfg, s, OnPair(c, p, OpenLock));
    ReachedInv(cfg, before);
    BacklogIsAheadIff(cfg, s, c, p);
    StepKeepsInv(cfg, s, OnPair(c, p, OpenLock));
    RunWhileHolding(cfg, locked, meanwhile, c, p);
  }

  // ------------------------------------------------------- what it consists of

  /** Chunks are never empty: fanout is called for n > 0 only. */
  predicate Solid(q: Port) {
    && (q.worker.RingStep? ==> q.worker.chunk != [])
    && forall i | 0 <= i < |q.ringed| :: q.ringed[i] != []
  }

  lemma PortStepKeepsSolid(cfg: Config, m: Mgr, p: PortId, q: Port, e: PortEv)
    requires Solid(q) && PortCan(m, p, q, e)
    ensures Solid(PortDo(cfg, m, p, q, e).q)
  {
    var q' := PortDo(cfg, m, p, q, e).q;
    assert q'.ringed == q.ringed || (e.RingWrite? && q'.ringed == q.ringed + [q.worker.chunk]);
  }

  lemma PairStepKeepsSolid(cfg: Config, m: Mgr, c: ConnId, k: Conn, p: PortId, q: Port, e: PairEv)
    requires Solid(q) && PairCan(m, c, k, p, q, e)
    ensures Solid(PairDo(cfg, m, c, k, p, q, e).q)
  {
    var q' := PairDo(cfg, m, c, k, p, q, e).q;
    assert q'.ringed == q.ringed;
  }

  lemma FreshIsSolid(baud: int, hasLog: bool)
    ensures Solid(FreshPort(baud, hasLog))
  {
  }

  lemma {:induction false} ChunksAreSolid(cfg: Config, es: seq<Event>, p: PortId)
    requires IsRun(cfg, INIT, es) && p in Reached(cfg, es).ports
    ensures Solid(Reached(cfg, es).ports[p])
    decreases |es|
  {
    hide Solid, ConnDo, PortDo, PairDo, ConnCan, PortCan, PairCan;
    if es != [] {
      var front, e := es[..|es| - 1], es[|es| - 1];
      var s := Reached(cfg, front);
      if p in s.ports { ChunksAreSolid(cfg, front, p); }
      match e
      case OnPort(r, pe) => if r == p { PortStepKeepsSolid(cfg, s.m, p, s.ports[p], pe); }
      case OnPair(c, r, pe) => if r == p { PairStepKeepsSolid(cfg, s.m, c, s.conns[c], p, s.ports[p], pe); }
      case OnMgr(me) => if me.AddPort? { FreshIsSolid(me.baud, me.hasLog); FreshIsSolid(cfg.defaultBaud, me.hasLog); }
      case _ =>
    }
  }

  /** The end of a window, as long as the last chunk, is what the window holds of it. */
  lemma EndOfWindow(n: nat, h: bytes, chunk: bytes)
    requires n > 0 && chunk != []
    ensures var w := Last(n, h + chunk); w != [] && Last(|chunk|, w) == Last(n, chunk)
  {
    var whole := h + chunk;
    var w := Last(n, whole);
    if |chunk| >= n {
      LastOfLong(n, h, chunk);
      assert w == chunk[|chunk| - n..];
    } else {
      var from := if |whole| <= n then 0 else |whole| - n;
      assert w == whole[from..] == h[from..] + chunk;
      assert (h[from..] + chunk)[|h[from..]|..] == chunk;
    }
  }

  lemma TwiceInGot(cfg: Config, k: Conn, a: Att, q: Port)
    requires AttOk(cfg, a, q) && k.got == Due(a, q) && Solid(q) && cfg.ringSize > 0
    requires a.seen == a.first + 1 && a.upto > a.first
    ensures |k.got| >= 2 && k.got[1] == q.ringed[a.first] != []
    ensures Last(|q.ringed[a.first]|, k.got[0]) == Last(cfg.ringSize, q.ringed[a.first])
  {
    hide Last;
    var chunk := q.ringed[a.first];
    assert q.ringed[..a.seen] == q.ringed[..a.first] + [chunk];
    FlatAppend(q.ringed[..a.first], chunk);
    EndOfWindow(cfg.ringSize, Flat(q.ringed[..a.first]), chunk);
    assert q.ringed[a.first..a.upto][0] == chunk;
  }

  /** Chunk number `first` of an overlapping attachment is sent twice: the backlog ends
      with it, as far as the ring can hold it, and the first live frame is it again. */
  lemma OverlappingChunkIsSentTwice(cfg: Config, es: seq<Event>, c: ConnId, p: PortId)
    requires IsRun(cfg, INIT, es) && cfg.ringSize > 0
    requires var s := Reached(cfg, es);
             && c in s.conns && s.conns[c].att.Some? && s.conns[c].att.value.port == p && !s.conns[c].cut
    requires var a := Reached(cfg, es).conns[c].att.value; a.seen == a.first + 1 && a.upto > a.first
    ensures var s := Reached(cfg, es); var k := s.conns[c]; var a := k.att.value;
            && p in s.ports && a.first < |s.ports[p].ringed| && |k.got| >= 2
            && var chunk := s.ports[p].ringed[a.first];
               && chunk != [] && k.got[1] == chunk
               && Last(|chunk|, k.got[0]) == Last(cfg.ringSize, chunk)
  {
    hide PortGood, ConnOk, ConnFlow, Linked, Managed, Balanced, Solid, Last;
    ReachedInv(cfg, es);
    var s := Reached(cfg, es);
    var k := s.conns[c];
    assert ConnGood(k, s.ports.Keys) && PairGood(cfg, c, k, p, s.ports[p]);
    ChunksAreSolid(cfg, es, p);
    TwiceInGot(cfg, k, k.att.value, s.ports[p]);
  }

  // ------------------------------------------------------------ that it happens

  /** It reads one byte and puts it into the ring. */
  lemma CaughtBetween(cfg: Config) returns (es: seq<Event>)
    requires cfg.ringSize > 0
    ensures IsRun(cfg, INIT, es)
    ensures At(Reached(cfg, es), ONE_WORKER, FRESH_CONN, OnlinePort(cfg, FanLock([7], false), [[7]]))
  {
    hide IsRun, StateAfter, At;
    es := WentOnline(cfg);
    PortRuns(cfg, es, ONE_WORKER, FRESH_CONN, OnlinePort(cfg, Reading, []), Got([7], false));
    es := es + [OnPort(0, Got([7], false))];
    PortRuns(cfg, es, ONE_WORKER, FRESH_CONN, OnlinePort(cfg, RingStep([7], false), []), RingWrite);
    es := es + [OnPort(0, RingWrite)];
    FlatAppend<byte>([], [7]);
    assert [] + [[7]] == [[7]] && Flat<byte>([]) == [] && [] + [7] == [7];
    assert Last<byte>(cfg.ringSize, []) == [];
  }

  /** The client in the middle of opening the port. */
  const HOLDING := FRESH_CONN.(reader := OpenHold(0, WRITE_REQ, [7], 1, false))

  function HeldPort(cfg: Config): (q: Port) {
    OnlinePort(cfg, FanLock([7], false), [[7]]).(lock := Some(ByReader(0)))
  }

  /** A client asks for the port just then, and takes its lock. */
  lemma OpenedBetween(cfg: Config) returns (es: seq<Event>)
    requires cfg.ringSize > 0
    ensures IsRun(cfg, INIT, es) && At(Reached(cfg, es), ONE_WORKER, HOLDING, HeldPort(cfg))
  {
    hide IsRun, StateAfter;
    es := CaughtBetween(cfg);
    var k, q := FRESH_CONN, OnlinePort(cfg, FanLock([7], false), [[7]]);
    ConnRuns(cfg, es, ONE_WORKER, k, q, AskOpen(WRITE_REQ));
    es, k := es + [OnConn(0, AskOpen(WRITE_REQ))], k.(reader := Resolving(WRITE_REQ));
    ResolveRuns(cfg, es, ONE_WORKER, k, q);
    es, k := es + [ResolveTo(0, 0)], k.(reader := OpenWait(0, WRITE_REQ));
    PairRuns(cfg, es, ONE_WORKER, k, q, OpenLock);
    es := es + [OnPair(0, 0, OpenLock)];
    FlatAppend<byte>([], [7]);
    assert [] + [[7]] == [[7]] && Flat<byte>([]) == [] && [] + [7] == [7];
    assert Last(cfg.ringSize, [7]) == [7];
  }

  /** The client after that, with `got` queued and `upto` chunks offered. */
  function Attached(got: seq<bytes>, msgs: seq<Msg>, upto: nat): (k: Conn) {
    FRESH_CONN.(reader := OpenCommit(0, true, true), queue := msgs, enq := msgs, got := got,
                att := Some(Att(0, [7], 1, 0, upto)))
  }

  function JoinedPort(cfg: Config, w: Worker, lock: Option<Holder>): (q: Port) {
    HeldPort(cfg).(worker := w, lock := lock, conns := {0}, owner := Some(0))
  }

  lemma JoinedBetween(cfg: Config) returns (es: seq<Event>)
    requires cfg.ringSize > 0
    ensures IsRun(cfg, INIT, es)
    ensures At(Reached(cfg, es), ONE_WORKER, Attached([[7]], [Data([7])], 0),
               JoinedPort(cfg, FanLock([7], false), None))
  {
    hide IsRun, StateAfter, At;
    es := OpenedBetween(cfg);
    PairRuns(cfg, es, ONE_WORKER, HOLDING, HeldPort(cfg), OpenFinish);
    es := es + [OnPair(0, 0, OpenFinish)];
    assert [] + [[7]] == [[7]] && [] + [Data([7])] == [Data([7])] && {} + {0} == {0};
  }

  /** And the fan-out goes on: the client is queued the same byte twice. */
  lemma SomeClientGetsAChunkTwice(cfg: Config) returns (es: seq<Event>)
    requires cfg.ringSize > 0
    ensures IsRun(cfg, INIT, es)
    ensures var s := Reached(cfg, es);
            && 0 in s.conns && 0 in s.ports && s.ports[0].ringed == [[7]] && s.conns[0].got == [[7], [7]]
            && s.conns[0].att.Some? && s.conns[0].att.value.seen == s.conns[0].att.value.first + 1
  {
    hide IsRun, StateAfter, At;
    es := JoinedBetween(cfg);
    var k, q := Attached([[7]], [Data([7])], 0), JoinedPort(cfg, FanLock([7], false), None);
    PortRuns(cfg, es, ONE_WORKER, k, q, FanBegin);
    es, q := es + [OnPort(0, FanBegin)], JoinedPort(cfg, FanLoop([7], false, {0}), Some(ByWorker));
    PairRuns(cfg, es, ONE_WORKER, k, q, FanCheck);
    es, q := es + [OnPair(0, 0, FanCheck)], JoinedPort(cfg, FanTry([7], false, {0} - {0}, 0), Some(ByWorker));
    PairRuns(cfg, es, ONE_WORKER, k, q, FanPush);
    es := es + [OnPair(0, 0, FanPush)];
    assert [[7]] + [[7]] == [[7], [7]];
    AtHas(Reached(cfg, es), ONE_WORKER);
  }
}
