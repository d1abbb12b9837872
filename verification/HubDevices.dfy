/** A port's device and its worker: who has it open, how a port comes online and goes
    offline, and what becomes of what is read. */
module HubDevices {
  import opened Prelude
  import opened Ring
  import opened HubModel
  import opened HubAttach
  import opened HubDelivery
  import opened HubLifecycle
  import opened HubInvariant
  import opened HubLog
  import opened HubRuns

  // ---------------------------------------------------------- who has the device open

  /** The worker stands between goOnline and clearDevice. */
  predicate HasDevice(w: Worker) {
    || w.AuditOnline? || w.Reading? || w.RingStep? || w.FanLock? || w.FanLoop? || w.FanTry? || w.LogWrite?
    || w.AfterRead? || ((w.GoOffline? || w.AuditOffline?) && !w.sleep) || w.CloseDevice?
  }

  /** A port has a device only while its worker has it open, and loses it before that only
      to Close. */
  predicate DeviceOk(m: Mgr, q: Port) {
    (q.sp.Some? ==> HasDevice(q.worker)) && (HasDevice(q.worker) && !m.closed ==> q.sp.Some?)
  }

  /** Steps that give a port its device or take it away, or bring the worker in or out. */
  predicate DeviceStep(e: PortEv) { e.Online? || e.Offline? || e.LogOffline? || e.EndRead? || e.ClearDevice? }

  lemma DeviceStepKeepsDevice(cfg: Config, m: Mgr, p: PortId, q: Port, e: PortEv)
    requires DeviceOk(m, q) && PortCan(m, p, q, e) && DeviceStep(e)
    ensures var r := PortDo(cfg, m, p, q, e); DeviceOk(r.m, r.q)
  {
  }

  lemma WorkerStepKeepsDevice(cfg: Config, m: Mgr, p: PortId, q: Port, e: PortEv)
    requires DeviceOk(m, q) && PortCan(m, p, q, e) && !ByOthers(e) && !DeviceStep(e)
    ensures var r := PortDo(cfg, m, p, q, e); DeviceOk(r.m, r.q)
  {
  }

  lemma WorkerKeepsDevice(cfg: Config, m: Mgr, p: PortId, q: Port, e: PortEv)
    requires DeviceOk(m, q) && PortCan(m, p, q, e) && !ByOthers(e)
    ensures var r := PortDo(cfg, m, p, q, e); DeviceOk(r.m, r.q)
  {
    hide PortDo, PortCan, DeviceOk;
    if DeviceStep(e) { DeviceStepKeepsDevice(cfg, m, p, q, e); } else { WorkerStepKeepsDevice(cfg, m, p, q, e); }
  }

  lemma OthersKeepDevice(cfg: Config, m: Mgr, p: PortId, q: Port, e: PortEv)
    requires DeviceOk(m, q) && PortCan(m, p, q, e) && ByOthers(e)
    requires (q.running <==> !q.worker.Absent?) && (m.closed <==> !m.closer.NotClosing?)
    ensures var r := PortDo(cfg, m, p, q, e); DeviceOk(r.m, r.q)
  {
  }

  lemma PairKeepsDevice(cfg: Config, m: Mgr, c: ConnId, k: Conn, p: PortId, q: Port, e: PairEv)
    requires DeviceOk(m, q) && PairCan(m, c, k, p, q, e) && (q.running <==> !q.worker.Absent?)
    ensures var r := PairDo(cfg, m, c, k, p, q, e); DeviceOk(r.m, r.q)
  {
    var r := PairDo(cfg, m, c, k, p, q, e);
    if IsNote(e) {
      hide PairDo, PairCan;
      NoteStepFrame(cfg, m, c, k, p, q, e);
    } else if IsInput(e) {
      hide PairDo, PairCan;
      InputStepFrame(cfg, m, c, k, p, q, e);
      InputStepKeepsMgr(cfg, m, c, k, p, q, e);
    } else {
      hide Observers, Refused, TryEnqueue;
      assert r.q.sp == q.sp && r.m.closed == m.closed;
    }
  }

  ghost predicate DeviceInv(s: State) { forall p | p in s.ports :: DeviceOk(s.m, s.ports[p]) }

  lemma DeviceFrame(m: Mgr, m': Mgr, q: Port)
    requires DeviceOk(m, q) && (m.closed ==> m'.closed)
    ensures DeviceOk(m', q)
  {
  }

  lemma FreshHasNone(m: Mgr, baud: int, hasLog: bool)
    ensures DeviceOk(m, FreshPort(baud, hasLog))
  {
  }

  lemma StepKeepsDeviceInv(cfg: Config, s: State, e: Event)
    requires Inv(cfg, s) && DeviceInv(s) && Can(s, e)
    ensures DeviceInv(Do(cfg, s, e))
  {
    hide Inv, DeviceOk, ConnDo, PortDo, PairDo, ConnCan, PortCan, PairCan, FreshPort, PortFlow, LifeOk, PastWait;
    var s' := Do(cfg, s, e);
    forall p | p in s'.ports ensures DeviceOk(s'.m, s'.ports[p]) {
      if p in s.ports {
        KnownPort(cfg, s, p);
        StepClosesOnly(cfg, s, e);
        DeviceFrame(s.m, s'.m, s.ports[p]);
        match e
        case OnPort(r, pe) =>
          if r == p {
            if ByOthers(pe) { OthersKeepDevice(cfg, s.m, p, s.ports[p], pe); }
            else { WorkerKeepsDevice(cfg, s.m, p, s.ports[p], pe); }
          }
        case OnPair(c, r, pe) => if r == p { PairKeepsDevice(cfg, s.m, c, s.conns[c], p, s.ports[p], pe); }
        case _ =>
      } else {
        FreshHasNone(s'.m, if e.me.baud > 0 then e.me.baud else cfg.defaultBaud, e.me.hasLog);
      }
    }
  }

  lemma {:induction false} ReachedDeviceInv(cfg: Config, es: seq<Event>)
    requires IsRun(cfg, INIT, es)
    ensures DeviceInv(Reached(cfg, es))
    decreases |es|
  {
    hide Inv, Can, Do, DeviceOk;
    if es != [] {
      ReachedInv(cfg, es[..|es| - 1]);
      ReachedDeviceInv(cfg, es[..|es| - 1]);
      StepKeepsDeviceInv(cfg, Reached(cfg, es[..|es| - 1]), es[|es| - 1]);
    }
  }

  /** A port has its device exactly while its worker has it open, until Close begins. */
  lemma DeviceIsTheWorkers(cfg: Config, es: seq<Event>, p: PortId)
    requires IsRun(cfg, INIT, es) && p in Reached(cfg, es).ports
    ensures var s := Reached(cfg, es); var q := s.ports[p];
            && (q.sp.Some? ==> HasDevice(q.worker) && q.running)
            && (!s.m.closed ==> (q.sp.Some? <==> HasDevice(q.worker)))
  {
    hide Inv, IsRun, StateAfter, LifeOk, PortFlow, PastWait;
    ReachedInv(cfg, es);
    ReachedDeviceInv(cfg, es);
    KnownPort(cfg, Reached(cfg, es), p);
    assert DeviceOk(Reached(cfg, es).m, Reached(cfg, es).ports[p]);
  }

  /** When Close has returned no port has a device open. */
  lemma CloseLeavesNoDevice(cfg: Config, es: seq<Event>, p: PortId)
    requires IsRun(cfg, INIT, es) && p in Reached(cfg, es).ports && Reached(cfg, es).m.closer.Closed?
    ensures Reached(cfg, es).ports[p].sp.None?
  {
    hide Inv, IsRun, StateAfter, LifeOk, PortFlow;
    ReachedInv(cfg, es);
    KnownPort(cfg, Reached(cfg, es), p);
    DeviceIsTheWorkers(cfg, es, p);
  }

  /** Close takes each port's device away once, and marks the port offline without a line or
      an audit event; the worker, who is left where it was, finds that out by reading. */
  lemma ShutdownTakesTheDevice(cfg: Config, s: State, p: PortId)
    requires Can(s, OnPort(p, CloserShuts))
    ensures var s' := Do(cfg, s, OnPort(p, CloserShuts));
            && s'.m.closer.Shutting? && p !in s'.m.closer.left && s.m.closer.left == s'.m.closer.left + {p}
            && s' == PutPort(s, s.m.(closer := s'.m.closer), p, s.ports[p].(sp := None, online := false))
            && s'.m.closer.ports == s.m.closer.ports
  {
  }

  // --------------------------------------------------------- coming and going of a device

  lemma LifeAt(cfg: Config, es: seq<Event>, p: PortId)
    requires IsRun(cfg, INIT, es) && p in Reached(cfg, es).ports
    ensures LifeOk(Reached(cfg, es).m, p, Reached(cfg, es).ports[p])
  {
    hide Inv, IsRun, StateAfter, LifeOk;
    ReachedInv(cfg, es);
    KnownLife(cfg, Reached(cfg, es), p);
  }

  /** A port that is needed and has no worker is given one, and Close will wait for it; one
      that has a worker, or comes too late, is left alone. */
  lemma SyncStartsOneWorker(cfg: Config, es: seq<Event>, p: PortId)
    requires IsRun(cfg, INIT, es) && Can(Reached(cfg, es), OnPort(p, EnsureBySync))
    ensures var s := Reached(cfg, es); var s' := Do(cfg, s, OnPort(p, EnsureBySync)); var q := s.ports[p];
            if s.m.closed || Alive(q) then s' == s
            else s' == PutPort(s, s.m.(wg := s.m.wg + 1), p, q.(running := true, worker := Top, spawned := 1))
  {
    hide Inv, IsRun, StateAfter, Alternates, Noted;
    LifeAt(cfg, es, p);
    PutPortItself(Reached(cfg, es), p);
  }

  /** A worker whose device opens brings its port online, and that is recorded. */
  lemma DeviceComesOnline(cfg: Config, es: seq<Event>, p: PortId, h: nat) returns (es': seq<Event>)
    requires IsRun(cfg, INIT, es) && p in Reached(cfg, es).ports && !Reached(cfg, es).m.closed
    requires Reached(cfg, es).ports[p].worker.Top? && Reached(cfg, es).ports[p].lock.None?
    ensures es' == es + [OnPort(p, Look)] + [OnPort(p, Opened(h))] + [OnPort(p, Online)] + [OnPort(p, LogOnline)]
    ensures IsRun(cfg, INIT, es')
    ensures var s := Reached(cfg, es); var q := s.ports[p];
            Reached(cfg, es') == PutPort(s, s.m, p, q.(sp := Some(h), rate := q.baud, online := true, worker := Reading,
                                                       audit := q.audit + [true],
                                                       lines := q.lines + If(q.logOpen, Went(true))))
  {
    hide IsRun, StateAfter, Noted, Alternates;
    var s := Reached(cfg, es);
    var m, q := s.m, s.ports[p];
    LifeAt(cfg, es, p);
    PutPortItself(s, p);
    PortGoesOn(cfg, es, s, m, p, q, Look);
    es', q := es + [OnPort(p, Look)], q.(worker := Opening(q.baud));
    PortGoesOn(cfg, es', s, m, p, q, Opened(h));
    es', q := es' + [OnPort(p, Opened(h))], q.(worker := GoOnline(h, q.baud));
    PortGoesOn(cfg, es', s, m, p, q, Online);
    es', q := es' + [OnPort(p, Online)],
    q.(sp := Some(h), rate := q.baud, online := true, worker := AuditOnline(q.logOpen));
    PortGoesOn(cfg, es', s, m, p, q, LogOnline);
    es' := es' + [OnPort(p, LogOnline)];
  }

  /** One whose device does not open tries again, and nothing has changed meanwhile. */
  lemma MissingDeviceIsRetried(cfg: Config, es: seq<Event>, p: PortId) returns (es': seq<Event>)
    requires IsRun(cfg, INIT, es) && p in Reached(cfg, es).ports && !Reached(cfg, es).m.closed
    requires Reached(cfg, es).ports[p].worker.Top? && Reached(cfg, es).ports[p].lock.None?
    ensures es' == es + [OnPort(p, Look)] + [OnPort(p, OpenFails)] + [OnPort(p, PortEv.Offline)]
                      + [OnPort(p, WakeTimer)]
    ensures IsRun(cfg, INIT, es') && Reached(cfg, es') == Reached(cfg, es)
  {
    hide IsRun, StateAfter, Noted, Alternates;
    var s := Reached(cfg, es);
    var m, q := s.m, s.ports[p];
    LifeAt(cfg, es, p);
    PutPortItself(s, p);
    PortGoesOn(cfg, es, s, m, p, q, Look);
    es', q := es + [OnPort(p, Look)], q.(worker := Opening(q.baud));
    PortGoesOn(cfg, es', s, m, p, q, OpenFails);
    es', q := es' + [OnPort(p, OpenFails)], q.(worker := GoOffline(true));
    PortGoesOn(cfg, es', s, m, p, q, PortEv.Offline);
    es', q := es' + [OnPort(p, PortEv.Offline)], q.(worker := Sleeping);
    PortGoesOn(cfg, es', s, m, p, q, WakeTimer);
    es' := es' + [OnPort(p, WakeTimer)];
  }

  lemma ReadingIsOnline(m: Mgr, p: PortId, q: Port)
    requires LifeOk(m, p, q) && q.worker.Reading? && !m.closed
    ensures q.online
  {
    hide Noted, Alternates;
  }

  lemma ReadFails(cfg: Config, es: seq<Event>, s: State, p: PortId, q: Port) returns (es': seq<Event>)
    requires IsRun(cfg, INIT, es) && Reached(cfg, es) == PutPort(s, s.m, p, q) && !s.m.closed
    requires q.worker.Reading? && q.online && q.lock.None?
    ensures es' == es + [OnPort(p, Got([], true))] + [OnPort(p, EndRead)] + [OnPort(p, PortEv.Offline)]
    ensures IsRun(cfg, INIT, es')
    ensures Reached(cfg, es') == PutPort(s, s.m, p, q.(online := false, worker := AuditOffline(false, q.logOpen)))
  {
    hide IsRun, StateAfter, PutPort;
    PortGoesOn(cfg, es, s, s.m, p, q, Got([], true));
    es' := es + [OnPort(p, Got([], true))];
    PortGoesOn(cfg, es', s, s.m, p, q.(worker := AfterRead(true)), EndRead);
    es' := es' + [OnPort(p, EndRead)];
    PortGoesOn(cfg, es', s, s.m, p, q.(worker := GoOffline(false)), PortEv.Offline);
    es' := es' + [OnPort(p, PortEv.Offline)];
  }

  lemma GoingOffline(cfg: Config, m: Mgr, p: PortId, q: Port, log: bool)
    requires q.worker == AuditOffline(false, log)
    ensures PortCan(m, p, q, LogOffline)
    ensures PortDo(cfg, m, p, q, LogOffline) == OnOne(m, q.(audit := q.audit + [false], worker := CloseDevice,
                                                            lines := q.lines + If(log, Went(false))))
  {
  }

  lemma ClosingDevice(cfg: Config, m: Mgr, p: PortId, q: Port)
    requires q.worker.CloseDevice? && q.lock.None? && !m.closed
    ensures var q1 := q.(sp := None, worker := AfterClear);
            && PortCan(m, p, q, ClearDevice) && PortDo(cfg, m, p, q, ClearDevice) == OnOne(m, q1)
            && PortCan(m, p, q1, LookAgain) && PortDo(cfg, m, p, q1, LookAgain) == OnOne(m, q1.(worker := Top))
  {
  }

  lemma DeviceIsClosed(cfg: Config, es: seq<Event>, s: State, p: PortId, q: Port, log: bool) returns (es': seq<Event>)
    requires IsRun(cfg, INIT, es) && Reached(cfg, es) == PutPort(s, s.m, p, q) && !s.m.closed
    requires q.worker == AuditOffline(false, log) && q.lock.None?
    ensures es' == es + [OnPort(p, LogOffline)] + [OnPort(p, ClearDevice)] + [OnPort(p, LookAgain)]
    ensures IsRun(cfg, INIT, es')
    ensures Reached(cfg, es') == PutPort(s, s.m, p, q.(sp := None, worker := Top, audit := q.audit + [false],
                                                       lines := q.lines + If(log, Went(false))))
  {
    hide IsRun, StateAfter, PutPort, PortDo, PortCan, If;
    GoingOffline(cfg, s.m, p, q, log);
    PortGoesOn(cfg, es, s, s.m, p, q, LogOffline);
    es' := es + [OnPort(p, LogOffline)];
    var q' := q.(audit := q.audit + [false], worker := CloseDevice, lines := q.lines + If(log, Went(false)));
    ClosingDevice(cfg, s.m, p, q');
    PortGoesOn(cfg, es', s, s.m, p, q', ClearDevice);
    es' := es' + [OnPort(p, ClearDevice)];
    PortGoesOn(cfg, es', s, s.m, p, q'.(sp := None, worker := AfterClear), LookAgain);
    es' := es' + [OnPort(p, LookAgain)];
  }

  /** A read that fails takes the port offline, on record, and its device away; the worker
      is back where it opens it. */
  lemma LostDeviceGoesOffline(cfg: Config, es: seq<Event>, p: PortId) returns (es': seq<Event>)
    requires IsRun(cfg, INIT, es) && p in Reached(cfg, es).ports && !Reached(cfg, es).m.closed
    requires Reached(cfg, es).ports[p].worker.Reading? && Reached(cfg, es).ports[p].lock.None?
    ensures es' == es + [OnPort(p, Got([], true))] + [OnPort(p, EndRead)] + [OnPort(p, PortEv.Offline)]
                      + [OnPort(p, LogOffline)] + [OnPort(p, ClearDevice)] + [OnPort(p, LookAgain)]
    ensures IsRun(cfg, INIT, es')
    ensures var s := Reached(cfg, es); var q := s.ports[p];
            && q.online
            && Reached(cfg, es') == PutPort(s, s.m, p, q.(sp := None, online := false, worker := Top,
                                                          audit := q.audit + [false],
                                                          lines := q.lines + If(q.logOpen, Went(false))))
  {
    hide IsRun, StateAfter, LifeOk, PutPort;
    var s := Reached(cfg, es);
    var q := s.ports[p];
    LifeAt(cfg, es, p);
    ReadingIsOnline(s.m, p, q);
    PutPortItself(s, p);
    es' := ReadFails(cfg, es, s, p, q);
    es' := DeviceIsClosed(cfg, es', s, p, q.(online := false, worker := AuditOffline(false, q.logOpen)), q.logOpen);
  }

  // ------------------------------------------------------------------ what is read is kept

  /** What p's device has said in a run, read by read. */
  function ReadFrom(es: seq<Event>, p: PortId): (r: seq<bytes>) {
    if es == [] then []
    else
      var e := es[|es| - 1];
      ReadFrom(es[..|es| - 1], p)
      + if e.OnPort? && e.p == p && e.pe.Got? && e.pe.chunk != [] then [e.pe.chunk] else []
  }

  /** In the ring, or on its way there. */
  function TakenIn(q: Port): (r: seq<bytes>) { q.ringed + if q.worker.RingStep? then [q.worker.chunk] else [] }

  lemma PortStepTakesIn(cfg: Config, m: Mgr, p: PortId, q: Port, e: PortEv)
    requires PortCan(m, p, q, e) && (q.running <==> !q.worker.Absent?)
    ensures TakenIn(PortDo(cfg, m, p, q, e).q) == TakenIn(q) + if e.Got? && e.chunk != [] then [e.chunk] else []
  {
    var q' := PortDo(cfg, m, p, q, e).q;
    if e.RingWrite? {
      assert q'.ringed + [] == q.ringed + [q.worker.chunk] + [];
    } else {
      assert q'.ringed == q.ringed && q.ringed + [] + [] == q.ringed;
    }
  }

  lemma PairStepTakesIn(cfg: Config, m: Mgr, c: ConnId, k: Conn, p: PortId, q: Port, e: PairEv)
    requires PairCan(m, c, k, p, q, e) && (q.running <==> !q.worker.Absent?)
    ensures TakenIn(PairDo(cfg, m, c, k, p, q, e).q) == TakenIn(q)
  {
    hide Observers, Refused, TryEnqueue;
  }

  lemma NothingTakenIn(baud: int, hasLog: bool)
    ensures TakenIn(FreshPort(baud, hasLog)) == []
  {
  }

  /** Whatever a device says is taken in once, in the order it was read: the chunks of the
      ring's history, which the clients and the log are sent, are the reads of the run. */
  lemma {:induction false} EveryReadIsTakenIn(cfg: Config, es: seq<Event>, p: PortId)
    requires IsRun(cfg, INIT, es)
    ensures if p in Reached(cfg, es).ports then TakenIn(Reached(cfg, es).ports[p]) == ReadFrom(es, p)
            else ReadFrom(es, p) == []
    decreases |es|
  {
    hide Inv, ConnDo, PortDo, PairDo, ConnCan, PortCan, PairCan, TakenIn, PortFlow, LifeOk, PastWait;
    if es == [] {
    } else {
      var front, e := es[..|es| - 1], es[|es| - 1];
      var s := Reached(cfg, front);
      EveryReadIsTakenIn(cfg, front, p);
      ReachedInv(cfg, front);
      if p in s.ports { KnownPort(cfg, s, p); }
      assert ReadFrom(front, p) + [] == ReadFrom(front, p);
      match e
      case OnPort(r, pe) => if r == p { PortStepTakesIn(cfg, s.m, p, s.ports[p], pe); }
      case OnPair(c, r, pe) => if r == p { PairStepTakesIn(cfg, s.m, c, s.conns[c], p, s.ports[p], pe); }
      case OnMgr(me) => if me.AddPort? { NothingTakenIn(if me.baud > 0 then me.baud else cfg.defaultBaud, me.hasLog); }
      case _ =>
    }
  }
}
