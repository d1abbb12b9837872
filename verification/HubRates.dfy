/** A port's line rate and the rate its device is open at: handleOpen changes the one, and
    only opening the device anew the other. */
module HubRates {
  import opened Prelude
  import opened Ring
  import opened HubModel
  import opened HubAttach
  import opened HubDelivery
  import opened HubLifecycle
  import opened HubInvariant
  import opened HubTheorems
  import opened HubDevices
  import opened HubRequests
  import opened HubRuns

  // ------------------------------------------------------------- what changes which rate

  /** A device keeps its rate while it is open, and a port keeps its own while it has no
      device. */
  predicate RatesMoved(e: Event, p: PortId, q: Port, q': Port) {
    && (q'.rate != q.rate ==> e == OnPort(p, Online) && q.worker.GoOnline? && q'.rate == q.worker.rate)
    && (q'.sp.Some? && q.sp.None? ==> e == OnPort(p, Online))
    && (q'.baud != q.baud ==> q.sp.Some? && e.OnPair? && e.p == p && e.e.OpenLock?)
  }

  lemma PortMovesRates(cfg: Config, m: Mgr, p: PortId, q: Port, e: PortEv)
    requires PortCan(m, p, q, e)
    ensures RatesMoved(OnPort(p, e), p, q, PortDo(cfg, m, p, q, e).q)
  {
  }

  lemma PairMovesRates(cfg: Config, m: Mgr, c: ConnId, k: Conn, p: PortId, q: Port, e: PairEv)
    requires PairCan(m, c, k, p, q, e)
    ensures RatesMoved(OnPair(c, p, e), p, q, PairDo(cfg, m, c, k, p, q, e).q)
  {
    if IsNote(e) {
      hide PairDo, PairCan;
      NoteStepFrame(cfg, m, c, k, p, q, e);
    } else if IsInput(e) {
      hide PairDo, PairCan;
      InputStepFrame(cfg, m, c, k, p, q, e);
    } else {
      hide Observers, TryEnqueue;
    }
  }

  lemma StepMovesRates(cfg: Config, s: State, e: Event, p: PortId)
    requires Can(s, e) && p in s.ports
    ensures p in Do(cfg, s, e).ports && RatesMoved(e, p, s.ports[p], Do(cfg, s, e).ports[p])
  {
    hide ConnDo, PortDo, PairDo, ConnCan, PortCan, PairCan;
    match e
    case OnPort(r, pe) => if r == p { PortMovesRates(cfg, s.m, p, s.ports[p], pe); }
    case OnPair(c, r, pe) => if r == p { PairMovesRates(cfg, s.m, c, s.conns[c], p, s.ports[p], pe); }
    case _ =>
  }

  /** The rate a client asks for is the port's from then on, if it is the first to attach;
      its device runs at it only if it was open at that very rate before. */
  lemma RequestedRateIsTheDevicesIff(cfg: Config, es: seq<Event>, c: ConnId, p: PortId) returns (es': seq<Event>)
    requires IsRun(cfg, INIT, es) && Can(Reached(cfg, es), OnPair(c, p, OpenLock))
    requires var s := Reached(cfg, es);
             Granted(cfg, s.ports[p], s.conns[c].reader.req) && s.ports[p].conns == {} && s.conns[c].reader.req.baud > 0
    ensures IsRun(cfg, INIT, es') && es <= es'
    ensures var s, s' := Reached(cfg, es), Reached(cfg, es');
            && p in s'.ports && c in s'.ports[p].conns && s'.ports[p].baud == s.conns[c].reader.req.baud
            && s'.ports[p].sp == s.ports[p].sp
            && (s'.ports[p].rate == s'.ports[p].baud <==> s.ports[p].rate == s.conns[c].reader.req.baud)
  {
    hide IsRun, StateAfter, Granted, WithBacklog, If;
    es' := GrantedOpenAttaches(cfg, es, c, p);
  }

  // ------------------------------------------------------------------- while it is offline

  /** The device of p can be opened at these rates only. */
  ghost predicate OpensAt(cfg: Config, s: State, es: seq<Event>, p: PortId, usable: set<int>)
    requires IsRun(cfg, s, es)
    decreases |es|
  {
    es == []
    || (var front, e := es[..|es| - 1], es[|es| - 1];
        && OpensAt(cfg, s, front, p, usable)
        && (e.OnPort? && e.p == p && e.pe.Opened? ==> StateAfter(cfg, s, front).ports[p].worker.rate in usable))
  }

  /** Offline, with a rate the device does not open at. */
  predicate Stranded(q: Port, usable: set<int>) {
    && q.sp.None? && q.baud !in usable && !q.worker.GoOnline?
    && (q.worker.Opening? ==> q.worker.rate !in usable)
  }

  lemma PortStaysStranded(cfg: Config, m: Mgr, p: PortId, q: Port, e: PortEv, usable: set<int>)
    requires Stranded(q, usable) && PortCan(m, p, q, e) && (e.Opened? ==> q.worker.rate in usable)
    ensures Stranded(PortDo(cfg, m, p, q, e).q, usable)
  {
  }

  lemma PairStaysStranded(cfg: Config, m: Mgr, c: ConnId, k: Conn, p: PortId, q: Port, e: PairEv, usable: set<int>)
    requires Stranded(q, usable) && PairCan(m, c, k, p, q, e)
    ensures Stranded(PairDo(cfg, m, c, k, p, q, e).q, usable)
  {
    if IsNote(e) {
      hide PairDo, PairCan;
      NoteStepFrame(cfg, m, c, k, p, q, e);
    } else if IsInput(e) {
      hide PairDo, PairCan;
      InputStepFrame(cfg, m, c, k, p, q, e);
    } else {
      hide Observers, TryEnqueue;
    }
  }

  lemma StrandedKeepsRate(cfg: Config, s: State, e: Event, p: PortId, usable: set<int>)
    requires Can(s, e) && p in s.ports && Stranded(s.ports[p], usable)
    ensures p in Do(cfg, s, e).ports && Do(cfg, s, e).ports[p].baud == s.ports[p].baud
  {
    hide Do, Can;
    StepMovesRates(cfg, s, e, p);
  }

  /** A rate the device cannot be opened at is final once the device is gone: nobody can
      attach to change it, so the port stays offline whatever is done. */
  lemma {:induction false} UnusableRateIsFinal(cfg: Config, s: State, es: seq<Event>, p: PortId, usable: set<int>)
    requires IsRun(cfg, s, es) && p in s.ports && Stranded(s.ports[p], usable) && OpensAt(cfg, s, es, p, usable)
    ensures p in StateAfter(cfg, s, es).ports
    ensures var q := StateAfter(cfg, s, es).ports[p]; Stranded(q, usable) && q.baud == s.ports[p].baud
    decreases |es|
  {
    hide Stranded, ConnDo, PortDo, PairDo, ConnCan, PortCan, PairCan, RatesMoved;
    if es != [] {
      var front, e := es[..|es| - 1], es[|es| - 1];
      UnusableRateIsFinal(cfg, s, front, p, usable);
      var t := StateAfter(cfg, s, front);
      StrandedKeepsRate(cfg, t, e, p, usable);
      match e
      case OnPort(r, pe) => if r == p { PortStaysStranded(cfg, t.m, p, t.ports[p], pe, usable); }
      case OnPair(c, r, pe) => if r == p { PairStaysStranded(cfg, t.m, c, t.conns[c], p, t.ports[p], pe, usable); }
      case _ =>
    }
  }

  // ---------------------------------------------------------------------------- a run

  lemma OpenIsUp(cfg: Config, es: seq<Event>, req: OpenReq, q: Port)
    requires IsRun(cfg, INIT, es)
    requires At(Reached(cfg, es), ONE_WORKER, FRESH_CONN.(reader := OpenWait(0, req)), q)
    requires q.lock.None?
    ensures Can(Reached(cfg, es), OnPair(0, 0, OpenLock)) && !Reached(cfg, es).m.closed
  {
    hide IsRun, StateAfter;
  }

  /** A client attaches to an online port at a rate of its choice, whose device goes on at
      the old one; then the device is lost, and the rate stays. */
  lemma RateOutlivesTheDevice(cfg: Config, rate: int) returns (attached: seq<Event>, lost: seq<Event>)
    requires rate > 0 && rate != cfg.defaultBaud
    ensures IsRun(cfg, INIT, attached) && IsRun(cfg, INIT, lost) && attached <= lost
    ensures var s := Reached(cfg, attached);
            && 0 in s.ports && 0 in s.conns && s.conns[0].port == Some(0) && s.ports[0].sp.Some?
            && s.ports[0].baud == rate && s.ports[0].rate == cfg.defaultBaud
    ensures var s := Reached(cfg, lost);
            0 in s.ports && (forall usable: set<int> | rate !in usable :: Stranded(s.ports[0], usable))
  {
    hide IsRun, StateAfter, At, WithBacklog, If;
    var es := WentOnline(cfg);
    var req := OpenReq(false, rate);
    var q := OnlinePort(cfg, Reading, []);
    ConnRuns(cfg, es, ONE_WORKER, FRESH_CONN, q, AskOpen(req));
    es := es + [OnConn(0, AskOpen(req))];
    ResolveRuns(cfg, es, ONE_WORKER, FRESH_CONN.(reader := Resolving(req)), q);
    es := es + [ResolveTo(0, 0)];
    AtHas(Reached(cfg, es), ONE_WORKER);
    OpenIsUp(cfg, es, req, q);
    attached := GrantedOpenAttaches(cfg, es, 0, 0);
    lost := LostDeviceGoesOffline(cfg, attached, 0);
  }
}
