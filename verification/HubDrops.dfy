/** Why a client is dropped: it is told so, its own end breaks, or it falls behind by a
    whole queue; and Close drops them all. */
module HubDrops {
  import opened Prelude
  import opened Ring
  import opened HubModel
  import opened HubAttach
  import opened HubDelivery
  import opened HubLifecycle
  import opened HubInvariant
  import opened HubTheorems
  import opened HubClose

  // ------------------------------------------------------------------ only for cause

  /** Steps that end a connection whatever its queue looks like: the idle timer, Close, a
      failed write, and its own end. */
  predicate EndsIt(e: Event, c: ConnId) {
    e == OnConn(c, Kill) || e == CloserKills(c) || e == OnConn(c, WriteFails) || e == OnConn(c, SignalDone)
  }

  /** Steps in which a data frame is queued for c if there is room. */
  predicate SendsTo(e: Event, c: ConnId) { e.OnPair? && e.c == c && (e.e.FanPush? || e.e.OpenFinish?) }

  /** What a step may do to done, and to whether data was refused. */
  predicate ForCause(e: Event, c: ConnId, k: Conn, k': Conn) {
    && (k'.done <==> k.done || EndsIt(e, c) || (SendsTo(e, c) && |k.queue| >= QUEUE_DEPTH && k'.cut))
    && (k'.cut && !k.cut ==> k.done || (SendsTo(e, c) && |k.queue| >= QUEUE_DEPTH))
  }

  lemma ConnDropsForCause(c: ConnId, k: Conn, e: ConnEv)
    requires ConnCan(k, e)
    ensures ForCause(OnConn(c, e), c, k, ConnDo(k, e))
  {
  }

  lemma QuietDropsNobody(cfg: Config, m: Mgr, c: ConnId, k: Conn, p: PortId, q: Port, e: PairEv)
    requires PairCan(m, c, k, p, q, e) && Quiet(e)
    ensures ForCause(OnPair(c, p, e), c, k, PairDo(cfg, m, c, k, p, q, e).k)
  {
  }

  lemma EnqueueDropsForCause(cfg: Config, m: Mgr, c: ConnId, k: Conn, p: PortId, q: Port, e: PairEv)
    requires PairCan(m, c, k, p, q, e) && !Quiet(e) && (k.cut ==> k.done)
    requires k.reader.OpenHold? && k.reader.p == p && k.reader.sawDone ==> k.done
    ensures ForCause(OnPair(c, p, e), c, k, PairDo(cfg, m, c, k, p, q, e).k)
  {
    hide Refused, Observers;
  }

  lemma LookedBefore(cfg: Config, s: State, c: ConnId, p: PortId)
    requires Inv(cfg, s) && c in s.conns && p in s.ports
    ensures s.conns[c].cut ==> s.conns[c].done
    ensures s.conns[c].reader.OpenHold? && s.conns[c].reader.p == p && s.conns[c].reader.sawDone ==> s.conns[c].done
  {
    hide ConnOk, Linked, LifeOk, PortFlow, Managed, Balanced, DataOf, AttOk, Due;
    assert ConnGood(s.conns[c], s.ports.Keys) && PairGood(cfg, c, s.conns[c], p, s.ports[p]);
  }

  /** A client is dropped only for cause: it is killed or ends, or a data frame for it finds
      its queue full; and no frame is refused to a client that is up and has room. Nothing
      brings a dropped client back. */
  lemma DroppedOnlyForCause(cfg: Config, es: seq<Event>, e: Event, c: ConnId)
    requires IsRun(cfg, INIT, es) && Can(Reached(cfg, es), e) && c in Reached(cfg, es).conns
    ensures var s := Reached(cfg, es); var s' := Do(cfg, s, e);
            c in s'.conns && ForCause(e, c, s.conns[c], s'.conns[c])
  {
    hide Inv, IsRun, StateAfter, ConnDo, PortDo, PairDo, ConnCan, PortCan, PairCan;
    ReachedInv(cfg, es);
    var s := Reached(cfg, es);
    match e
    case OnConn(d, ce) => if d == c { ConnDropsForCause(c, s.conns[c], ce); }
    case OnPair(d, p, pe) =>
      if d == c {
        LookedBefore(cfg, s, c, p);
        if Quiet(pe) { QuietDropsNobody(cfg, s.m, c, s.conns[c], p, s.ports[p], pe); }
        else { EnqueueDropsForCause(cfg, s.m, c, s.conns[c], p, s.ports[p], pe); }
      }
    case _ =>
  }

  // -------------------------------------------------------------------------- by Close

  /** The reader has passed the end of its connection. */
  predicate Ended(r: Reader) { r.WaitWriter? || r.Unregister? || r.Exited? }

  /** Connections Close still has to kill. */
  function StillToKill(closer: Closer): (cs: set<ConnId>) { if closer.Killing? then closer.todo else {} }

  predicate EndOk(m: Mgr, c: ConnId, k: Conn) {
    && (Ended(k.reader) || k.writer.Stopped? ==> k.done)
    && (m.closed && c !in StillToKill(m.closer) ==> k.done)
  }

  ghost predicate EndInv(s: State) { forall c | c in s.conns :: EndOk(s.m, c, s.conns[c]) }

  lemma ConnStepEnds(k: Conn, e: ConnEv)
    requires ConnCan(k, e) && (Ended(k.reader) || k.writer.Stopped? ==> k.done)
    ensures Ended(ConnDo(k, e).reader) || ConnDo(k, e).writer.Stopped? ==> ConnDo(k, e).done
    ensures k.done ==> ConnDo(k, e).done
  {
  }

  lemma PairStepEnds(cfg: Config, m: Mgr, c: ConnId, k: Conn, p: PortId, q: Port, e: PairEv)
    requires PairCan(m, c, k, p, q, e) && (Ended(k.reader) || k.writer.Stopped? ==> k.done)
    ensures var k' := PairDo(cfg, m, c, k, p, q, e).k;
            (Ended(k'.reader) || k'.writer.Stopped? ==> k'.done) && (k.done ==> k'.done)
  {
    hide Observers, Refused;
    if e.FanCheck? || e.FanPush? {
    } else if IsInput(e) {
      hide PairDo, PairCan;
      InputStepFrame(cfg, m, c, k, p, q, e);
    } else if IsNote(e) {
      hide PairDo, PairCan;
      NoteStepFrame(cfg, m, c, k, p, q, e);
    }
  }

  lemma PortStepLeavesKills(cfg: Config, m: Mgr, p: PortId, q: Port, e: PortEv)
    requires PortCan(m, p, q, e)
    ensures StillToKill(PortDo(cfg, m, p, q, e).m.closer) == StillToKill(m.closer)
  {
  }

  lemma NotEnded(k: Conn, p: PortId)
    requires k.reader.Resolving?
    ensures !Ended(OpenWait(p, k.reader.req))
  {
  }

  lemma MgrStepEnds(cfg: Config, s: State, e: MgrEv)
    requires EndInv(s) && MgrCan(s, e)
    ensures EndInv(MgrDo(cfg, s, e))
  {
  }

  lemma StepKeepsEndInv(cfg: Config, s: State, e: Event)
    requires Inv(cfg, s) && EndInv(s) && Can(s, e)
    ensures EndInv(Do(cfg, s, e))
  {
    hide Inv, ConnDo, PortDo, PairDo, ConnCan, PortCan, PairCan, Ended;
    var s' := Do(cfg, s, e);
    match e
    case OnConn(d, ce) => ConnStepEnds(s.conns[d], ce);
    case OnPort(p, pe) =>
      PortStepLeavesKills(cfg, s.m, p, s.ports[p], pe);
      PortStepStaysClosed(cfg, s.m, p, s.ports[p], pe);
    case OnPair(d, p, pe) =>
      PairStepEnds(cfg, s.m, d, s.conns[d], p, s.ports[p], pe);
      PairKeepsCloser(cfg, s, d, p, pe);
    case OnMgr(me) => MgrStepEnds(cfg, s, me);
    case ResolveTo(d, p) => NotEnded(s.conns[d], p);
    case CloserKills(d) =>
  }

  lemma NobodyYet()
    ensures EndInv(INIT)
  {
  }

  lemma {:induction false} ReachedEndInv(cfg: Config, es: seq<Event>)
    requires IsRun(cfg, INIT, es)
    ensures EndInv(Reached(cfg, es))
    decreases |es|
  {
    hide Inv, Can, Do, EndInv;
    if es == [] {
      NobodyYet();
    } else {
      ReachedInv(cfg, es[..|es| - 1]);
      ReachedEndInv(cfg, es[..|es| - 1]);
      StepKeepsEndInv(cfg, Reached(cfg, es[..|es| - 1]), es[|es| - 1]);
    }
  }

  lemma ClosedWhenClosing(cfg: Config, s: State)
    requires Inv(cfg, s)
    ensures s.m.closed <==> !s.m.closer.NotClosing?
  {
    hide Shape, Balanced, Total, PastWait;
  }

  /** Once Close is past its kills every connection there is has been dropped, those it
      never saw included; a connection that has ended was dropped at any rate. */
  lemma CloseDropsEverybody(cfg: Config, es: seq<Event>, c: ConnId)
    requires IsRun(cfg, INIT, es) && c in Reached(cfg, es).conns
    requires var s := Reached(cfg, es);
             Ended(s.conns[c].reader) || (!s.m.closer.NotClosing? && !s.m.closer.Killing?)
    ensures Reached(cfg, es).conns[c].done
  {
    hide Inv, IsRun, StateAfter, Ended;
    ReachedInv(cfg, es);
    ReachedEndInv(cfg, es);
    ClosedWhenClosing(cfg, Reached(cfg, es));
    assert EndOk(Reached(cfg, es).m, c, Reached(cfg, es).conns[c]);
  }

  /** A writer that has stopped leaves a connection that is done. */
  lemma StoppedIsDone(cfg: Config, es: seq<Event>, c: ConnId)
    requires IsRun(cfg, INIT, es) && c in Reached(cfg, es).conns
    ensures Reached(cfg, es).conns[c].writer.Stopped? ==> Reached(cfg, es).conns[c].done
  {
    hide Inv, IsRun, StateAfter, Ended;
    ReachedEndInv(cfg, es);
    assert EndOk(Reached(cfg, es).m, c, Reached(cfg, es).conns[c]);
  }
}
