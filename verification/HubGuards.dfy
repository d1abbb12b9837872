/** What the port's mutex guards: nobody changes it while another goroutine is inside. */
module HubGuards {
  import opened Prelude
  import opened HubModel
  import opened HubAttach
  import opened HubInvariant
  import opened HubTheorems

  /** The fields of Port that its mutex guards are as they were. */
  predicate SameFields(q: Port, q': Port) {
    && q'.sp == q.sp && q'.online == q.online && q'.running == q.running && q'.logOpen == q.logOpen
    && q'.conns == q.conns && q'.owner == q.owner && q'.baud == q.baud && q'.written == q.written
  }

  /** They change only while the mutex is free, in one step that takes and gives it back or
      takes it to keep, and by the client that keeps it. */
  predicate Guarded(e: Event, p: PortId, q: Port, q': Port) {
    && (SameFields(q, q') || q.lock.None?
        || (e.OnPair? && e.p == p && e.e.OpenFinish? && q.lock == Some(ByReader(e.c))))
    && (q.lock.Some? && q'.lock != q.lock ==> q'.lock.None?)
  }

  lemma WorkerIsGuarded(cfg: Config, m: Mgr, p: PortId, q: Port, e: PortEv)
    requires PortCan(m, p, q, e) && !ByOthers(e)
    ensures Guarded(OnPort(p, e), p, q, PortDo(cfg, m, p, q, e).q)
  {
  }

  lemma OthersAreGuarded(cfg: Config, m: Mgr, p: PortId, q: Port, e: PortEv)
    requires PortCan(m, p, q, e) && ByOthers(e)
    ensures Guarded(OnPort(p, e), p, q, PortDo(cfg, m, p, q, e).q)
  {
  }

  lemma PairIsGuarded(cfg: Config, m: Mgr, c: ConnId, k: Conn, p: PortId, q: Port, e: PairEv)
    requires PairCan(m, c, k, p, q, e) && Linked(cfg, c, k, p, q)
    ensures Guarded(OnPair(c, p, e), p, q, PairDo(cfg, m, c, k, p, q, e).q)
  {
    hide Observers, Refused, TryEnqueue, OpenQueued;
  }

  /** In every run, whatever the port's mutex guards changes while it is free or by its
      holder, and nobody takes it while it is held. */
  lemma FieldsChangeUnderTheLock(cfg: Config, es: seq<Event>, e: Event, p: PortId)
    requires IsRun(cfg, INIT, es) && Can(Reached(cfg, es), e) && p in Reached(cfg, es).ports
    ensures var s := Reached(cfg, es); var s' := Do(cfg, s, e);
            p in s'.ports && Guarded(e, p, s.ports[p], s'.ports[p])
  {
    hide Inv, ConnDo, PortDo, PairDo, ConnCan, PortCan, PairCan, IsRun, StateAfter, ConnOk, Linked;
    ReachedInv(cfg, es);
    var s := Reached(cfg, es);
    match e
    case OnPort(r, pe) =>
      if r == p {
        if ByOthers(pe) { OthersAreGuarded(cfg, s.m, p, s.ports[p], pe); }
        else { WorkerIsGuarded(cfg, s.m, p, s.ports[p], pe); }
      }
    case OnPair(c, r, pe) =>
      if r == p {
        PairIsLinked(cfg, s, c, p);
        PairIsGuarded(cfg, s.m, c, s.conns[c], p, s.ports[p], pe);
      }
    case _ =>
  }
}
