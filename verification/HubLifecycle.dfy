/** Workers, their audit trail, who writes "capture stopped", and Manager.Close. */
module HubLifecycle {
  import opened Prelude
  import opened HubModel
  import opened HubAttach

  predicate Alive(q: Port) { !q.worker.Absent? && !q.worker.Gone? }

  function Live(q: Port): (n: int) { if Alive(q) then 1 else 0 }

  function ScanLive(m: Mgr): (n: int) { if m.scanner.Scanning? then 1 else 0 }

  /** Online and offline events take turns, online first. */
  predicate Alternates(audit: seq<bool>) {
    forall i :: 0 <= i < |audit| ==> (audit[i] <==> i % 2 == 0)
  }

  predicate LastWasOnline(audit: seq<bool>) { |audit| % 2 == 1 }

  /** What the worker's position says about the port and its last audit event. */
  predicate Placed(m: Mgr, q: Port) {
    match q.worker
    case Absent => !q.online && !LastWasOnline(q.audit)
    case Top => !q.online && !LastWasOnline(q.audit)
    case Opening(_) => !q.online && !LastWasOnline(q.audit)
    case GoOnline(_, _) => !q.online && !LastWasOnline(q.audit)
    case Sleeping => !q.online && !LastWasOnline(q.audit)
    case GoOffline(true) => !q.online && !LastWasOnline(q.audit)
    case AuditOnline(_) => (q.online || m.closed) && !LastWasOnline(q.audit)
    case AuditOffline(_, _) => !q.online && LastWasOnline(q.audit)
    case CloseDevice => m.closed || (!q.online && !LastWasOnline(q.audit))
    case AfterClear => m.closed || (!q.online && !LastWasOnline(q.audit))
    case Release => m.closed
    case ReleaseNote(_) => m.closed
    case Finishing => m.closed
    case Gone => m.closed
    case _ => (q.online || m.closed) && LastWasOnline(q.audit)
  }

  predicate CloserOwes(m: Mgr, p: PortId) { m.closer.Noting? && m.closer.p == p && m.closer.had }

  /** A "capture stopped" line somebody has taken the log for and not yet written. */
  function NoteDue(m: Mgr, p: PortId, q: Port): (n: nat) {
    (if q.worker.ReleaseNote? && q.worker.had then 1 else 0) + (if CloserOwes(m, p) then 1 else 0)
  }

  /** One worker at most, and an audit trail that matches where it stands. */
  predicate Audited(m: Mgr, q: Port) {
    && (q.running <==> !q.worker.Absent?)
    && q.spawned == (if q.running then 1 else 0)
    && Alternates(q.audit)
    && Placed(m, q)
    && (q.online && q.sp.None? ==> m.closed)
  }

  /** The log is open, or "capture stopped" is due or written: one of the three, once. */
  predicate Noted(m: Mgr, p: PortId, q: Port) {
    q.stopNotes + NoteDue(m, p, q) + (if q.logOpen then 1 else 0) == if q.hadLog then 1 else 0
  }

  predicate LifeOk(m: Mgr, p: PortId, q: Port) {
    Audited(m, q) && Noted(m, p, q)
  }

  /** Steps that change whether the port is online, or record it. */
  predicate OnlineStep(e: PortEv) { e.Online? || e.LogOnline? || e.Offline? || e.LogOffline? }

  lemma OnlineStepKeepsAudited(cfg: Config, m: Mgr, p: PortId, q: Port, e: PortEv)
    requires Audited(m, q) && PortCan(m, p, q, e) && OnlineStep(e)
    ensures var r := PortDo(cfg, m, p, q, e); Audited(r.m, r.q)
  {
  }

  lemma ReadStepKeepsAudited(cfg: Config, m: Mgr, p: PortId, q: Port, e: PortEv)
    requires Audited(m, q) && PortCan(m, p, q, e) && (AtFanout(e) || e.Got? || e.EndRead?)
    ensures var r := PortDo(cfg, m, p, q, e); Audited(r.m, r.q)
  {
    hide Alternates;
  }

  lemma OuterStepKeepsAudited(cfg: Config, m: Mgr, p: PortId, q: Port, e: PortEv)
    requires Audited(m, q) && PortCan(m, p, q, e) && !ByOthers(e)
    requires !OnlineStep(e) && !AtFanout(e) && !e.Got? && !e.EndRead?
    ensures var r := PortDo(cfg, m, p, q, e); Audited(r.m, r.q)
  {
    hide Alternates;
  }

  lemma WorkerStepKeepsAudited(cfg: Config, m: Mgr, p: PortId, q: Port, e: PortEv)
    requires Audited(m, q) && PortCan(m, p, q, e) && !ByOthers(e)
    ensures var r := PortDo(cfg, m, p, q, e); Audited(r.m, r.q)
  {
    hide PortDo, PortCan, Audited;
    if OnlineStep(e) {
      OnlineStepKeepsAudited(cfg, m, p, q, e);
    } else if AtFanout(e) || e.Got? || e.EndRead? {
      ReadStepKeepsAudited(cfg, m, p, q, e);
    } else {
      OuterStepKeepsAudited(cfg, m, p, q, e);
    }
  }

  lemma OthersKeepAudited(cfg: Config, m: Mgr, p: PortId, q: Port, e: PortEv)
    requires Audited(m, q) && PortCan(m, p, q, e) && ByOthers(e)
    requires m.closed <==> !m.closer.NotClosing?
    ensures var r := PortDo(cfg, m, p, q, e); Audited(r.m, r.q)
  {
  }

  lemma OthersKeepNoted(cfg: Config, m: Mgr, p: PortId, q: Port, e: PortEv)
    requires Noted(m, p, q) && PortCan(m, p, q, e) && ByOthers(e)
    requires q.running <==> !q.worker.Absent?
    ensures var r := PortDo(cfg, m, p, q, e); Noted(r.m, p, r.q)
  {
  }

  /** Of the worker's own steps only those of release concern the log. */
  lemma QuietStepKeepsNoted(cfg: Config, m: Mgr, p: PortId, q: Port, e: PortEv)
    requires PortCan(m, p, q, e) && !ByOthers(e) && !e.TakeLog? && !e.NoteStopped?
    ensures var r := PortDo(cfg, m, p, q, e);
            && r.m.closer == m.closer && r.q.stopNotes == q.stopNotes && r.q.logOpen == q.logOpen
            && r.q.hadLog == q.hadLog && !q.worker.ReleaseNote? && !r.q.worker.ReleaseNote?
  {
  }

  lemma PortStepKeepsNoted(cfg: Config, m: Mgr, p: PortId, q: Port, e: PortEv)
    requires Noted(m, p, q) && PortCan(m, p, q, e)
    requires q.running <==> !q.worker.Absent?
    ensures var r := PortDo(cfg, m, p, q, e); Noted(r.m, p, r.q)
  {
    if ByOthers(e) {
      OthersKeepNoted(cfg, m, p, q, e);
    } else if !e.TakeLog? && !e.NoteStopped? {
      hide PortDo, PortCan;
      QuietStepKeepsNoted(cfg, m, p, q, e);
    }
  }

  lemma PortStepKeepsLife(cfg: Config, m: Mgr, p: PortId, q: Port, e: PortEv)
    requires LifeOk(m, p, q) && PortCan(m, p, q, e)
    requires m.closed <==> !m.closer.NotClosing?
    ensures var r := PortDo(cfg, m, p, q, e); LifeOk(r.m, p, r.q)
  {
    PortStepKeepsNoted(cfg, m, p, q, e);
    if ByOthers(e) { OthersKeepAudited(cfg, m, p, q, e); } else { WorkerStepKeepsAudited(cfg, m, p, q, e); }
  }

  /** What a port's life is about. */
  predicate SameLife(q: Port, q': Port) {
    && q'.worker == q.worker && q'.online == q.online && q'.sp == q.sp && q'.running == q.running
    && q'.spawned == q.spawned && q'.audit == q.audit
    && q'.stopNotes == q.stopNotes && q'.logOpen == q.logOpen && q'.hadLog == q.hadLog
  }

  lemma LifeFrame(m: Mgr, p: PortId, q: Port, q': Port)
    requires LifeOk(m, p, q) && SameLife(q, q')
    ensures LifeOk(m, p, q')
  {
    hide Alternates;
  }

  lemma OpenStepSameLife(cfg: Config, m: Mgr, c: ConnId, k: Conn, p: PortId, q: Port, e: PairEv)
    requires PairCan(m, c, k, p, q, e) && (e.DetachStep? || e.OpenLock? || e.OpenFinish?)
    ensures var r := PairDo(cfg, m, c, k, p, q, e); r.m == m && SameLife(q, r.q)
  {
    hide Refused, OpenQueued;
  }

  lemma InputStepKeepsMgr(cfg: Config, m: Mgr, c: ConnId, k: Conn, p: PortId, q: Port, e: PairEv)
    requires PairCan(m, c, k, p, q, e) && IsInput(e)
    ensures PairDo(cfg, m, c, k, p, q, e).m == m
  {
  }

  lemma FanStepKeepsLife(cfg: Config, m: Mgr, c: ConnId, k: Conn, p: PortId, q: Port, e: PairEv)
    requires LifeOk(m, p, q) && PairCan(m, c, k, p, q, e) && (e.FanCheck? || e.FanPush?)
    ensures var r := PairDo(cfg, m, c, k, p, q, e); LifeOk(r.m, p, r.q)
  {
    hide TryEnqueue, Offered, Alternates;
  }

  lemma EnsureStepKeepsLife(cfg: Config, m: Mgr, c: ConnId, k: Conn, p: PortId, q: Port)
    requires LifeOk(m, p, q) && PairCan(m, c, k, p, q, EnsureByOpen)
    ensures var r := PairDo(cfg, m, c, k, p, q, EnsureByOpen); LifeOk(r.m, p, r.q)
  {
    hide Alternates;
  }

  lemma PairStepKeepsLife(cfg: Config, m: Mgr, c: ConnId, k: Conn, p: PortId, q: Port, e: PairEv)
    requires LifeOk(m, p, q) && PairCan(m, c, k, p, q, e)
    ensures var r := PairDo(cfg, m, c, k, p, q, e); LifeOk(r.m, p, r.q)
  {
    hide PairDo, PairCan, LifeOk;
    var q' := PairDo(cfg, m, c, k, p, q, e).q;
    if e.FanCheck? || e.FanPush? {
      FanStepKeepsLife(cfg, m, c, k, p, q, e);
    } else if e.EnsureByOpen? {
      EnsureStepKeepsLife(cfg, m, c, k, p, q);
    } else {
      if IsInput(e) {
        InputStepFrame(cfg, m, c, k, p, q, e);
        InputStepKeepsMgr(cfg, m, c, k, p, q, e);
      } else if IsNote(e) {
        NoteStepFrame(cfg, m, c, k, p, q, e);
      } else {
        OpenStepSameLife(cfg, m, c, k, p, q, e);
      }
      LifeFrame(m, p, q, q');
    }
  }

  /** The manager's own progress disturbs no port's life. */
  lemma MgrMovesKeepLife(m: Mgr, m': Mgr, p: PortId, q: Port)
    requires LifeOk(m, p, q) && (m.closed ==> m'.closed) && (CloserOwes(m', p) <==> CloserOwes(m, p))
    ensures LifeOk(m', p, q)
  {
  }

  // ------------------------------------------------- the manager and its counter

  /** What a step on a port does to the counter, and to what Close waits for. */
  predicate Counted(m: Mgr, q: Port, m': Mgr, q': Port) {
    && m'.wg - m.wg == Live(q') - Live(q)
    && m'.closed == m.closed && m'.scanner == m.scanner && m'.lateAdds == m.lateAdds
    && (m.closed && !Alive(q) ==> !Alive(q')) && (!q.logOpen ==> !q'.logOpen)
  }

  lemma WorkerStepCounts(cfg: Config, m: Mgr, p: PortId, q: Port, e: PortEv)
    requires PortCan(m, p, q, e) && !ByOthers(e)
    ensures var r := PortDo(cfg, m, p, q, e); Counted(m, q, r.m, r.q)
    ensures PortDo(cfg, m, p, q, e).m.closer == m.closer
  {
  }

  lemma OthersStepCounts(cfg: Config, m: Mgr, p: PortId, q: Port, e: PortEv)
    requires Audited(m, q) && PortCan(m, p, q, e) && ByOthers(e)
    ensures var r := PortDo(cfg, m, p, q, e); Counted(m, q, r.m, r.q)
  {
    hide Placed, Alternates;
  }

  /** The counter moves with the workers it counts, and with the rescan goroutine. */
  lemma PortStepCounts(cfg: Config, m: Mgr, p: PortId, q: Port, e: PortEv)
    requires LifeOk(m, p, q) && PortCan(m, p, q, e)
    ensures var r := PortDo(cfg, m, p, q, e); Counted(m, q, r.m, r.q)
    ensures !ByOthers(e) ==> PortDo(cfg, m, p, q, e).m.closer == m.closer
  {
    hide PortDo, PortCan, Audited, Noted, Counted;
    if ByOthers(e) { OthersStepCounts(cfg, m, p, q, e); } else { WorkerStepCounts(cfg, m, p, q, e); }
  }

  lemma PairStepCounts(cfg: Config, m: Mgr, c: ConnId, k: Conn, p: PortId, q: Port, e: PairEv)
    requires LifeOk(m, p, q) && PairCan(m, c, k, p, q, e)
    ensures var r := PairDo(cfg, m, c, k, p, q, e);
            && r.m.wg - m.wg == Live(r.q) - Live(q)
            && r.m.closed == m.closed && r.m.scanner == m.scanner && r.m.lateAdds == m.lateAdds
            && r.m.closer == m.closer
            && (m.closed && !Alive(q) ==> !Alive(r.q)) && r.q.logOpen == q.logOpen
  {
    match e
    case EnsureByOpen =>
    case FanCheck =>
    case FanPush =>
    case _ => assert PairDo(cfg, m, c, k, p, q, e).q.worker == q.worker;
  }

  /** Close has got past wg.Wait. */
  predicate PastWait(m: Mgr) { m.closer.Releasing? || m.closer.Noting? || m.closer.Closed? }

  /** Ports whose log Close still has to take. */
  function Unreleased(m: Mgr): (ps: set<PortId>) {
    match m.closer
    case Releasing(left, _) => left
    case Noting(_, _, left, _) => left
    case _ => {}
  }

  predicate Snapshotted(m: Mgr, ps: set<PortId>) {
    match m.closer
    case NotClosing => true
    case Shutting(left, ports) => ports == ps && left <= ps
    case Releasing(left, ports) => ports == ps && left <= ps
    case Noting(p, _, left, ports) => ports == ps && left <= ps && p in ps
    case _ => m.closer.ports == ps
  }

  // ------------------------------------------------------- the worker's last steps

  /** Steps a worker can still take once done is closed; n bounds the connections. */
  function StepsLeft(w: Worker, n: nat): (steps: nat) {
    match w
    case Absent => 0
    case Gone => 0
    case Finishing => 1
    case ReleaseNote(_) => 2
    case Release => 3
    case Top => 4
    case AfterClear => 4
    case Sleeping => 5
    case CloseDevice => 5
    case AuditOffline(_, _) => 6
    case GoOffline(_) => 7
    case AfterRead(_) => 6
    case LogWrite(_, _, _) => 7
    case FanLoop(_, _, todo) => 8 + 2 * |todo|
    case FanTry(_, _, todo, _) => 9 + 2 * |todo|
    case FanLock(_, _) => 9 + 2 * n
    case RingStep(_, _) => 10 + 2 * n
    case Reading => 11 + 2 * n
    case AuditOnline(_) => 12 + 2 * n
    case GoOnline(_, _) => 13 + 2 * n
    case Opening(_) => 14 + 2 * n
  }

  lemma FanoutStepWorker(cfg: Config, m: Mgr, p: PortId, q: Port, e: PortEv)
    requires PortCan(m, p, q, e) && AtFanout(e)
    ensures var w := PortDo(cfg, m, p, q, e).q.worker;
            || (q.worker.RingStep? && w.FanLock?)
            || (q.worker.FanLock? && w.FanLoop? && w.todo == q.conns)
            || (q.worker.FanLoop? && w.LogWrite?)
  {
  }

  lemma FanoutStepSpends(cfg: Config, m: Mgr, p: PortId, q: Port, e: PortEv, n: nat)
    requires PortCan(m, p, q, e) && |q.conns| <= n && AtFanout(e)
    ensures StepsLeft(PortDo(cfg, m, p, q, e).q.worker, n) < StepsLeft(q.worker, n)
  {
    FanoutStepWorker(cfg, m, p, q, e);
    hide PortDo, PortCan;
  }

  /** Steps up to the next read. */
  predicate ReadingStep(e: PortEv) { e.Opened? || e.OpenFails? || e.Online? || e.LogOnline? || e.Got? }

  lemma ReadingStepSpends(cfg: Config, m: Mgr, p: PortId, q: Port, e: PortEv, n: nat)
    requires PortCan(m, p, q, e) && ReadingStep(e)
    ensures StepsLeft(PortDo(cfg, m, p, q, e).q.worker, n) < StepsLeft(q.worker, n)
  {
  }

  lemma EndingStepSpends(cfg: Config, m: Mgr, p: PortId, q: Port, e: PortEv, n: nat)
    requires PortCan(m, p, q, e) && m.closed && !ByOthers(e) && !AtFanout(e) && !ReadingStep(e)
    ensures StepsLeft(PortDo(cfg, m, p, q, e).q.worker, n) < StepsLeft(q.worker, n)
  {
    var w := PortDo(cfg, m, p, q, e).q.worker;
    assert StepsLeft(w, n) < StepsLeft(q.worker, n) by {
      assert !w.FanLoop? && !w.FanTry? && !q.worker.FanLoop? && !q.worker.FanTry?;
    }
  }

  lemma WorkerStepSpends(cfg: Config, m: Mgr, p: PortId, q: Port, e: PortEv, n: nat)
    requires PortCan(m, p, q, e) && m.closed && |q.conns| <= n && !ByOthers(e)
    ensures StepsLeft(PortDo(cfg, m, p, q, e).q.worker, n) < StepsLeft(q.worker, n)
  {
    hide PortDo, PortCan, StepsLeft;
    if AtFanout(e) { FanoutStepSpends(cfg, m, p, q, e, n); }
    else if ReadingStep(e) { ReadingStepSpends(cfg, m, p, q, e, n); }
    else { EndingStepSpends(cfg, m, p, q, e, n); }
  }

  lemma PortStepSpends(cfg: Config, m: Mgr, p: PortId, q: Port, e: PortEv, n: nat)
    requires PortCan(m, p, q, e) && m.closed && |q.conns| <= n
    ensures var w := PortDo(cfg, m, p, q, e).q.worker;
            if ByOthers(e) then w == q.worker else StepsLeft(w, n) < StepsLeft(q.worker, n)
  {
    if !ByOthers(e) { WorkerStepSpends(cfg, m, p, q, e, n); }
  }

  lemma PairStepSpends(cfg: Config, m: Mgr, c: ConnId, k: Conn, p: PortId, q: Port, e: PairEv, n: nat)
    requires PairCan(m, c, k, p, q, e) && m.closed
    ensures var w := PairDo(cfg, m, c, k, p, q, e).q.worker;
            if e.FanCheck? || e.FanPush? then StepsLeft(w, n) < StepsLeft(q.worker, n) else w == q.worker
  {
    match e
    case FanCheck =>
    case FanPush =>
    case _ =>
  }
}
