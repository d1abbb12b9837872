/** Who is attached to which port, and who may write: what one step of the hub
    does to these relations between a connection and a port. */
module HubAttach {
  import opened Prelude
  import opened HubModel

  /** The connection stands in port p. Its own fields lag behind the port's set on
      the way in, and run ahead of it on the way out. */
  predicate Holds(k: Conn, p: PortId) {
    if k.reader.DetachPort? || k.reader.OpenCommit? then k.reader.p == p else k.port == Some(p)
  }

  predicate Writes(k: Conn, p: PortId) {
    if k.reader.DetachPort? || k.reader.OpenCommit? then k.reader.p == p && k.reader.w
    else k.port == Some(p) && k.writable
  }

  /** Positions of the reader goroutine in which the connection has no port. */
  predicate Unattached(r: Reader) {
    || r.DetachPort? || r.Resolving? || r.OpenWait? || r.OpenHold? || r.OpenCommit?
    || r.CloseDone? || r.WaitWriter? || r.Unregister? || r.Exited?
    || (r.LineDue? && !r.after.Joined? && !r.after.Broke?)
  }

  predicate ConnOk(k: Conn) {
    && (k.writable ==> k.port.Some?)
    && (Unattached(k.reader) ==> k.port.None?)
    && (k.reader.InputPort? || k.reader.InputDevice? ==> k.port == Some(k.reader.p) && k.writable)
  }

  predicate PortOk(cfg: Config, q: Port) {
    && (q.owner.Some? ==> q.owner.value in q.conns)
    && (!cfg.allowObserve ==> Observers(q.conns, q.owner) == 0)
    && (cfg.maxObservers > 0 ==> Observers(q.conns, q.owner) <= cfg.maxObservers)
    && (q.lock == Some(ByWorker) <==> q.worker.FanLoop? || q.worker.FanTry?)
    && (q.worker.FanLoop? || q.worker.FanTry? ==> q.worker.todo <= q.conns)
    && (q.worker.FanTry? ==> q.worker.c in q.conns && q.worker.c !in q.worker.todo)
  }

  /** What the checks of handleOpen established, while the lock is still held. */
  predicate Admitted(cfg: Config, q: Port, observe: bool) {
    if observe then cfg.allowObserve && (cfg.maxObservers > 0 ==> Observers(q.conns, q.owner) < cfg.maxObservers)
    else q.owner.None?
  }

  /** The two sides of an attachment agree, whatever either goroutine is doing. */
  predicate Linked(cfg: Config, c: ConnId, k: Conn, p: PortId, q: Port) {
    && (c in q.conns <==> Holds(k, p))
    && (q.owner == Some(c) <==> Writes(k, p))
    && (q.lock == Some(ByReader(c)) <==> k.reader.OpenHold? && k.reader.p == p)
    && (k.reader.OpenHold? && k.reader.p == p ==> Admitted(cfg, q, k.reader.req.observe))
  }

  // ------------------------------------------- what a step of one side comes to

  /** Somebody else's step: the reader goroutine stays where it is. */
  predicate Stays(k: Conn, k': Conn) {
    k'.reader == k.reader && k'.port == k.port && k'.writable == k.writable
  }

  /** detach under c.mu. */
  predicate LetsGo(k: Conn, k': Conn) {
    && (k.reader.Idle? || k.reader.Check?) && k'.port.None? && !k'.writable
    && if k.port.None? then k'.reader.Resolving? || k'.reader.Sending? || k'.reader.CloseDone?
       else k'.reader.DetachPort? && k'.reader.p == k.port.value && k'.reader.w == k.writable
  }

  /** handleOpen under c.mu. */
  predicate Commits(k: Conn, k': Conn) {
    && k.reader.OpenCommit? && k'.reader == OpenEnsure(k.reader.p, k.reader.log)
    && k'.port == Some(k.reader.p) && k'.writable == k.reader.w
  }

  /** handleInput and handleBreak under c.mu, for a writable attachment. */
  predicate Forwards(k: Conn, k': Conn) {
    && k.reader.Idle? && k'.port == k.port && k'.writable == k.writable && k.writable
    && (k'.reader.InputPort? || k'.reader.BreakPort?) && k.port == Some(k'.reader.p)
  }

  /** A position that says nothing about ports. */
  predicate Plain(r: Reader) {
    r.Idle? || r.Check? || r.Sending? || r.WaitWriter? || r.Unregister? || r.Exited?
  }

  predicate GoesOn(k: Conn, k': Conn) {
    && k'.port == k.port && k'.writable == k.writable && Plain(k'.reader)
    && (Plain(k.reader) || k.reader.Resolving? || k.reader.CountConn? || k.reader.CloseDone?)
    && (Unattached(k'.reader) ==> Unattached(k.reader))
  }

  predicate ReaderMoves(k: Conn, k': Conn) {
    Stays(k, k') || LetsGo(k, k') || Commits(k, k') || Forwards(k, k') || GoesOn(k, k')
  }

  /** Steps of the writer, and of anybody who kills or notifies. */
  predicate NotByReader(e: ConnEv) {
    e.Kill? || e.Notice? || e.Take? || e.Wrote? || e.WriteFails? || e.WriterSeesDone?
  }

  predicate Detaches(e: ConnEv) { e.ReadEnd? || e.AskOpen? || e.AskClose? || e.LookDone? }

  lemma OutsideStepStays(k: Conn, e: ConnEv)
    requires ConnCan(k, e) && NotByReader(e)
    ensures Stays(k, ConnDo(k, e))
  {
  }

  lemma DetachStepLetsGo(k: Conn, e: ConnEv)
    requires ConnCan(k, e) && Detaches(e)
    ensures LetsGo(k, ConnDo(k, e)) || GoesOn(k, ConnDo(k, e))
  {
  }

  lemma ReaderStepMoves(k: Conn, e: ConnEv)
    requires ConnCan(k, e) && !NotByReader(e) && !Detaches(e)
    ensures ReaderMoves(k, ConnDo(k, e))
  {
  }

  lemma ConnStepMoves(k: Conn, e: ConnEv)
    requires ConnCan(k, e)
    ensures ReaderMoves(k, ConnDo(k, e))
  {
    hide ConnDo, ConnCan, LetsGo, GoesOn, Stays;
    if NotByReader(e) { OutsideStepStays(k, e); }
    else if Detaches(e) { DetachStepLetsGo(k, e); }
    else { ReaderStepMoves(k, e); }
  }

  lemma ConnStepKeepsLinks(cfg: Config, c: ConnId, k: Conn, e: ConnEv, p: PortId, q: Port)
    requires ConnOk(k) && ConnCan(k, e) && Linked(cfg, c, k, p, q)
    ensures ConnOk(ConnDo(k, e)) && Linked(cfg, c, ConnDo(k, e), p, q)
  {
    hide ConnDo, ConnCan, Observers;
    ConnStepMoves(k, e);
  }

  lemma ConnStepKeepsConnOk(k: Conn, e: ConnEv)
    requires ConnOk(k) && ConnCan(k, e)
    ensures ConnOk(ConnDo(k, e))
  {
    hide ConnDo, ConnCan;
    ConnStepMoves(k, e);
  }

  /** What a step on a port leaves alone, and who holds its lock afterwards. */
  predicate PortFramed(q: Port, e: PortEv, q': Port) {
    && q'.conns == q.conns && q'.owner == q.owner && q'.baud == q.baud
    && q'.written == q.written && q'.handed == q.handed
    && q'.lock == if e.FanBegin? then Some(ByWorker) else if e.FanEnd? then None else q.lock
  }

  predicate AtFanout(e: PortEv) { e.RingWrite? || e.FanBegin? || e.FanEnd? }

  /** Steps on a port that are not its worker's. */
  predicate ByOthers(e: PortEv) { e.EnsureBySync? || e.CloserShuts? || e.CloserReleases? || e.CloserNotes? }

  lemma WorkerStepFrame(cfg: Config, m: Mgr, p: PortId, q: Port, e: PortEv)
    requires PortCan(m, p, q, e) && !AtFanout(e) && !ByOthers(e)
    ensures PortFramed(q, e, PortDo(cfg, m, p, q, e).q)
  {
  }

  lemma OthersStepFrame(cfg: Config, m: Mgr, p: PortId, q: Port, e: PortEv)
    requires PortCan(m, p, q, e) && (AtFanout(e) || ByOthers(e))
    ensures PortFramed(q, e, PortDo(cfg, m, p, q, e).q)
  {
  }

  lemma PortStepFrame(cfg: Config, m: Mgr, p: PortId, q: Port, e: PortEv)
    requires PortCan(m, p, q, e)
    ensures PortFramed(q, e, PortDo(cfg, m, p, q, e).q)
    ensures e.FanBegin? ==> q.lock.None?
    ensures e.FanEnd? ==> q.worker.FanLoop?
  {
    hide PortDo, PortFramed;
    if AtFanout(e) || ByOthers(e) { OthersStepFrame(cfg, m, p, q, e); } else { WorkerStepFrame(cfg, m, p, q, e); }
  }

  lemma PortStepKeepsLinks(cfg: Config, m: Mgr, p: PortId, q: Port, e: PortEv, c: ConnId, k: Conn)
    requires PortOk(cfg, q) && PortCan(m, p, q, e) && Linked(cfg, c, k, p, q)
    ensures Linked(cfg, c, k, p, PortDo(cfg, m, p, q, e).q)
  {
    hide PortDo, PortCan, Observers, Holds, Writes;
    PortStepFrame(cfg, m, p, q, e);
  }

  lemma PortStepKeepsPortOk(cfg: Config, m: Mgr, p: PortId, q: Port, e: PortEv)
    requires PortOk(cfg, q) && PortCan(m, p, q, e)
    requires q.running <==> !q.worker.Absent?
    ensures PortOk(cfg, PortDo(cfg, m, p, q, e).q)
  {
    hide Observers;
    var q' := PortDo(cfg, m, p, q, e).q;
    assert q'.conns == q.conns && q'.owner == q.owner;
  }

  lemma DropKeepsPortOk(cfg: Config, c: ConnId, q: Port)
    requires PortOk(cfg, q) && q.lock.None?
    ensures PortOk(cfg, Drop(c, q))
  {
    var d := Drop(c, q);
    if q.owner == Some(c) {
    } else if q.owner.Some? {
      assert d.conns - {q.owner.value} == q.conns - {q.owner.value} - {c};
    }
  }

  lemma JoinKeepsPortOk(cfg: Config, c: ConnId, q: Port, observe: bool)
    requires PortOk(cfg, q) && Admitted(cfg, q, observe) && c !in q.conns && q.lock != Some(ByWorker)
    ensures PortOk(cfg, Join(c, q, observe))
  {
    if observe && q.owner.Some? {
      assert q.conns + {c} - {q.owner.value} == q.conns - {q.owner.value} + {c};
    } else if !observe {
      assert q.conns + {c} - {c} == q.conns;
    }
  }

  /** The fan-out's own steps leave the reader side of a connection alone. */
  lemma FanStepKeepsReader(cfg: Config, m: Mgr, c: ConnId, k: Conn, p: PortId, q: Port, e: PairEv)
    requires (e.FanCheck? || e.FanPush?) && PairCan(m, c, k, p, q, e)
    ensures var r := PairDo(cfg, m, c, k, p, q, e);
            && r.k.reader == k.reader && r.k.port == k.port && r.k.writable == k.writable
            && r.q == q.(worker := r.q.worker)
  {
  }

  lemma DetachKeepsLinks(cfg: Config, c: ConnId, k: Conn, p: PortId, q: Port)
    requires ConnOk(k) && PortOk(cfg, q) && Linked(cfg, c, k, p, q)
    requires k.reader.DetachPort? && k.reader.p == p && q.lock.None?
    ensures var k' := k.(reader := LineDue(p, q.logOpen, k.reader.after));
            ConnOk(k') && PortOk(cfg, Drop(c, q)) && Linked(cfg, c, k', p, Drop(c, q))
  {
    DropKeepsPortOk(cfg, c, q);
  }

  lemma AdmittedFrame(cfg: Config, q: Port, q': Port, observe: bool)
    requires Admitted(cfg, q, observe) && q'.conns == q.conns && q'.owner == q.owner
    ensures Admitted(cfg, q', observe)
  {
  }

  /** An opening that passes the checks. */
  lemma AdmissionKeepsLinks(cfg: Config, c: ConnId, k: Conn, p: PortId, q: Port)
    requires ConnOk(k) && PortOk(cfg, q) && Linked(cfg, c, k, p, q)
    requires k.reader.OpenWait? && k.reader.p == p && q.lock.None? && !Refused(cfg, c, q, k.reader.req.observe)
    ensures var r := OpenChecked(cfg, c, k, p, q);
            ConnOk(r.k) && PortOk(cfg, r.q) && Linked(cfg, c, r.k, p, r.q)
  {
    hide Observers;
    assert Admitted(cfg, q, k.reader.req.observe) by { assert q.owner != Some(c); }
    hide Admitted;
    AdmittedFrame(cfg, q, OpenChecked(cfg, c, k, p, q).q, k.reader.req.observe);
  }

  lemma OpenCheckKeepsLinks(cfg: Config, c: ConnId, k: Conn, p: PortId, q: Port)
    requires ConnOk(k) && PortOk(cfg, q) && Linked(cfg, c, k, p, q)
    requires k.reader.OpenWait? && k.reader.p == p && q.lock.None?
    ensures var r := OpenChecked(cfg, c, k, p, q);
            ConnOk(r.k) && PortOk(cfg, r.q) && Linked(cfg, c, r.k, p, r.q)
  {
    hide Refused, PortOk;
    if !Refused(cfg, c, q, k.reader.req.observe) { AdmissionKeepsLinks(cfg, c, k, p, q); }
  }

  lemma OpenQueuedKeepsAttachment(k: Conn, p: PortId, q: Port)
    requires k.reader.OpenHold?
    ensures OpenQueued(k, p, q).port == k.port && OpenQueued(k, p, q).writable == k.writable
  {
  }

  lemma OpenFinishKeepsLinks(cfg: Config, c: ConnId, k: Conn, p: PortId, q: Port)
    requires ConnOk(k) && PortOk(cfg, q) && Linked(cfg, c, k, p, q)
    requires k.reader.OpenHold? && k.reader.p == p
    ensures var k' := OpenQueued(k, p, q).(reader := OpenCommit(p, !k.reader.req.observe, q.logOpen));
            var q' := Join(c, q, k.reader.req.observe);
            ConnOk(k') && PortOk(cfg, q') && Linked(cfg, c, k', p, q')
  {
    hide Observers, OpenQueued;
    JoinKeepsPortOk(cfg, c, q, k.reader.req.observe);
    OpenQueuedKeepsAttachment(k, p, q);
    hide PortOk, Admitted;
  }

  predicate IsInput(e: PairEv) { e.ReadDevice? || e.DeviceTook? || e.CountOnPort? }

  /** handleInput's steps move on in the input, and touch nothing but counters. */
  lemma InputStepFrame(cfg: Config, m: Mgr, c: ConnId, k: Conn, p: PortId, q: Port, e: PairEv)
    requires PairCan(m, c, k, p, q, e) && IsInput(e)
    ensures var r := PairDo(cfg, m, c, k, p, q, e);
            && (k.reader.InputPort? || k.reader.InputDevice? || k.reader.CountPort?) && k.reader.p == p
            && r.k == k.(reader := r.k.reader) && r.q == q.(handed := r.q.handed, written := r.q.written)
            && (r.k.reader.Sending? || r.k.reader.Check? || r.k.reader.CountConn?
                || ((r.k.reader.InputDevice? || r.k.reader.CountPort?) && r.k.reader.p == p))
            && (r.k.reader.InputDevice? ==> k.reader.InputPort?)
  {
  }

  lemma InputStepKeepsLinks(cfg: Config, m: Mgr, c: ConnId, k: Conn, p: PortId, q: Port, e: PairEv)
    requires ConnOk(k) && PortOk(cfg, q) && Linked(cfg, c, k, p, q) && PairCan(m, c, k, p, q, e)
    requires IsInput(e)
    ensures var r := PairDo(cfg, m, c, k, p, q, e);
            ConnOk(r.k) && PortOk(cfg, r.q) && Linked(cfg, c, r.k, p, r.q)
  {
    hide Observers, PairDo, PairCan;
    InputStepFrame(cfg, m, c, k, p, q, e);
  }

  predicate IsNote(e: PairEv) { e.BreakTry? || e.BreakTake? || e.SayNote? }

  /** The steps of a break and of a line in the log touch nothing else on the port. */
  lemma NoteStepFrame(cfg: Config, m: Mgr, c: ConnId, k: Conn, p: PortId, q: Port, e: PairEv)
    requires PairCan(m, c, k, p, q, e) && IsNote(e)
    ensures var r := PairDo(cfg, m, c, k, p, q, e);
            && (k.reader.BreakPort? || k.reader.BreakNote? || k.reader.LineDue?) && k.reader.p == p
            && r.m == m && r.k == k.(reader := r.k.reader) && r.q == q.(lines := r.q.lines)
            && (r.k.reader.Sending? || r.k.reader.Check?
                || (r.k.reader.BreakNote? && r.k.reader.p == p)
                || (r.k.reader.LineDue? && r.k.reader.p == p && r.k.reader.after.Broke?)
                || (Unattached(k.reader) && (r.k.reader.Resolving? || r.k.reader.CloseDone?)))
            && (Unattached(r.k.reader) ==> ConnOk(k) ==> k.port.None?)
  {
  }

  lemma NoteStepKeepsLinks(cfg: Config, m: Mgr, c: ConnId, k: Conn, p: PortId, q: Port, e: PairEv)
    requires ConnOk(k) && PortOk(cfg, q) && Linked(cfg, c, k, p, q) && PairCan(m, c, k, p, q, e)
    requires IsNote(e)
    ensures var r := PairDo(cfg, m, c, k, p, q, e);
            ConnOk(r.k) && PortOk(cfg, r.q) && Linked(cfg, c, r.k, p, r.q)
  {
    hide Observers, PairDo, PairCan;
    NoteStepFrame(cfg, m, c, k, p, q, e);
  }

  lemma FanPairKeepsLinks(cfg: Config, m: Mgr, c: ConnId, k: Conn, p: PortId, q: Port, e: PairEv)
    requires ConnOk(k) && PortOk(cfg, q) && Linked(cfg, c, k, p, q) && PairCan(m, c, k, p, q, e)
    requires e.FanCheck? || e.FanPush?
    ensures var r := PairDo(cfg, m, c, k, p, q, e);
            ConnOk(r.k) && PortOk(cfg, r.q) && Linked(cfg, c, r.k, p, r.q)
  {
    hide Observers;
    FanStepKeepsReader(cfg, m, c, k, p, q, e);
  }

  lemma PairStepKeepsLinks(cfg: Config, m: Mgr, c: ConnId, k: Conn, p: PortId, q: Port, e: PairEv)
    requires ConnOk(k) && PortOk(cfg, q) && Linked(cfg, c, k, p, q) && PairCan(m, c, k, p, q, e)
    requires q.running <==> !q.worker.Absent?
    ensures var r := PairDo(cfg, m, c, k, p, q, e);
            ConnOk(r.k) && PortOk(cfg, r.q) && Linked(cfg, c, r.k, p, r.q)
  {
    hide Observers, Refused, Admitted;
    match e
    case FanCheck => FanPairKeepsLinks(cfg, m, c, k, p, q, e);
    case FanPush => FanPairKeepsLinks(cfg, m, c, k, p, q, e);
    case EnsureByOpen =>
    case ReadDevice => InputStepKeepsLinks(cfg, m, c, k, p, q, e);
    case DeviceTook(_, _) => InputStepKeepsLinks(cfg, m, c, k, p, q, e);
    case CountOnPort => InputStepKeepsLinks(cfg, m, c, k, p, q, e);
    case BreakTry(_) => NoteStepKeepsLinks(cfg, m, c, k, p, q, e);
    case BreakTake => NoteStepKeepsLinks(cfg, m, c, k, p, q, e);
    case SayNote => NoteStepKeepsLinks(cfg, m, c, k, p, q, e);
    case DetachStep => DetachKeepsLinks(cfg, c, k, p, q);
    case OpenLock => OpenCheckKeepsLinks(cfg, c, k, p, q);
    case OpenFinish => OpenFinishKeepsLinks(cfg, c, k, p, q);
  }

  lemma OpenStepKeepsOtherPort(cfg: Config, m: Mgr, c: ConnId, k: Conn, p: PortId, q: Port, e: PairEv,
                               p2: PortId, q2: Port)
    requires ConnOk(k) && Linked(cfg, c, k, p, q) && PairCan(m, c, k, p, q, e)
    requires !IsInput(e) && !IsNote(e) && !e.FanCheck? && !e.FanPush?
    requires p2 != p && Linked(cfg, c, k, p2, q2)
    ensures Linked(cfg, c, PairDo(cfg, m, c, k, p, q, e).k, p2, q2)
  {
    hide Observers, Refused, EnsureWorker;
    var k' := PairDo(cfg, m, c, k, p, q, e).k;
    assert !(k'.reader.OpenHold? && k'.reader.p == p2);
    assert Holds(k', p2) <==> Holds(k, p2);
  }

  lemma PairStepKeepsOtherPort(cfg: Config, m: Mgr, c: ConnId, k: Conn, p: PortId, q: Port, e: PairEv,
                               p2: PortId, q2: Port)
    requires ConnOk(k) && PortOk(cfg, q) && Linked(cfg, c, k, p, q) && PairCan(m, c, k, p, q, e)
    requires p2 != p && Linked(cfg, c, k, p2, q2)
    ensures Linked(cfg, c, PairDo(cfg, m, c, k, p, q, e).k, p2, q2)
  {
    hide Observers, PortOk;
    if e.FanCheck? || e.FanPush? {
      hide PairDo, PairCan;
      FanStepKeepsReader(cfg, m, c, k, p, q, e);
    } else if IsInput(e) {
      hide PairDo, PairCan;
      InputStepFrame(cfg, m, c, k, p, q, e);
    } else if IsNote(e) {
      hide PairDo, PairCan;
      NoteStepFrame(cfg, m, c, k, p, q, e);
    } else {
      OpenStepKeepsOtherPort(cfg, m, c, k, p, q, e, p2, q2);
    }
  }

  lemma OpenStepKeepsOtherConn(cfg: Config, m: Mgr, c: ConnId, k: Conn, p: PortId, q: Port, e: PairEv,
                               c2: ConnId, k2: Conn)
    requires Linked(cfg, c, k, p, q) && PairCan(m, c, k, p, q, e)
    requires !IsInput(e) && !IsNote(e) && !e.FanCheck? && !e.FanPush?
    requires c2 != c && Linked(cfg, c2, k2, p, q)
    ensures Linked(cfg, c2, k2, p, PairDo(cfg, m, c, k, p, q, e).q)
  {
    hide Observers, Holds, Writes, Refused;
  }

  lemma PairStepKeepsOtherConn(cfg: Config, m: Mgr, c: ConnId, k: Conn, p: PortId, q: Port, e: PairEv,
                               c2: ConnId, k2: Conn)
    requires ConnOk(k) && PortOk(cfg, q) && Linked(cfg, c, k, p, q) && PairCan(m, c, k, p, q, e)
    requires c2 != c && Linked(cfg, c2, k2, p, q)
    ensures Linked(cfg, c2, k2, p, PairDo(cfg, m, c, k, p, q, e).q)
  {
    hide Observers, Holds, Writes, Refused;
    if e.FanCheck? || e.FanPush? {
      hide PairDo, PairCan;
      FanStepKeepsReader(cfg, m, c, k, p, q, e);
    } else if IsInput(e) {
      hide PairDo, PairCan;
      InputStepFrame(cfg, m, c, k, p, q, e);
    } else if IsNote(e) {
      hide PairDo, PairCan;
      NoteStepFrame(cfg, m, c, k, p, q, e);
    } else {
      OpenStepKeepsOtherConn(cfg, m, c, k, p, q, e, c2, k2);
    }
  }
}
