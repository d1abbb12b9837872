/** The log of a port, line by line: what the worker and the clients write to it, and
    what can still follow its last line. */
module HubLog {
  import opened Prelude
  import opened Ring
  import opened HubModel
  import opened HubAttach
  import opened HubDelivery
  import opened HubLifecycle
  import opened HubInvariant

  // ------------------------------------------------------------------ reading a log

  /** The console output in a log. */
  function Outputs(lines: seq<Line>): (r: seq<bytes>) {
    if lines == [] then []
    else
      var last := lines[|lines| - 1];
      Outputs(lines[..|lines| - 1]) + if last.Output? then [last.chunk] else []
  }

  /** How often it says "capture stopped". */
  function Stops(lines: seq<Line>): (n: nat) {
    if lines == [] then 0
    else Stops(lines[..|lines| - 1]) + if lines[|lines| - 1].CaptureStopped? then 1 else 0
  }

  lemma OneMoreLine(lines: seq<Line>, log: bool, line: Line)
    ensures var r := lines + If(log, line);
            && Outputs(r) == Outputs(lines) + (if log && line.Output? then [line.chunk] else [])
            && Stops(r) == Stops(lines) + (if log && line.CaptureStopped? then 1 else 0)
  {
    if log {
      assert (lines + [line])[..|lines|] == lines;
    } else {
      assert lines + [] == lines;
    }
  }

  // ------------------------------------------------------------- what the worker logs

  /** Chunks whose way into the log is over. */
  function Logged(q: Port): (n: int) { q.fanned - if q.worker.LogWrite? then 1 else 0 }

  /** The worker has not given the log back yet. */
  predicate Capturing(w: Worker) { !w.Absent? && !w.Gone? && !w.ReleaseNote? && !w.Finishing? }

  predicate PortLogOk(m: Mgr, q: Port) {
    && (!m.closed || Capturing(q.worker) ==> q.logOpen == q.hadLog)
    && (q.worker.LogWrite? || q.worker.AuditOnline? || q.worker.AuditOffline? ==> q.worker.log == q.hadLog)
    && (q.worker.LogWrite? ==> 1 <= q.fanned <= |q.ringed| && q.worker.chunk == q.ringed[q.fanned - 1])
    && Outputs(q.lines) == (if q.hadLog && 0 <= Logged(q) <= |q.ringed| then q.ringed[..Logged(q)] else [])
    && Stops(q.lines) == q.stopNotes
    && (q.stopNotes > 0 ==> m.closed && !Capturing(q.worker) && !q.worker.ReleaseNote?)
  }

  /** What is known of a port from elsewhere. */
  predicate PortKnown(cfg: Config, m: Mgr, p: PortId, q: Port) {
    && PortFlow(cfg, q) && LifeOk(m, p, q)
    && (m.closed <==> !m.closer.NotClosing?) && (PastWait(m) ==> !Alive(q))
  }

  predicate WritesLine(e: PortEv) { e.LogOnline? || e.LogOffline? || e.LogChunk? || e.NoteStopped? || e.CloserNotes? }

  lemma OnlineStepKeepsLogOk(cfg: Config, m: Mgr, p: PortId, q: Port, e: PortEv)
    requires PortLogOk(m, q) && PortCan(m, p, q, e) && (e.LogOnline? || e.LogOffline?)
    ensures var r := PortDo(cfg, m, p, q, e); PortLogOk(r.m, r.q)
  {
    hide Outputs, Stops;
    OneMoreLine(q.lines, q.worker.log, Went(e.LogOnline?));
  }

  lemma ChunkStepKeepsLogOk(cfg: Config, m: Mgr, p: PortId, q: Port)
    requires PortLogOk(m, q) && q.worker.LogWrite?
    ensures var r := PortDo(cfg, m, p, q, LogChunk); PortLogOk(r.m, r.q)
  {
    hide Outputs, Stops;
    OneMoreLine(q.lines, q.worker.log, Output(q.worker.chunk));
    assert q.ringed[..q.fanned] == q.ringed[..q.fanned - 1] + [q.ringed[q.fanned - 1]];
  }

  lemma StopStepKeepsLogOk(cfg: Config, m: Mgr, p: PortId, q: Port, e: PortEv)
    requires PortLogOk(m, q) && PortKnown(cfg, m, p, q) && PortCan(m, p, q, e) && (e.NoteStopped? || e.CloserNotes?)
    ensures var r := PortDo(cfg, m, p, q, e); PortLogOk(r.m, r.q)
  {
    hide PortFlow, Placed, Alternates, Outputs, Stops;
    OneMoreLine(q.lines, if e.NoteStopped? then q.worker.had else m.closer.had, CaptureStopped);
  }

  lemma FanoutStepKeepsLogOk(cfg: Config, m: Mgr, p: PortId, q: Port, e: PortEv)
    requires PortLogOk(m, q) && PortKnown(cfg, m, p, q) && PortCan(m, p, q, e) && AtFanout(e)
    ensures var r := PortDo(cfg, m, p, q, e); PortLogOk(r.m, r.q)
  {
    hide LifeOk, Outputs, Stops, Last, Flat;
    if e.RingWrite? { assert (q.ringed + [q.worker.chunk])[..Logged(q)] == q.ringed[..Logged(q)]; }
  }

  lemma OthersKeepLogOk(cfg: Config, m: Mgr, p: PortId, q: Port, e: PortEv)
    requires PortLogOk(m, q) && PortKnown(cfg, m, p, q) && PortCan(m, p, q, e) && ByOthers(e) && !e.CloserNotes?
    ensures var r := PortDo(cfg, m, p, q, e); PortLogOk(r.m, r.q)
  {
    hide PortFlow, Placed, Alternates, Noted, Outputs, Stops;
  }

  lemma QuietStepKeepsLogOk(cfg: Config, m: Mgr, p: PortId, q: Port, e: PortEv)
    requires PortLogOk(m, q) && PortCan(m, p, q, e) && !WritesLine(e) && !AtFanout(e) && !ByOthers(e)
    requires e.TakeLog? ==> m.closed
    ensures var r := PortDo(cfg, m, p, q, e); PortLogOk(r.m, r.q)
  {
    hide Outputs, Stops;
  }

  lemma ReleaseIsAfterClose(cfg: Config, m: Mgr, p: PortId, q: Port)
    requires PortKnown(cfg, m, p, q)
    ensures q.worker.Release? ==> m.closed
  {
    hide PortFlow, Noted, Alternates;
  }

  lemma PortStepKeepsLogOk(cfg: Config, m: Mgr, p: PortId, q: Port, e: PortEv)
    requires PortLogOk(m, q) && PortKnown(cfg, m, p, q) && PortCan(m, p, q, e)
    ensures var r := PortDo(cfg, m, p, q, e); PortLogOk(r.m, r.q)
  {
    hide PortLogOk, PortKnown, PortDo;
    if e.LogOnline? || e.LogOffline? { OnlineStepKeepsLogOk(cfg, m, p, q, e); }
    else if e.LogChunk? { ChunkStepKeepsLogOk(cfg, m, p, q); }
    else if e.NoteStopped? || e.CloserNotes? { StopStepKeepsLogOk(cfg, m, p, q, e); }
    else if AtFanout(e) { FanoutStepKeepsLogOk(cfg, m, p, q, e); }
    else if ByOthers(e) { OthersKeepLogOk(cfg, m, p, q, e); }
    else {
      ReleaseIsAfterClose(cfg, m, p, q);
      QuietStepKeepsLogOk(cfg, m, p, q, e);
    }
  }

  lemma NotePairKeepsLogOk(cfg: Config, m: Mgr, c: ConnId, k: Conn, p: PortId, q: Port, e: PairEv)
    requires PortLogOk(m, q) && PairCan(m, c, k, p, q, e) && IsNote(e)
    ensures var r := PairDo(cfg, m, c, k, p, q, e); PortLogOk(r.m, r.q)
  {
    hide Outputs, Stops;
    NoteStepFrame(cfg, m, c, k, p, q, e);
    if e.SayNote? { OneMoreLine(q.lines, k.reader.log, Says(c)); }
  }

  /** What the log theorem looks at, the lines aside. */
  lemma LogFrame(m: Mgr, m': Mgr, q: Port, q': Port)
    requires PortLogOk(m, q) && (m.closed ==> m'.closed)
    requires q'.lines == q.lines && q'.logOpen == q.logOpen && q'.hadLog == q.hadLog && q'.stopNotes == q.stopNotes
    requires q'.ringed == q.ringed && q'.fanned == q.fanned
    requires q'.worker == q.worker
             || (!m.closed && q.worker.Absent? && q'.worker.Top?)
             || (q.worker.FanLoop? && (q'.worker.FanTry? || q'.worker.FanLoop?))
             || (q.worker.FanTry? && q'.worker.FanLoop?)
    ensures PortLogOk(m', q')
  {
    hide Outputs, Stops;
  }

  lemma OpenPairFrame(cfg: Config, m: Mgr, c: ConnId, k: Conn, p: PortId, q: Port, e: PairEv)
    requires PairCan(m, c, k, p, q, e) && !IsNote(e) && !IsInput(e) && (q.running <==> !q.worker.Absent?)
    ensures var r := PairDo(cfg, m, c, k, p, q, e);
            && r.m.closed == m.closed
            && r.q.lines == q.lines && r.q.logOpen == q.logOpen && r.q.hadLog == q.hadLog
            && r.q.stopNotes == q.stopNotes && r.q.ringed == q.ringed && r.q.fanned == q.fanned
            && (|| r.q.worker == q.worker
                || (!m.closed && q.worker.Absent? && r.q.worker.Top?)
                || (q.worker.FanLoop? && (r.q.worker.FanTry? || r.q.worker.FanLoop?))
                || (q.worker.FanTry? && r.q.worker.FanLoop?))
  {
    hide Observers, Refused, TryEnqueue;
  }

  lemma PairStepKeepsLogOk(cfg: Config, m: Mgr, c: ConnId, k: Conn, p: PortId, q: Port, e: PairEv)
    requires PortLogOk(m, q) && PairCan(m, c, k, p, q, e) && (q.running <==> !q.worker.Absent?)
    ensures var r := PairDo(cfg, m, c, k, p, q, e); PortLogOk(r.m, r.q)
  {
    hide PortLogOk, Observers, Refused, TryEnqueue;
    var r := PairDo(cfg, m, c, k, p, q, e);
    if IsNote(e) {
      NotePairKeepsLogOk(cfg, m, c, k, p, q, e);
    } else if IsInput(e) {
      hide PairDo, PairCan;
      InputStepFrame(cfg, m, c, k, p, q, e);
      InputStepKeepsMgr(cfg, m, c, k, p, q, e);
      LogFrame(m, r.m, q, r.q);
    } else {
      OpenPairFrame(cfg, m, c, k, p, q, e);
      hide PairDo, PairCan;
      LogFrame(m, r.m, q, r.q);
    }
  }

  ghost predicate LogInv(s: State) { forall p | p in s.ports :: PortLogOk(s.m, s.ports[p]) }

  lemma KnownPort(cfg: Config, s: State, p: PortId)
    requires Inv(cfg, s) && p in s.ports
    ensures PortKnown(cfg, s.m, p, s.ports[p]) && (s.ports[p].running <==> !s.ports[p].worker.Absent?)
  {
    hide PortOk, PortFlow, Placed, Alternates, Noted, PastWait, Alive, Balanced, Total, ConnGood, PairGood;
    assert PortGood(cfg, s.m, p, s.ports[p], s.conns.Keys);
  }

  lemma FreshLogOk(m: Mgr, baud: int, hasLog: bool)
    requires !m.closed
    ensures PortLogOk(m, FreshPort(baud, hasLog))
  {
  }

  lemma KnownLife(cfg: Config, s: State, p: PortId)
    requires Inv(cfg, s) && p in s.ports
    ensures LifeOk(s.m, p, s.ports[p])
  {
    hide LifeOk, PortFlow, PortOk, ConnGood, PairGood, Managed, Balanced;
    assert PortGood(cfg, s.m, p, s.ports[p], s.conns.Keys);
  }

  lemma StepClosesOnly(cfg: Config, s: State, e: Event)
    requires Inv(cfg, s) && Can(s, e)
    ensures s.m.closed ==> Do(cfg, s, e).m.closed
  {
    hide Inv, ConnDo, PortDo, PairDo, ConnCan, PortCan, PairCan;
    match e
    case OnPort(p, pe) =>
      KnownLife(cfg, s, p);
      PortStepCounts(cfg, s.m, p, s.ports[p], pe);
    case OnPair(c, p, pe) =>
      KnownLife(cfg, s, p);
      PairStepCounts(cfg, s.m, c, s.conns[c], p, s.ports[p], pe);
    case _ =>
  }

  lemma StepKeepsLogInv(cfg: Config, s: State, e: Event)
    requires Inv(cfg, s) && LogInv(s) && Can(s, e)
    ensures LogInv(Do(cfg, s, e))
  {
    hide Inv, PortLogOk, ConnDo, PortDo, PairDo, ConnCan, PortCan, PairCan, PortKnown, FreshPort;
    var s' := Do(cfg, s, e);
    forall p | p in s'.ports ensures PortLogOk(s'.m, s'.ports[p]) {
      if p in s.ports {
        KnownPort(cfg, s, p);
        StepClosesOnly(cfg, s, e);
        match e
        case OnPort(r, pe) =>
          if r == p { PortStepKeepsLogOk(cfg, s.m, p, s.ports[p], pe); }
          else { LogFrame(s.m, s'.m, s.ports[p], s.ports[p]); }
        case OnPair(c, r, pe) =>
          if r == p { PairStepKeepsLogOk(cfg, s.m, c, s.conns[c], p, s.ports[p], pe); }
          else { LogFrame(s.m, s'.m, s.ports[p], s.ports[p]); }
        case _ => LogFrame(s.m, s'.m, s.ports[p], s.ports[p]);
      } else {
        FreshLogOk(s'.m, if e.me.baud > 0 then e.me.baud else cfg.defaultBaud, e.me.hasLog);
      }
    }
  }

  lemma NoLogs()
    ensures LogInv(INIT)
  {
  }

  lemma {:induction false} ReachedLogInv(cfg: Config, es: seq<Event>)
    requires IsRun(cfg, INIT, es)
    ensures LogInv(Reached(cfg, es))
    decreases |es|
  {
    hide Inv, LogInv, Can, Do;
    if es == [] {
      NoLogs();
    } else {
      ReachedInv(cfg, es[..|es| - 1]);
      ReachedLogInv(cfg, es[..|es| - 1]);
      StepKeepsLogInv(cfg, Reached(cfg, es[..|es| - 1]), es[|es| - 1]);
    }
  }

  lemma LoggedSoFar(cfg: Config, m: Mgr, p: PortId, q: Port)
    requires PortLogOk(m, q) && PortKnown(cfg, m, p, q) && q.hadLog
    ensures 0 <= Logged(q) <= |q.ringed| <= Logged(q) + 1 && Outputs(q.lines) == q.ringed[..Logged(q)]
    ensures !Alive(q) || q.worker.Reading? ==> Outputs(q.lines) == q.ringed
  {
    hide Outputs, Stops, LifeOk;
    assert q.ringed[..|q.ringed|] == q.ringed;
  }

  /** Every chunk of console output goes to the log of a port that has one, once and in
      order: all that was read but the last chunk at most, and all of it once the worker
      has ended. No client, no kill and no Close comes in between. */
  lemma LogGetsEveryChunk(cfg: Config, es: seq<Event>, p: PortId)
    requires IsRun(cfg, INIT, es) && p in Reached(cfg, es).ports && Reached(cfg, es).ports[p].hadLog
    ensures var q := Reached(cfg, es).ports[p];
            && 0 <= Logged(q) <= |q.ringed| <= Logged(q) + 1
            && Outputs(q.lines) == q.ringed[..Logged(q)]
            && (!Alive(q) || q.worker.Reading? ==> Outputs(q.lines) == q.ringed)
  {
    hide Inv, PortLogOk, LifeOk;
    ReachedInv(cfg, es);
    ReachedLogInv(cfg, es);
    KnownPort(cfg, Reached(cfg, es), p);
    LoggedSoFar(cfg, Reached(cfg, es).m, p, Reached(cfg, es).ports[p]);
  }
}
