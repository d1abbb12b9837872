/** The hub's log lines in the log writer's files: what a port's device has said, read
    back from disk. */
module HubLogFile {
  import opened Prelude
  import opened HubModel
  import opened HubAttach
  import opened HubDelivery
  import opened HubLifecycle
  import opened HubInvariant
  import opened HubLog
  import opened HubDevices
  import opened HubTheorems
  import C = PortLogCalls
  import W = PortLog
  import T = PortLogTheorems

  /** The calls that write one line; `text` is the wording of the notes. */
  function CallsOf(line: Line, text: Line -> string): (ops: seq<W.Op>) {
    match line
    case Output(chunk) => [W.Write(chunk)]
    case CaptureStopped => [W.MakeNote(text(line)), W.DoClose]
    case _ => [W.MakeNote(text(line))]
  }

  /** A port's log writer: described when the port was added, then called line by line. */
  function Calls(lines: seq<Line>, text: Line -> string, dev: string, baud: int): (ops: seq<W.Op>) {
    if lines == [] then [W.Describe(dev, baud)]
    else Calls(lines[..|lines| - 1], text, dev, baud) + CallsOf(lines[|lines| - 1], text)
  }

  lemma {:induction false} WrittenConcat(a: seq<W.Op>, b: seq<W.Op>)
    ensures T.Written(a + b) == T.Written(a) + T.Written(b)
    decreases |b|
  {
    if b == [] {
      assert a + b == a;
    } else {
      WrittenConcat(a, b[..|b| - 1]);
      assert (a + b)[..|a + b| - 1] == a + b[..|b| - 1];
    }
  }

  lemma CallsOfLineWrite(line: Line, text: Line -> string)
    ensures T.Written(CallsOf(line, text)) == if line.Output? then line.chunk else []
  {
    var ops := CallsOf(line, text);
    if line.CaptureStopped? {
      assert ops[..1] == [W.MakeNote(text(line))] && [W.MakeNote(text(line))][..0] == [];
      assert T.Written([W.MakeNote(text(line))]) == [];
    } else {
      assert ops[..0] == [];
    }
  }

  /** What the writer is given is the console output in the log. */
  lemma {:induction false} CallsWriteOutputs(lines: seq<Line>, text: Line -> string, dev: string, baud: int)
    ensures T.Written(Calls(lines, text, dev, baud)) == Flat(Outputs(lines))
    decreases |lines|
  {
    hide CallsOf;
    if lines == [] {
      assert [W.Describe(dev, baud)][..0] == [];
    } else {
      var front, last := lines[..|lines| - 1], lines[|lines| - 1];
      CallsWriteOutputs(front, text, dev, baud);
      CallsOfLineWrite(last, text);
      WrittenConcat(Calls(front, text, dev, baud), CallsOf(last, text));
      if last.Output? {
        FlatAppend(Outputs(front), last.chunk);
      } else {
        assert Outputs(front) + [] == Outputs(front) && Flat(Outputs(front)) + [] == Flat(Outputs(front));
      }
    }
  }

  lemma {:induction false} NoFilesNoMarks(n: W.Day)
    ensures T.Cat(map[], n) == []
  {
    if n > 0 { NoFilesNoMarks(n - 1); }
  }

  /** From the device to the disk: with a steady clock and no file errors, the day files
      of a port, in order, and the writer's buffer behind them, with headers, stamps and
      notes erased, are byte for byte what was read from its device, but for the chunk
      the worker has in hand. */
  lemma DeviceOutputIsOnDisk(cfg: Config, es: seq<Event>, p: PortId,
                             e: W.World, stamp: bool, text: Line -> string, dev: string, baud: int)
    requires IsRun(cfg, INIT, es) && p in Reached(cfg, es).ports && Reached(cfg, es).ports[p].hadLog
    requires T.NoFaults(e) && T.Steady(e)
    ensures var q := Reached(cfg, es).ports[p];
            var ops := Calls(q.lines, text, dev, baud);
            var n, w := T.Horizon(e, ops), W.ApplyAll(e, W.FreshLog(stamp, map[]), ops);
            && 0 <= Logged(q) <= |q.ringed| <= Logged(q) + 1
            && T.BytesOf(T.Held(w, n)) == Flat(q.ringed[..Logged(q)])
  {
    hide T.NoFaults, T.Steady, W.ApplyAll, T.Held, T.Horizon, Outputs, Calls, IsRun, StateAfter;
    var q := Reached(cfg, es).ports[p];
    var ops := Calls(q.lines, text, dev, baud);
    LogGetsEveryChunk(cfg, es, p);
    T.NoByteIsLostOrMoved(e, stamp, map[], ops);
    NoFilesNoMarks(T.Horizon(e, ops));
    CallsWriteOutputs(q.lines, text, dev, baud);
    assert T.BytesOf(T.Marks([])) == [];
    assert [] + T.Written(ops) == T.Written(ops);
  }

  // ----------------------------------------------------------------- when Close is done

  /** Once "capture stopped" is in the log, its last line is no console output. */
  predicate EndsQuietly(q: Port) { q.stopNotes > 0 ==> q.lines != [] && !q.lines[|q.lines| - 1].Output? }

  lemma WorkersOtherStepsSayNothing(cfg: Config, m: Mgr, p: PortId, q: Port, e: PortEv)
    requires PortCan(m, p, q, e) && !WritesLine(e) && !ByOthers(e) && !AtFanout(e)
    ensures var q' := PortDo(cfg, m, p, q, e).q; q'.lines == q.lines && q'.stopNotes == q.stopNotes
  {
  }

  lemma OtherStepsSayNothing(cfg: Config, m: Mgr, p: PortId, q: Port, e: PortEv)
    requires PortCan(m, p, q, e) && !WritesLine(e)
    ensures var q' := PortDo(cfg, m, p, q, e).q; q'.lines == q.lines && q'.stopNotes == q.stopNotes
  {
    if !ByOthers(e) && !AtFanout(e) {
      hide PortDo, PortCan;
      WorkersOtherStepsSayNothing(cfg, m, p, q, e);
    } else {
      hide Flat;
    }
  }

  lemma PortStepEndsQuietly(cfg: Config, m: Mgr, p: PortId, q: Port, e: PortEv)
    requires EndsQuietly(q) && PortLogOk(m, q) && PortCan(m, p, q, e)
    ensures EndsQuietly(PortDo(cfg, m, p, q, e).q)
  {
    hide Outputs, Stops;
    if !WritesLine(e) {
      hide PortDo, PortCan, PortLogOk;
      OtherStepsSayNothing(cfg, m, p, q, e);
    }
  }

  lemma PairStepEndsQuietly(cfg: Config, m: Mgr, c: ConnId, k: Conn, p: PortId, q: Port, e: PairEv)
    requires EndsQuietly(q) && PairCan(m, c, k, p, q, e)
    ensures EndsQuietly(PairDo(cfg, m, c, k, p, q, e).q)
  {
    hide Observers, Refused, TryEnqueue;
    var q' := PairDo(cfg, m, c, k, p, q, e).q;
    assert e.SayNote? || (q'.lines == q.lines && q'.stopNotes == q.stopNotes);
  }

  lemma FreshEndsQuietly(baud: int, hasLog: bool)
    ensures EndsQuietly(FreshPort(baud, hasLog))
  {
  }

  lemma {:induction false} LogEndsQuietly(cfg: Config, es: seq<Event>, p: PortId)
    requires IsRun(cfg, INIT, es) && p in Reached(cfg, es).ports
    ensures EndsQuietly(Reached(cfg, es).ports[p])
    decreases |es|
  {
    hide EndsQuietly, PortLogOk, ConnDo, PortDo, PairDo, ConnCan, PortCan, PairCan;
    if es != [] {
      var front, e := es[..|es| - 1], es[|es| - 1];
      var s := Reached(cfg, front);
      if p in s.ports { LogEndsQuietly(cfg, front, p); }
      ReachedLogInv(cfg, front);
      match e
      case OnPort(r, pe) => if r == p { PortStepEndsQuietly(cfg, s.m, p, s.ports[p], pe); }
      case OnPair(c, r, pe) => if r == p { PairStepEndsQuietly(cfg, s.m, c, s.conns[c], p, s.ports[p], pe); }
      case OnMgr(me) =>
        if me.AddPort? { FreshEndsQuietly(if me.baud > 0 then me.baud else cfg.defaultBaud, me.hasLog); }
      case _ =>
    }
  }

  lemma QuietLineSyncs(lines: seq<Line>, text: Line -> string, dev: string, baud: int)
    requires lines != [] && !lines[|lines| - 1].Output?
    ensures var ops := Calls(lines, text, dev, baud); ops != [] && C.Syncs(ops[|ops| - 1])
  {
  }

  lemma AllIsLogged(cfg: Config, es: seq<Event>, p: PortId)
    requires IsRun(cfg, INIT, es) && p in Reached(cfg, es).ports && Reached(cfg, es).ports[p].hadLog
    requires Reached(cfg, es).m.closer.Closed?
    ensures var q := Reached(cfg, es).ports[p];
            Outputs(q.lines) == ReadFrom(es, p) && q.lines != [] && !q.lines[|q.lines| - 1].Output?
  {
    hide IsRun, StateAfter, Outputs, ReadFrom;
    var q := Reached(cfg, es).ports[p];
    CloseLeavesNothingRunning(cfg, es, p);
    LogGetsEveryChunk(cfg, es, p);
    EveryReadIsTakenIn(cfg, es, p);
    LogEndsQuietly(cfg, es, p);
    assert q.ringed + [] == q.ringed;
  }

  /** When Close has returned, every byte a port's device said in the run is in the day
      files, in order, and none is left in memory: with a steady clock and no file errors,
      whoever was attached, was killed, or writes a line later. */
  lemma EverythingReadIsOnDisk(cfg: Config, es: seq<Event>, p: PortId,
                               e: W.World, stamp: bool, text: Line -> string, dev: string, baud: int)
    requires IsRun(cfg, INIT, es) && p in Reached(cfg, es).ports && Reached(cfg, es).ports[p].hadLog
    requires Reached(cfg, es).m.closer.Closed? && T.NoFaults(e) && T.Steady(e)
    ensures var ops := Calls(Reached(cfg, es).ports[p].lines, text, dev, baud);
            var n, w := T.Horizon(e, ops), W.ApplyAll(e, W.FreshLog(stamp, map[]), ops);
            w.buf == [] && T.BytesOf(T.Marks(T.Cat(w.files, n))) == Flat(ReadFrom(es, p))
  {
    hide T.NoFaults, T.Steady, W.ApplyAll, T.Horizon, Outputs, Calls, IsRun, StateAfter, C.Syncs, ReadFrom;
    var lines := Reached(cfg, es).ports[p].lines;
    var ops := Calls(lines, text, dev, baud);
    AllIsLogged(cfg, es, p);
    QuietLineSyncs(lines, text, dev, baud);
    C.WhatWasWrittenIsOnDisk(e, stamp, map[], ops);
    NoFilesNoMarks(T.Horizon(e, ops));
    CallsWriteOutputs(lines, text, dev, baud);
    assert T.BytesOf(T.Marks([])) == [];
    assert [] + T.Written(ops) == T.Written(ops);
  }
}
