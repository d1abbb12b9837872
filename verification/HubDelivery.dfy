/** What an attached client is sent: the backlog, then every later chunk, with no
    hole; and, once a frame had to be refused, nothing more. */
module HubDelivery {
  import opened Prelude
  import opened Ring
  import opened HubModel
  import opened HubAttach

  /** The chunk between fanout's ring step and the end of its p.mu section. */
  predicate Fanning(w: Worker) { w.FanLock? || w.FanLoop? || w.FanTry? }

  predicate PortFlow(cfg: Config, q: Port) {
    && q.ring == Last(cfg.ringSize, Flat(q.ringed))
    && q.fanned <= |q.ringed| <= q.fanned + 1
    && (|q.ringed| == q.fanned + 1 <==> Fanning(q.worker))
    && (Fanning(q.worker) ==> q.worker.chunk == q.ringed[q.fanned])
  }

  /** The data frames of a queue history. */
  function DataOf(msgs: seq<Msg>): (r: seq<bytes>) {
    if msgs == [] then []
    else DataOf(msgs[..|msgs| - 1]) + (var m := msgs[|msgs| - 1]; if m.Data? then [m.payload] else [])
  }

  lemma DataOfAppend(msgs: seq<Msg>, msg: Msg)
    ensures DataOf(msgs + [msg]) == DataOf(msgs) + if msg.Data? then [msg.payload] else []
  {
    assert (msgs + [msg])[..|msgs|] == msgs;
  }

  lemma {:induction false} DataOfPrefix(a: seq<Msg>, b: seq<Msg>)
    requires a <= b
    ensures DataOf(a) <= DataOf(b)
    decreases |b|
  {
    if a != b {
      DataOfPrefix(a, b[..|b| - 1]);
      assert DataOf(b) == DataOf(b[..|b| - 1]) + (var m := b[|b| - 1]; if m.Data? then [m.payload] else []);
    } else {
      assert a == b;
    }
  }

  function InFlight(w: Writer): (r: seq<Msg>) { if w.Writing? then [w.msg] else [] }

  /** The queue is bounded, first in first out, and loses nothing but its tail. */
  predicate ConnFlow(k: Conn) {
    && |k.queue| <= QUEUE_DEPTH
    && (!k.writer.Stopped? ==> k.enq == k.sent + InFlight(k.writer) + k.queue)
    && k.sent <= k.enq
    && DataOf(k.enq) == k.past + k.got
    && (k.cut ==> k.done)
  }

  /** The chunks offered to connection c so far. */
  function OfferedTo(c: ConnId, q: Port): (n: nat) {
    q.fanned + if (q.worker.FanLoop? && c !in q.worker.todo)
               || (q.worker.FanTry? && c !in q.worker.todo && c != q.worker.c) then 1 else 0
  }

  /** A backlog taken when `seen` chunks were in the ring, live data from `first` on:
      no chunk in between is missing, and at most one is in both. */
  predicate Snapshot(cfg: Config, q: Port, backlog: bytes, seen: nat, first: nat) {
    && first <= seen <= first + 1 && seen <= |q.ringed|
    && backlog == Last(cfg.ringSize, Flat(q.ringed[..seen]))
  }

  predicate AttOk(cfg: Config, a: Att, q: Port) {
    && Snapshot(cfg, q, a.backlog, a.seen, a.first)
    && a.first <= a.upto <= |q.ringed|
  }

  /** The data frames an attachment should have been queued by now. */
  function Due(a: Att, q: Port): (r: seq<bytes>)
    requires a.first <= a.upto <= |q.ringed|
  {
    (if a.backlog == [] then [] else [a.backlog]) + q.ringed[a.first..a.upto]
  }

  predicate Flow(cfg: Config, c: ConnId, k: Conn, p: PortId, q: Port) {
    && (k.att.Some? && k.att.value.port == p ==>
        AttOk(cfg, k.att.value, q)
        && k.got <= Due(k.att.value, q) && (!k.cut ==> k.got == Due(k.att.value, q)))
    && (Holds(k, p) ==> k.att.Some? && k.att.value.port == p && k.att.value.upto == OfferedTo(c, q))
    && (k.reader.OpenHold? && k.reader.p == p ==>
        Snapshot(cfg, q, k.reader.backlog, k.reader.seen, q.fanned)
        && (k.reader.sawDone ==> k.done) && (k.cut ==> k.reader.sawDone))
    && (q.worker.FanTry? && q.worker.c == c ==> !k.cut)
  }

  lemma PushKeepsConnFlow(k: Conn, msg: Msg)
    requires ConnFlow(k) && |k.queue| < QUEUE_DEPTH
    ensures ConnFlow(Push(k, msg))
  {
    DataOfAppend(k.enq, msg);
    var k' := Push(k, msg);
    var front := k.sent + InFlight(k.writer);
    assert front + (k.queue + [msg]) == (front + k.queue) + [msg];
    assert DataOf(k'.enq) == k'.past + k'.got;
  }

  lemma TakeKeepsConnFlow(k: Conn)
    requires ConnFlow(k) && ConnCan(k, Take)
    ensures ConnFlow(ConnDo(k, Take))
  {
    hide DataOf;
    assert k.queue == [k.queue[0]] + k.queue[1..];
    assert k.sent + [] + k.queue == k.sent + [k.queue[0]] + k.queue[1..];
  }

  lemma WroteKeepsConnFlow(k: Conn)
    requires ConnFlow(k) && ConnCan(k, Wrote)
    ensures ConnFlow(ConnDo(k, Wrote))
  {
    hide DataOf;
    assert k.sent + [k.writer.msg] + [] == k.sent + [k.writer.msg];
    assert k.enq == (k.sent + [k.writer.msg]) + k.queue;
  }

  lemma WriterStepKeepsConnFlow(k: Conn, e: ConnEv)
    requires ConnFlow(k) && ConnCan(k, e) && (e.Take? || e.Wrote? || e.WriteFails? || e.WriterSeesDone?)
    ensures ConnFlow(ConnDo(k, e))
  {
    hide DataOf;
    if e.Take? { TakeKeepsConnFlow(k); } else if e.Wrote? { WroteKeepsConnFlow(k); }
  }

  lemma ConnStepKeepsConnFlow(k: Conn, e: ConnEv)
    requires ConnFlow(k) && ConnCan(k, e)
    ensures ConnFlow(ConnDo(k, e))
  {
    if e.SendPush? || (e.Notice? && |k.queue| < QUEUE_DEPTH) {
      PushKeepsConnFlow(k, Ctrl);
    } else if e.Take? || e.Wrote? || e.WriteFails? || e.WriterSeesDone? {
      WriterStepKeepsConnFlow(k, e);
    } else {
      assert ConnDo(k, e) == k.(reader := ConnDo(k, e).reader, port := ConnDo(k, e).port, done := ConnDo(k, e).done,
                                writable := ConnDo(k, e).writable, written := ConnDo(k, e).written);
    }
  }

  /** What a connection's own steps leave alone. */
  predicate KeepsHistory(k: Conn, k': Conn) {
    k'.att == k.att && k'.got == k.got && k'.cut == k.cut && (k.done ==> k'.done)
  }

  lemma OutsideStepKeepsHistory(k: Conn, e: ConnEv)
    requires ConnCan(k, e) && NotByReader(e)
    ensures KeepsHistory(k, ConnDo(k, e))
  {
  }

  lemma DetachStepKeepsHistory(k: Conn, e: ConnEv)
    requires ConnCan(k, e) && Detaches(e)
    ensures KeepsHistory(k, ConnDo(k, e)) && ConnDo(k, e).enq == k.enq
  {
  }

  lemma ReaderStepKeepsHistory(k: Conn, e: ConnEv)
    requires ConnCan(k, e) && !NotByReader(e) && !Detaches(e)
    ensures KeepsHistory(k, ConnDo(k, e)) && (!e.SendPush? ==> ConnDo(k, e).enq == k.enq)
  {
  }

  lemma ConnStepKeepsHistory(k: Conn, e: ConnEv)
    requires ConnCan(k, e)
    ensures KeepsHistory(k, ConnDo(k, e))
  {
    hide ConnDo, ConnCan, KeepsHistory;
    if NotByReader(e) { OutsideStepKeepsHistory(k, e); }
    else if Detaches(e) { DetachStepKeepsHistory(k, e); }
    else { ReaderStepKeepsHistory(k, e); }
  }

  lemma ConnStepQueuesNothing(k: Conn, e: ConnEv)
    requires ConnCan(k, e) && !e.SendPush? && !e.Notice?
    ensures var k' := ConnDo(k, e);
            k'.enq == k.enq && (k.done ==> k'.done) && (k'.reader.OpenHold? ==> k'.reader == k.reader)
  {
    ConnStepKeepsHistory(k, e);
    ConnStepMoves(k, e);
    if NotByReader(e) {
    } else {
      hide ConnDo, ConnCan;
      if Detaches(e) { DetachStepKeepsHistory(k, e); } else { ReaderStepKeepsHistory(k, e); }
    }
  }

  lemma ConnStepFrame(k: Conn, e: ConnEv, p: PortId)
    requires ConnOk(k) && ConnCan(k, e)
    ensures var k' := ConnDo(k, e);
            && k'.att == k.att && k'.got == k.got && k'.cut == k.cut && (k.done ==> k'.done)
            && (Holds(k', p) ==> Holds(k, p)) && (k'.reader.OpenHold? ==> k'.reader == k.reader)
  {
    hide ConnDo, ConnCan;
    ConnStepMoves(k, e);
    ConnStepKeepsHistory(k, e);
  }

  /** What Flow depends on. */
  lemma FlowFrame(cfg: Config, c: ConnId, k: Conn, k': Conn, p: PortId, q: Port, q': Port)
    requires Flow(cfg, c, k, p, q)
    requires k'.att == k.att && k'.got == k.got && k'.cut == k.cut && (k.done ==> k'.done)
    requires q'.ringed == q.ringed && q'.fanned == q.fanned && OfferedTo(c, q') == OfferedTo(c, q)
    requires Holds(k', p) ==> Holds(k, p)
    requires k'.reader.OpenHold? ==> k'.reader == k.reader
    requires q'.worker.FanTry? && q'.worker.c == c ==> q'.worker == q.worker
    ensures Flow(cfg, c, k', p, q')
  {
  }

  lemma ConnStepKeepsFlow(cfg: Config, c: ConnId, k: Conn, e: ConnEv, p: PortId, q: Port)
    requires ConnOk(k) && ConnCan(k, e) && Flow(cfg, c, k, p, q)
    ensures Flow(cfg, c, ConnDo(k, e), p, q)
  {
    hide ConnDo, ConnCan, ConnOk, Flow, Holds, OfferedTo;
    ConnStepFrame(k, e, p);
    FlowFrame(cfg, c, k, ConnDo(k, e), p, q, q);
  }

  lemma TryEnqueueKeepsConnFlow(k: Conn, payload: bytes)
    requires ConnFlow(k)
    ensures ConnFlow(TryEnqueue(k, payload))
  {
    if |k.queue| < QUEUE_DEPTH { PushKeepsConnFlow(k, Data(payload)); }
  }

  lemma OpenQueuedKeepsConnFlow(k: Conn, p: PortId, q: Port)
    requires ConnFlow(k) && k.reader.OpenHold? && (k.reader.sawDone ==> k.done)
    ensures ConnFlow(OpenQueued(k, p, q))
  {
    var joined := k.(past := k.past + k.got, got := [],
                     att := Some(Att(p, k.reader.backlog, k.reader.seen, q.fanned, q.fanned)));
    TryEnqueueKeepsConnFlow(joined, k.reader.backlog);
  }

  lemma RingStepKeepsPortFlow(cfg: Config, q: Port)
    requires PortFlow(cfg, q) && q.worker.RingStep?
    ensures PortFlow(cfg, PortDo(cfg, INIT.m, 0, q, RingWrite).q)
  {
    FlatAppend(q.ringed, q.worker.chunk);
    LastOfLast(cfg.ringSize, Flat(q.ringed), q.worker.chunk);
  }

  lemma PortStepKeepsPortFlow(cfg: Config, m: Mgr, p: PortId, q: Port, e: PortEv)
    requires PortFlow(cfg, q) && PortCan(m, p, q, e)
    requires q.running <==> !q.worker.Absent?
    ensures PortFlow(cfg, PortDo(cfg, m, p, q, e).q)
  {
    if e.RingWrite? { RingStepKeepsPortFlow(cfg, q); }
  }

  lemma GrowthKeepsSnapshot(cfg: Config, q: Port, q': Port, backlog: bytes, seen: nat, first: nat)
    requires Snapshot(cfg, q, backlog, seen, first) && q.ringed <= q'.ringed
    ensures Snapshot(cfg, q', backlog, seen, first)
  {
    assert q'.ringed[..seen] == q.ringed[..seen];
  }

  lemma GrowthKeepsAtt(cfg: Config, a: Att, q: Port, q': Port)
    requires AttOk(cfg, a, q) && q.ringed <= q'.ringed
    ensures AttOk(cfg, a, q') && Due(a, q') == Due(a, q)
  {
    GrowthKeepsSnapshot(cfg, q, q', a.backlog, a.seen, a.first);
    assert q'.ringed[a.first..a.upto] == q.ringed[a.first..a.upto];
  }

  /** A port step neither takes a history away nor moves what c was offered. */
  predicate Grows(c: ConnId, q: Port, q': Port) {
    && q.ringed <= q'.ringed
    && (c in q.conns ==> OfferedTo(c, q') == OfferedTo(c, q))
    && (q.lock == Some(ByReader(c)) ==> q'.fanned == q.fanned)
    && (q'.worker.FanTry? ==> q'.worker == q.worker)
  }

  lemma FanBoundsGrow(cfg: Config, m: Mgr, p: PortId, q: Port, e: PortEv, c: ConnId)
    requires PortOk(cfg, q) && PortCan(m, p, q, e) && (e.FanBegin? || e.FanEnd?)
    ensures Grows(c, q, PortDo(cfg, m, p, q, e).q)
  {
  }

  lemma PortStepGrows(cfg: Config, m: Mgr, p: PortId, q: Port, e: PortEv, c: ConnId)
    requires PortOk(cfg, q) && PortCan(m, p, q, e)
    requires q.running <==> !q.worker.Absent?
    ensures Grows(c, q, PortDo(cfg, m, p, q, e).q)
  {
    if e.FanBegin? || e.FanEnd? {
      FanBoundsGrow(cfg, m, p, q, e, c);
    } else {
      var q' := PortDo(cfg, m, p, q, e).q;
      assert q'.fanned == q.fanned;
      assert q'.worker == q.worker
             || !(q.worker.FanLoop? || q.worker.FanTry? || q'.worker.FanLoop? || q'.worker.FanTry?);
    }
  }

  lemma PortStepKeepsFlow(cfg: Config, m: Mgr, p: PortId, q: Port, e: PortEv, c: ConnId, k: Conn)
    requires PortOk(cfg, q) && PortFlow(cfg, q) && PortCan(m, p, q, e)
    requires q.running <==> !q.worker.Absent?
    requires Linked(cfg, c, k, p, q) && Flow(cfg, c, k, p, q)
    ensures Flow(cfg, c, k, p, PortDo(cfg, m, p, q, e).q)
  {
    hide PortDo, PortCan, Observers, Due, AttOk, Snapshot, OfferedTo;
    PortStepGrows(cfg, m, p, q, e, c);
    var q' := PortDo(cfg, m, p, q, e).q;
    if k.att.Some? && k.att.value.port == p { GrowthKeepsAtt(cfg, k.att.value, q, q'); }
    if k.reader.OpenHold? && k.reader.p == p {
      GrowthKeepsSnapshot(cfg, q, q', k.reader.backlog, k.reader.seen, q.fanned);
    }
  }

  lemma AdmissionKeepsFlow(cfg: Config, c: ConnId, k: Conn, p: PortId, q: Port, r: OnBoth)
    requires PortFlow(cfg, q) && Flow(cfg, c, k, p, q) && k.port.None? && (k.cut ==> k.done)
    requires r.k == k.(reader := r.k.reader) && r.k.reader.OpenHold? && r.k.reader.p == p
    requires r.k.reader.backlog == q.ring && r.k.reader.seen == |q.ringed| && r.k.reader.sawDone == k.done
    requires r.q == q.(lock := r.q.lock, baud := r.q.baud)
    ensures Flow(cfg, c, r.k, p, r.q)
  {
    assert q.ringed[..|q.ringed|] == q.ringed;
  }

  lemma OpenCheckKeepsFlow(cfg: Config, c: ConnId, k: Conn, p: PortId, q: Port)
    requires PortFlow(cfg, q) && Flow(cfg, c, k, p, q) && (k.cut ==> k.done)
    requires k.reader.OpenWait? && k.port.None?
    ensures var r := OpenChecked(cfg, c, k, p, q); Flow(cfg, c, r.k, p, r.q)
  {
    hide Flow, PortFlow, Refused;
    if Refused(cfg, c, q, k.reader.req.observe) {
      FlowFrame(cfg, c, k, k.(reader := Sending), p, q, q);
    } else {
      AdmissionKeepsFlow(cfg, c, k, p, q, OpenChecked(cfg, c, k, p, q));
    }
  }

  /** The new attachment starts with the backlog, unless that was refused. */
  lemma OpenQueuedStarts(cfg: Config, k: Conn, p: PortId, q: Port)
    requires k.reader.OpenHold? && q.fanned <= |q.ringed|
    ensures var r, a := OpenQueued(k, p, q), Att(p, k.reader.backlog, k.reader.seen, q.fanned, q.fanned);
            && r.att == Some(a) && r.port == k.port && Due(a, q) == (if a.backlog == [] then [] else [a.backlog])
            && (r.got == Due(a, q) || (r.got == [] && r.cut))
  {
  }

  lemma StartKeepsFlow(cfg: Config, c: ConnId, k: Conn, p: PortId, q: Port, r: Conn, observe: bool)
    requires PortFlow(cfg, q) && Flow(cfg, c, k, p, q) && k.reader.OpenHold? && k.reader.p == p
    requires !q.worker.FanLoop? && !q.worker.FanTry?
    requires var a := Att(p, k.reader.backlog, k.reader.seen, q.fanned, q.fanned);
             && r.att == Some(a) && Due(a, q) == (if a.backlog == [] then [] else [a.backlog])
             && (r.got == Due(a, q) || (r.got == [] && r.cut))
    ensures Flow(cfg, c, r.(reader := OpenCommit(p, !observe, q.logOpen)), p, Join(c, q, observe))
  {
  }

  lemma OpenFinishKeepsFlow(cfg: Config, c: ConnId, k: Conn, p: PortId, q: Port)
    requires PortOk(cfg, q) && PortFlow(cfg, q) && Linked(cfg, c, k, p, q) && Flow(cfg, c, k, p, q)
    requires k.reader.OpenHold? && k.reader.p == p
    ensures Flow(cfg, c, OpenQueued(k, p, q).(reader := OpenCommit(p, !k.reader.req.observe, q.logOpen)), p,
                 Join(c, q, k.reader.req.observe))
  {
    OpenQueuedStarts(cfg, k, p, q);
    StartKeepsFlow(cfg, c, k, p, q, OpenQueued(k, p, q), k.reader.req.observe);
  }

  /** One more chunk offered is one more frame due. */
  lemma DueGrows(cfg: Config, a: Att, q: Port)
    requires AttOk(cfg, a, q) && a.upto < |q.ringed|
    ensures AttOk(cfg, a.(upto := a.upto + 1), q)
    ensures Due(a.(upto := a.upto + 1), q) == Due(a, q) + [q.ringed[a.upto]]
  {
    assert q.ringed[a.first..a.upto + 1] == q.ringed[a.first..a.upto] + [q.ringed[a.upto]];
  }

  /** What one offer of the next chunk makes of the client: queued, or cut. */
  predicate TookChunk(k: Conn, k': Conn, chunk: bytes) {
    && k.att.Some? && k'.reader == k.reader && k'.port == k.port
    && k'.att == Some(k.att.value.(upto := k.att.value.upto + 1))
    && ((!k.cut && !k'.cut && k'.got == k.got + [chunk]) || (k'.cut && k'.got == k.got))
  }

  lemma FanPushTakes(k: Conn, q: Port)
    requires k.att.Some? && q.worker.FanTry? && !k.cut
    ensures var r := FanPushed(k, q);
            && TookChunk(k, r.k, q.worker.chunk)
            && r.q == q.(worker := FanLoop(q.worker.chunk, q.worker.err, q.worker.todo))
  {
  }

  /** After a chunk was taken or refused, the client is where it should be. */
  lemma TookKeepsFlow(cfg: Config, c: ConnId, k: Conn, k': Conn, p: PortId, q: Port, q': Port)
    requires PortFlow(cfg, q) && Flow(cfg, c, k, p, q)
    requires Holds(k, p) && !(k.reader.OpenHold? && k.reader.p == p)
    requires q.fanned < |q.ringed| && OfferedTo(c, q) == q.fanned && TookChunk(k, k', q.ringed[q.fanned])
    requires q' == q.(worker := q'.worker) && q'.worker.FanLoop? && OfferedTo(c, q') == q.fanned + 1
    ensures Flow(cfg, c, k', p, q')
  {
    hide Last, Flat, PortFlow, OfferedTo, Snapshot;
    DueGrows(cfg, k.att.value, q);
    GrowthKeepsAtt(cfg, k'.att.value, q, q');
  }

  lemma FanCheckKeepsFlow(cfg: Config, c: ConnId, k: Conn, p: PortId, q: Port)
    requires PortFlow(cfg, q) && Flow(cfg, c, k, p, q)
    requires Holds(k, p) && !(k.reader.OpenHold? && k.reader.p == p) && (k.cut ==> k.done)
    requires q.worker.FanLoop? && c in q.worker.todo
    ensures var r := FanChecked(k, q, c); Flow(cfg, c, r.k, p, r.q)
  {
    assert OfferedTo(c, FanChecked(k, q, c).q) == q.fanned + if k.done then 1 else 0;
    if k.done { TookKeepsFlow(cfg, c, k, FanChecked(k, q, c).k, p, q, FanChecked(k, q, c).q); }
  }

  lemma FanPushKeepsFlow(cfg: Config, c: ConnId, k: Conn, p: PortId, q: Port)
    requires PortFlow(cfg, q) && Flow(cfg, c, k, p, q)
    requires Holds(k, p) && !(k.reader.OpenHold? && k.reader.p == p)
    requires q.worker.FanTry? && c == q.worker.c && c !in q.worker.todo
    ensures var r := FanPushed(k, q); Flow(cfg, c, r.k, p, r.q)
  {
    hide FanPushed, TookChunk, Last, Flat, Due, Snapshot, AttOk;
    FanPushTakes(k, q);
    TookKeepsFlow(cfg, c, k, FanPushed(k, q).k, p, q, FanPushed(k, q).q);
  }

  lemma PairStepKeepsPortFlow(cfg: Config, m: Mgr, c: ConnId, k: Conn, p: PortId, q: Port, e: PairEv)
    requires PortFlow(cfg, q) && PairCan(m, c, k, p, q, e)
    requires q.running <==> !q.worker.Absent?
    ensures PortFlow(cfg, PairDo(cfg, m, c, k, p, q, e).q)
  {
  }

  /** Steps that concern neither the fan-out nor the opening of a port. */
  predicate Quiet(e: PairEv) {
    e.DetachStep? || e.EnsureByOpen? || IsInput(e) || IsNote(e)
  }

  /** Such a step moves the reader on, and the worker only by starting it. */
  predicate QuietlyMoved(k: Conn, k': Conn, q: Port, q': Port) {
    && k' == k.(reader := k'.reader)
    && !k'.reader.OpenHold? && !k'.reader.DetachPort? && !k'.reader.OpenCommit?
    && q'.ringed == q.ringed && q'.fanned == q.fanned && q'.ring == q.ring
    && (q'.worker == q.worker || (q.worker.Absent? && q'.worker.Top?))
  }

  lemma DetachOrEnsureIsQuiet(cfg: Config, m: Mgr, c: ConnId, k: Conn, p: PortId, q: Port, e: PairEv)
    requires PairCan(m, c, k, p, q, e) && (e.DetachStep? || e.EnsureByOpen?)
    requires q.running <==> !q.worker.Absent?
    ensures var r := PairDo(cfg, m, c, k, p, q, e); QuietlyMoved(k, r.k, q, r.q)
  {
  }

  lemma QuietStep(cfg: Config, m: Mgr, c: ConnId, k: Conn, p: PortId, q: Port, e: PairEv)
    requires PairCan(m, c, k, p, q, e) && Quiet(e)
    requires q.running <==> !q.worker.Absent?
    ensures var r := PairDo(cfg, m, c, k, p, q, e); QuietlyMoved(k, r.k, q, r.q)
  {
    if IsInput(e) {
      hide PairDo, PairCan;
      InputStepFrame(cfg, m, c, k, p, q, e);
    } else if IsNote(e) {
      hide PairDo, PairCan;
      NoteStepFrame(cfg, m, c, k, p, q, e);
    } else {
      DetachOrEnsureIsQuiet(cfg, m, c, k, p, q, e);
    }
  }

  lemma ConnFlowFrame(k: Conn, k': Conn)
    requires ConnFlow(k) && k' == k.(reader := k'.reader, att := k'.att)
    ensures ConnFlow(k')
  {
  }

  lemma FanCheckKeepsConnFlow(k: Conn, q: Port, c: ConnId)
    requires ConnFlow(k) && q.worker.FanLoop?
    ensures ConnFlow(FanChecked(k, q, c).k)
  {
  }

  lemma PairStepKeepsConnFlow(cfg: Config, m: Mgr, c: ConnId, k: Conn, p: PortId, q: Port, e: PairEv)
    requires ConnFlow(k) && PairCan(m, c, k, p, q, e) && Flow(cfg, c, k, p, q)
    requires q.running <==> !q.worker.Absent?
    ensures ConnFlow(PairDo(cfg, m, c, k, p, q, e).k)
  {
    hide ConnFlow, Observers, Refused, TryEnqueue;
    if Quiet(e) {
      hide PairDo, PairCan;
      QuietStep(cfg, m, c, k, p, q, e);
      ConnFlowFrame(k, PairDo(cfg, m, c, k, p, q, e).k);
    } else if e.OpenLock? {
      ConnFlowFrame(k, PairDo(cfg, m, c, k, p, q, e).k);
    } else if e.OpenFinish? {
      OpenQueuedKeepsConnFlow(k, p, q);
      ConnFlowFrame(OpenQueued(k, p, q), PairDo(cfg, m, c, k, p, q, e).k);
    } else if e.FanPush? {
      TryEnqueueKeepsConnFlow(k, q.worker.chunk);
      ConnFlowFrame(TryEnqueue(k, q.worker.chunk), PairDo(cfg, m, c, k, p, q, e).k);
    } else {
      FanCheckKeepsConnFlow(k, q, c);
    }
  }

  lemma QuietStepKeepsFlow(cfg: Config, m: Mgr, c: ConnId, k: Conn, p: PortId, q: Port, e: PairEv, p2: PortId,
                           q2: Port, q2': Port)
    requires PairCan(m, c, k, p, q, e) && Quiet(e) && ConnOk(k)
    requires q.running <==> !q.worker.Absent?
    requires Flow(cfg, c, k, p2, q2)
    requires q2' == q2 || (q2 == q && q2' == PairDo(cfg, m, c, k, p, q, e).q)
    ensures Flow(cfg, c, PairDo(cfg, m, c, k, p, q, e).k, p2, q2')
  {
    QuietStep(cfg, m, c, k, p, q, e);
    var k' := PairDo(cfg, m, c, k, p, q, e).k;
    assert k.port.Some? ==> !k.reader.DetachPort? && !k.reader.OpenCommit?;
    FlowFrame(cfg, c, k, k', p2, q2, q2');
  }

  lemma PairStepKeepsFlow(cfg: Config, m: Mgr, c: ConnId, k: Conn, p: PortId, q: Port, e: PairEv)
    requires ConnOk(k) && PortOk(cfg, q) && PortFlow(cfg, q) && ConnFlow(k)
    requires Linked(cfg, c, k, p, q) && Flow(cfg, c, k, p, q) && PairCan(m, c, k, p, q, e)
    requires q.running <==> !q.worker.Absent?
    ensures var r := PairDo(cfg, m, c, k, p, q, e); Flow(cfg, c, r.k, p, r.q)
  {
    var r := PairDo(cfg, m, c, k, p, q, e);
    if Quiet(e) {
      QuietStepKeepsFlow(cfg, m, c, k, p, q, e, p, q, r.q);
    } else if e.OpenLock? {
      OpenCheckKeepsFlow(cfg, c, k, p, q);
    } else if e.OpenFinish? {
      OpenFinishKeepsFlow(cfg, c, k, p, q);
    } else {
      assert Holds(k, p) && !(k.reader.OpenHold? && k.reader.p == p);
      if e.FanCheck? {
        FanCheckKeepsFlow(cfg, c, k, p, q);
      } else {
        FanPushKeepsFlow(cfg, c, k, p, q);
      }
    }
  }

  /** An attachment elsewhere says nothing about port p2. */
  lemma FlowElsewhere(cfg: Config, c: ConnId, k: Conn, k': Conn, p2: PortId, q2: Port)
    requires Flow(cfg, c, k, p2, q2) && k'.att.Some? && k'.att.value.port != p2
    requires !Holds(k', p2) && !k'.reader.OpenHold?
    requires !(q2.worker.FanTry? && q2.worker.c == c)
    ensures Flow(cfg, c, k', p2, q2)
  {
  }

  lemma FlowFrameOpening(cfg: Config, c: ConnId, k: Conn, k': Conn, p: PortId, p2: PortId, q2: Port)
    requires Flow(cfg, c, k, p2, q2) && p2 != p && ConnOk(k) && Unattached(k.reader)
    requires k' == k.(reader := k'.reader) && (k'.reader.Sending? || (k'.reader.OpenHold? && k'.reader.p == p))
    ensures Flow(cfg, c, k', p2, q2)
  {
  }

  lemma FanStepElsewhere(cfg: Config, m: Mgr, c: ConnId, k: Conn, p: PortId, q: Port, e: PairEv, p2: PortId, q2: Port)
    requires (e.FanCheck? || e.FanPush?) && PairCan(m, c, k, p, q, e) && Holds(k, p) && Flow(cfg, c, k, p, q)
    requires p2 != p && PortOk(cfg, q2) && Linked(cfg, c, k, p2, q2) && Flow(cfg, c, k, p2, q2)
    requires !k.reader.OpenHold?
    ensures Flow(cfg, c, PairDo(cfg, m, c, k, p, q, e).k, p2, q2)
  {
    FanStepKeepsReader(cfg, m, c, k, p, q, e);
    FlowElsewhere(cfg, c, k, PairDo(cfg, m, c, k, p, q, e).k, p2, q2);
  }

  lemma PairStepKeepsOtherPortFlow(cfg: Config, m: Mgr, c: ConnId, k: Conn, p: PortId, q: Port, e: PairEv, p2: PortId,
                                   q2: Port)
    requires ConnOk(k) && PortOk(cfg, q) && Linked(cfg, c, k, p, q) && Flow(cfg, c, k, p, q)
    requires PairCan(m, c, k, p, q, e)
    requires q.running <==> !q.worker.Absent?
    requires p2 != p && PortOk(cfg, q2) && Linked(cfg, c, k, p2, q2) && Flow(cfg, c, k, p2, q2)
    ensures Flow(cfg, c, PairDo(cfg, m, c, k, p, q, e).k, p2, q2)
  {
    var k' := PairDo(cfg, m, c, k, p, q, e).k;
    if Quiet(e) {
      QuietStepKeepsFlow(cfg, m, c, k, p, q, e, p2, q2, q2);
    } else if e.OpenLock? {
      FlowFrameOpening(cfg, c, k, k', p, p2, q2);
    } else if e.OpenFinish? {
      FlowElsewhere(cfg, c, k, k', p2, q2);
    } else {
      FanStepElsewhere(cfg, m, c, k, p, q, e, p2, q2);
    }
  }

  lemma PairStepKeepsOffers(cfg: Config, m: Mgr, c: ConnId, k: Conn, p: PortId, q: Port, e: PairEv, c2: ConnId)
    requires PairCan(m, c, k, p, q, e) && c2 != c
    requires q.running <==> !q.worker.Absent?
    ensures var q' := PairDo(cfg, m, c, k, p, q, e).q;
            && q'.ringed == q.ringed && q'.fanned == q.fanned && OfferedTo(c2, q') == OfferedTo(c2, q)
            && (q'.worker.FanTry? && q'.worker.c == c2 ==> q'.worker == q.worker)
  {
    if Quiet(e) { QuietStep(cfg, m, c, k, p, q, e); }
  }

  lemma PairStepKeepsOtherConnFlow(cfg: Config, m: Mgr, c: ConnId, k: Conn, p: PortId, q: Port, e: PairEv, c2: ConnId,
                                   k2: Conn)
    requires PairCan(m, c, k, p, q, e)
    requires q.running <==> !q.worker.Absent?
    requires c2 != c && Flow(cfg, c2, k2, p, q)
    ensures Flow(cfg, c2, k2, p, PairDo(cfg, m, c, k, p, q, e).q)
  {
    hide Flow, PairDo, PairCan, OfferedTo;
    PairStepKeepsOffers(cfg, m, c, k, p, q, e, c2);
    FlowFrame(cfg, c2, k2, k2, p, q, PairDo(cfg, m, c, k, p, q, e).q);
  }
}
