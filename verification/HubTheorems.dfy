/** What the hub guarantees, over every schedule. */
module HubTheorems {
  import opened Prelude
  import opened Ring
  import opened HubModel
  import opened HubAttach
  import opened HubDelivery
  import opened HubLifecycle
  import opened HubAccounting
  import opened HubInvariant

  // ------------------------------------------------------------- attachments

  /** A connection that believes it may write to a port owns it, so two never do. */
  lemma ExclusiveWriter(cfg: Config, es: seq<Event>, c: ConnId, p: PortId)
    requires IsRun(cfg, INIT, es)
    requires var s := Reached(cfg, es); c in s.conns && s.conns[c].port == Some(p) && s.conns[c].writable
    ensures var s := Reached(cfg, es);
            && p in s.ports && s.ports[p].owner == Some(c) && c in s.ports[p].conns
            && (forall d | d in s.conns && s.conns[d].port == Some(p) && s.conns[d].writable :: d == c)
  {
    ReachedInv(cfg, es);
    var s := Reached(cfg, es);
    assert ConnGood(s.conns[c], s.ports.Keys);
    forall d | d in s.conns && s.conns[d].port == Some(p) && s.conns[d].writable ensures s.ports[p].owner == Some(d) {
      assert ConnGood(s.conns[d], s.ports.Keys) && PairGood(cfg, d, s.conns[d], p, s.ports[p]);
    }
    assert PairGood(cfg, c, s.conns[c], p, s.ports[p]);
  }

  /** A connection that owns the port and believes so hands it part of its own input. */
  predicate OwnerWrites(s: State, e: Event, p: PortId, q: Port, q': Port) {
    && e.OnPair? && e.p == p && e.e.DeviceTook? && e.c in s.conns
    && var k := s.conns[e.c];
       && q.owner == Some(e.c) && k.port == Some(p) && k.writable
       && k.reader.InputDevice? && e.e.n <= |k.reader.data|
       && q'.handed == q.handed + [(e.c, k.reader.data[..e.e.n])]
  }

  /** What one step may do to a port's owner, its line rate and its device. */
  predicate PortMoved(s: State, e: Event, p: PortId, q: Port, q': Port) {
    && (q'.owner == q.owner || q.owner.None? || q'.owner.None?)
    && (q'.baud == q.baud || q.conns == {})
    && (q'.handed == q.handed || OwnerWrites(s, e, p, q, q'))
  }

  lemma PairStepMoves(cfg: Config, s: State, c: ConnId, k: Conn, p: PortId, q: Port, e: PairEv)
    requires ConnOk(k) && Linked(cfg, c, k, p, q) && PairCan(s.m, c, k, p, q, e) && c in s.conns && s.conns[c] == k
    ensures PortMoved(s, OnPair(c, p, e), p, q, PairDo(cfg, s.m, c, k, p, q, e).q)
  {
  }

  lemma PairIsLinked(cfg: Config, s: State, c: ConnId, p: PortId)
    requires Inv(cfg, s) && c in s.conns && p in s.ports
    ensures ConnOk(s.conns[c]) && Linked(cfg, c, s.conns[c], p, s.ports[p])
  {
    hide ConnOk, ConnFlow, Known, Linked, Flow, PortGood, Managed, Balanced;
    assert ConnGood(s.conns[c], s.ports.Keys) && PairGood(cfg, c, s.conns[c], p, s.ports[p]);
  }

  lemma SameMoves(s: State, e: Event, p: PortId, q: Port)
    ensures PortMoved(s, e, p, q, q)
  {
  }

  lemma PortStepMoves(cfg: Config, s: State, p: PortId, q: Port, e: PortEv)
    requires PortCan(s.m, p, q, e)
    ensures PortMoved(s, OnPort(p, e), p, q, PortDo(cfg, s.m, p, q, e).q)
  {
    hide PortDo, PortCan, OwnerWrites;
    PortStepFrame(cfg, s.m, p, q, e);
  }

  lemma StepMoves(cfg: Config, es: seq<Event>, e: Event, p: PortId)
    requires IsRun(cfg, INIT, es) && Can(Reached(cfg, es), e) && p in Reached(cfg, es).ports
    ensures var s := Reached(cfg, es);
            p in Do(cfg, s, e).ports && PortMoved(s, e, p, s.ports[p], Do(cfg, s, e).ports[p])
  {
    hide Inv, PortMoved, ConnDo, PortDo, PairDo, PortCan, PairCan, ConnCan, IsRun, StateAfter;
    ReachedInv(cfg, es);
    var s := Reached(cfg, es);
    match e
    case OnPair(c, p2, pe) =>
      if p2 == p {
        PairIsLinked(cfg, s, c, p);
        PairStepMoves(cfg, s, c, s.conns[c], p, s.ports[p], pe);
      } else {
        SameMoves(s, e, p, s.ports[p]);
      }
    case OnPort(p2, pe) =>
      if p2 == p { PortStepMoves(cfg, s, p, s.ports[p], pe); } else { SameMoves(s, e, p, s.ports[p]); }
    case _ => SameMoves(s, e, p, s.ports[p]);
  }

  /** Every byte a device takes is handed to it by the connection that owns it then. */
  lemma DeviceBytesComeFromTheOwner(cfg: Config, es: seq<Event>, e: Event, p: PortId)
    requires IsRun(cfg, INIT, es) && Can(Reached(cfg, es), e) && p in Reached(cfg, es).ports
    ensures var s := Reached(cfg, es); var s' := Do(cfg, s, e);
            && p in s'.ports
            && (s'.ports[p].handed == s.ports[p].handed || OwnerWrites(s, e, p, s.ports[p], s'.ports[p]))
  {
    hide Do, Can, IsRun, OwnerWrites;
    StepMoves(cfg, es, e, p);
  }

  /** Tenures do not overlap: a port changes hands only through having no owner. */
  lemma TenuresDoNotOverlap(cfg: Config, es: seq<Event>, e: Event, p: PortId)
    requires IsRun(cfg, INIT, es) && Can(Reached(cfg, es), e) && p in Reached(cfg, es).ports
    ensures var s := Reached(cfg, es); var s' := Do(cfg, s, e);
            && p in s'.ports
            && var before, now := s.ports[p].owner, s'.ports[p].owner; (now == before || before.None? || now.None?)
  {
    hide Do, Can, IsRun, OwnerWrites;
    StepMoves(cfg, es, e, p);
  }

  /** The attachment set of a port, whatever opens, reopens, detaches and kills overlap. */
  lemma AttachmentSet(cfg: Config, es: seq<Event>, p: PortId)
    requires IsRun(cfg, INIT, es) && p in Reached(cfg, es).ports
    ensures var s := Reached(cfg, es); var q := s.ports[p];
            && (q.owner.Some? ==> q.owner.value in q.conns)
            && (cfg.maxObservers > 0 ==> Observers(q.conns, q.owner) <= cfg.maxObservers)
            && (!cfg.allowObserve ==> Observers(q.conns, q.owner) == 0)
            && q.conns <= s.conns.Keys
            && (forall p2 | p2 in s.ports && p2 != p :: s.ports[p2].conns !! q.conns)
  {
    ReachedInv(cfg, es);
    var s := Reached(cfg, es);
    var q := s.ports[p];
    assert PortGood(cfg, s.m, p, q, s.conns.Keys);
    forall p2 | p2 in s.ports && p2 != p ensures s.ports[p2].conns !! q.conns {
      forall c | c in q.conns ensures c !in s.ports[p2].conns {
        assert PairGood(cfg, c, s.conns[c], p, q) && PairGood(cfg, c, s.conns[c], p2, s.ports[p2]);
      }
    }
  }

  /** The line rate is settled by the first attachment. */
  lemma BaudIsFrozenWhileAttached(cfg: Config, es: seq<Event>, e: Event, p: PortId)
    requires IsRun(cfg, INIT, es) && Can(Reached(cfg, es), e) && p in Reached(cfg, es).ports
    requires Reached(cfg, es).ports[p].conns != {}
    ensures var s := Reached(cfg, es); var s' := Do(cfg, s, e);
            p in s'.ports && s'.ports[p].baud == s.ports[p].baud
  {
    hide Do, Can, IsRun, OwnerWrites;
    StepMoves(cfg, es, e, p);
  }

  // ---------------------------------------------------------------- accounting

  function ConnBetween(k: Conn): (n: int) { BetweenCounters(k) }

  lemma {:induction false} TotalAdds(conns: map<ConnId, Conn>)
    ensures Total(conns, ConnCounted) == Total(conns, ConnWritten) + Total(conns, ConnBetween)
    decreases |conns|
  {
    if conns != map[] {
      var c :| c in conns;
      TotalSplit(conns, ConnCounted, c);
      TotalSplit(conns, ConnWritten, c);
      TotalSplit(conns, ConnBetween, c);
      TotalAdds(conns - {c});
    }
  }

  /** Bytes the ports have counted and the connections have not are exactly the
      writes between their two counter updates. */
  lemma CountersDifferByWritesInTransit(cfg: Config, es: seq<Event>)
    requires IsRun(cfg, INIT, es)
    ensures var s := Reached(cfg, es);
            Total(s.ports, PortWritten) - Total(s.conns, ConnWritten) == Total(s.conns, ConnBetween)
  {
    ReachedInv(cfg, es);
    TotalAdds(Reached(cfg, es).conns);
  }

  /** And the devices' own tally is ahead by the writes nobody has counted yet. */
  lemma DevicesCountFirst(cfg: Config, es: seq<Event>)
    requires IsRun(cfg, INIT, es)
    ensures var s := Reached(cfg, es); Total(s.ports, PortHanded) == Total(s.conns, ConnHanded)
  {
    ReachedInv(cfg, es);
  }

  // ------------------------------------------------------------------ delivery

  lemma {:induction false} FlatSlice(chunks: seq<bytes>, i: nat, j: nat)
    requires i <= j <= |chunks|
    ensures |Flat(chunks[..i])| <= |Flat(chunks[..j])| <= |Flat(chunks)|
    ensures Flat(chunks[i..j]) == Flat(chunks)[|Flat(chunks[..i])|..|Flat(chunks[..j])|]
    ensures Flat(chunks[..j]) == Flat(chunks)[..|Flat(chunks[..j])|]
  {
    assert chunks[..j] == chunks[..i] + chunks[i..j] && chunks == chunks[..j] + chunks[j..];
    FlatConcat(chunks[..i], chunks[i..j]);
    FlatConcat(chunks[..j], chunks[j..]);
  }

  lemma FlatPrefix(a: seq<bytes>, b: seq<bytes>)
    requires a <= b
    ensures Flat(a) <= Flat(b)
  {
    assert b == a + b[|a|..];
    FlatConcat(a, b[|a|..]);
  }

  /** Where chunk i starts in the device's output. */
  function Offset(q: Port, i: nat): (n: nat)
    requires i <= |q.ringed|
  {
    |Flat(q.ringed[..i])|
  }

  /** Backlog, then live data: the last min(size, n) of the n bytes seen when the
      backlog was taken, followed by everything from `live` to `upto`. What was queued
      is that byte string, or a prefix of it once a frame was refused. */
  predicate DeliveredFrom(cfg: Config, k: Conn, history: bytes, seen: nat, live: nat, upto: nat) {
    && live <= seen <= |history| && live <= upto <= |history|
    && var due := Last(cfg.ringSize, history[..seen]) + history[live..upto];
       Flat(k.got) <= due && (!k.cut ==> Flat(k.got) == due)
  }

  /** The chunk that is in an attachment's backlog and in its live data, if any: number
      `first`, when the backlog was taken one chunk ahead of the fan-out. */
  function Overlap(a: Att, q: Port): (chunk: bytes)
    requires a.first <= a.seen <= a.first + 1 && a.seen <= |q.ringed|
  {
    if a.seen == a.first then [] else q.ringed[a.first]
  }

  lemma SeenIsAhead(a: Att, q: Port)
    requires a.first <= a.seen <= a.first + 1 && a.seen <= |q.ringed|
    ensures Offset(q, a.seen) == Offset(q, a.first) + |Overlap(a, q)|
  {
    if a.seen != a.first {
      assert q.ringed[..a.seen] == q.ringed[..a.first] + [q.ringed[a.first]];
      FlatAppend(q.ringed[..a.first], q.ringed[a.first]);
    }
  }

  lemma DueIsBytes(a: Att, q: Port)
    requires a.first <= a.upto <= |q.ringed|
    ensures Flat(Due(a, q)) == a.backlog + Flat(q.ringed[a.first..a.upto])
  {
    var head := if a.backlog == [] then [] else [a.backlog];
    FlatConcat(head, q.ringed[a.first..a.upto]);
    if head != [] {
      FlatAppend<byte>([], a.backlog);
      assert [] + [a.backlog] == head && [] + a.backlog == a.backlog;
    }
  }

  lemma AttIsBytes(cfg: Config, k: Conn, a: Att, q: Port)
    requires AttOk(cfg, a, q) && k.got <= Due(a, q) && (!k.cut ==> k.got == Due(a, q))
    ensures Offset(q, a.seen) == Offset(q, a.first) + |Overlap(a, q)|
    ensures DeliveredFrom(cfg, k, Flat(q.ringed), Offset(q, a.seen), Offset(q, a.first), Offset(q, a.upto))
  {
    hide Last, Flat;
    FlatSlice(q.ringed, 0, a.seen);
    FlatSlice(q.ringed, a.first, a.upto);
    FlatSlice(q.ringed, a.first, a.seen);
    SeenIsAhead(a, q);
    DueIsBytes(a, q);
    FlatPrefix(k.got, Due(a, q));
  }

  lemma NoGapBetweenBacklogAndLiveData(cfg: Config, es: seq<Event>, c: ConnId, p: PortId)
    requires IsRun(cfg, INIT, es)
    requires var s := Reached(cfg, es); c in s.conns && s.conns[c].att.Some? && s.conns[c].att.value.port == p
    ensures var s := Reached(cfg, es); var a := s.conns[c].att.value;
            && p in s.ports
            && var q := s.ports[p];
               && a.first <= a.seen <= a.first + 1 && a.seen <= |q.ringed| && a.first <= a.upto <= |q.ringed|
               && Offset(q, a.seen) == Offset(q, a.first) + |Overlap(a, q)|
               && DeliveredFrom(cfg, s.conns[c], Flat(q.ringed),
                                Offset(q, a.seen), Offset(q, a.first), Offset(q, a.upto))
  {
    hide PortGood, ConnOk, ConnFlow, Linked, Managed, Balanced, Last;
    ReachedInv(cfg, es);
    var s := Reached(cfg, es);
    var k := s.conns[c];
    assert ConnGood(k, s.ports.Keys) && PairGood(cfg, c, k, p, s.ports[p]);
    AttIsBytes(cfg, k, k.att.value, s.ports[p]);
  }

  /** While it is attached and not cut, a client has been offered all that was fanned out. */
  lemma AttachedClientIsUpToDate(cfg: Config, es: seq<Event>, c: ConnId, p: PortId)
    requires IsRun(cfg, INIT, es)
    requires var s := Reached(cfg, es); p in s.ports && c in s.ports[p].conns
    ensures var s := Reached(cfg, es);
            && c in s.conns && s.conns[c].att.Some? && s.conns[c].att.value.port == p
            && s.ports[p].fanned <= s.conns[c].att.value.upto <= |s.ports[p].ringed| <= s.ports[p].fanned + 1
  {
    ReachedInv(cfg, es);
    var s := Reached(cfg, es);
    assert PortGood(cfg, s.m, p, s.ports[p], s.conns.Keys);
    assert PairGood(cfg, c, s.conns[c], p, s.ports[p]);
  }

  /** The queue is bounded, and what was written is a prefix of what was queued. */
  lemma SlowClientSeesNoHole(cfg: Config, es: seq<Event>, c: ConnId)
    requires IsRun(cfg, INIT, es) && c in Reached(cfg, es).conns
    ensures var k := Reached(cfg, es).conns[c];
            && |k.queue| <= QUEUE_DEPTH
            && k.sent <= k.enq && DataOf(k.sent) <= k.past + k.got == DataOf(k.enq)
            && (k.cut ==> k.done)
  {
    ReachedInv(cfg, es);
    var s := Reached(cfg, es);
    assert ConnGood(s.conns[c], s.ports.Keys);
    DataOfPrefix(s.conns[c].sent, s.conns[c].enq);
  }

  lemma ConnStepAfterRefusal(k: Conn, e: ConnEv)
    requires ConnCan(k, e) && k.cut
    ensures ConnDo(k, e).cut && DataOf(ConnDo(k, e).enq) == DataOf(k.enq)
  {
    if e.SendPush? || e.Notice? {
      DataOfAppend(k.enq, Ctrl);
    } else {
      hide ConnDo, ConnCan, DataOf;
      ConnStepQueuesNothing(k, e);
      ConnStepKeepsHistory(k, e);
    }
  }

  lemma RunsIffStarted(cfg: Config, s: State, p: PortId)
    requires Inv(cfg, s) && p in s.ports
    ensures s.ports[p].running <==> !s.ports[p].worker.Absent?
  {
    hide PortOk, PortFlow, Placed, Alternates, Noted, ConnGood, PairGood, Managed, Balanced;
    assert PortGood(cfg, s.m, p, s.ports[p], s.conns.Keys);
  }

  lemma EnqueueAfterRefusal(cfg: Config, m: Mgr, c: ConnId, k: Conn, p: PortId, q: Port, e: PairEv)
    requires PairCan(m, c, k, p, q, e) && Flow(cfg, c, k, p, q) && k.cut && !Quiet(e)
    ensures var k' := PairDo(cfg, m, c, k, p, q, e).k; k'.cut && k'.enq == k.enq
  {
    hide Refused, Observers, AttOk, Due;
  }

  lemma PairStepAfterRefusal(cfg: Config, m: Mgr, c: ConnId, k: Conn, p: PortId, q: Port, e: PairEv)
    requires PairCan(m, c, k, p, q, e) && PairGood(cfg, c, k, p, q) && k.cut
    requires q.running <==> !q.worker.Absent?
    ensures var k' := PairDo(cfg, m, c, k, p, q, e).k; k'.cut && k'.enq == k.enq
  {
    hide Linked;
    if Quiet(e) {
      hide PairDo, PairCan, Flow;
      QuietStep(cfg, m, c, k, p, q, e);
    } else {
      EnqueueAfterRefusal(cfg, m, c, k, p, q, e);
    }
  }

  lemma StepAfterRefusal(cfg: Config, s: State, e: Event, c: ConnId)
    requires Inv(cfg, s) && Can(s, e) && c in s.conns && s.conns[c].cut
    ensures var s' := Do(cfg, s, e);
            c in s'.conns && s'.conns[c].cut && DataOf(s'.conns[c].enq) == DataOf(s.conns[c].enq)
  {
    hide ConnGood, PortGood, PairGood, ConnDo, PortDo, PairDo, ConnCan, PortCan, PairCan, DataOf;
    match e
    case OnConn(d, ce) =>
      if d == c { ConnStepAfterRefusal(s.conns[c], ce); }
    case OnPair(d, p, pe) =>
      if d == c {
        assert PairGood(cfg, c, s.conns[c], p, s.ports[p]);
        RunsIffStarted(cfg, s, p);
        PairStepAfterRefusal(cfg, s.m, c, s.conns[c], p, s.ports[p], pe);
      }
    case _ =>
  }

  /** Once a frame was refused, no data frame is queued for that client again. */
  lemma {:induction false} RefusalIsFinal(cfg: Config, s: State, es: seq<Event>, c: ConnId)
    requires Inv(cfg, s) && IsRun(cfg, s, es) && c in s.conns && s.conns[c].cut
    ensures var s' := StateAfter(cfg, s, es);
            c in s'.conns && s'.conns[c].cut && DataOf(s'.conns[c].enq) == DataOf(s.conns[c].enq)
    decreases |es|
  {
    if es != [] {
      var front := es[..|es| - 1];
      RefusalIsFinal(cfg, s, front, c);
      RunKeepsInv(cfg, s, front);
      StepAfterRefusal(cfg, StateAfter(cfg, s, front), es[|es| - 1], c);
    }
  }

  // ------------------------------------------------------- workers and shutdown

  /** At most one worker was ever started for a port; its audit trail alternates,
      starting online; and until Close, an online port has its device. */
  lemma PortLifecycle(cfg: Config, es: seq<Event>, p: PortId)
    requires IsRun(cfg, INIT, es) && p in Reached(cfg, es).ports
    ensures var s := Reached(cfg, es); var q := s.ports[p];
            && q.spawned <= 1 && (Alive(q) ==> q.spawned == 1)
            && (forall i | 0 <= i < |q.audit| :: q.audit[i] <==> i % 2 == 0)
            && (!s.m.closed && q.online ==> q.sp.Some?)
            && q.stopNotes <= 1 && (q.stopNotes == 1 ==> q.hadLog && !q.logOpen)
  {
    ReachedInv(cfg, es);
    var s := Reached(cfg, es);
    assert PortGood(cfg, s.m, p, s.ports[p], s.conns.Keys);
  }

  /** When Close has returned, every worker is gone, every port has let go of its log, and
      "capture stopped" was written once to each log there was. What can follow that
      line is in HubLastLine. */
  lemma CloseLeavesNothingRunning(cfg: Config, es: seq<Event>, p: PortId)
    requires IsRun(cfg, INIT, es) && p in Reached(cfg, es).ports
    requires Reached(cfg, es).m.closer.Closed?
    ensures var q := Reached(cfg, es).ports[p];
            !Alive(q) && !q.logOpen && q.stopNotes == if q.hadLog then 1 else 0
  {
    hide ConnGood, PairGood, PortOk, PortFlow, Audited, Balanced, Total, IsRun, StateAfter;
    ReachedInv(cfg, es);
    var s := Reached(cfg, es);
    assert PortGood(cfg, s.m, p, s.ports[p], s.conns.Keys);
  }

  lemma PortStepStaysClosed(cfg: Config, m: Mgr, p: PortId, q: Port, e: PortEv)
    requires PortCan(m, p, q, e)
    ensures var m' := PortDo(cfg, m, p, q, e).m; m'.closed == m.closed && m'.lateAdds == m.lateAdds
  {
  }

  lemma PairStepStaysClosed(cfg: Config, m: Mgr, c: ConnId, k: Conn, p: PortId, q: Port, e: PairEv)
    requires PairCan(m, c, k, p, q, e)
    ensures var m' := PairDo(cfg, m, c, k, p, q, e).m; m'.closed == m.closed && m'.lateAdds == m.lateAdds
  {
  }

  lemma StepAfterClose(cfg: Config, s: State, e: Event)
    requires Can(s, e) && s.m.closed
    ensures var s' := Do(cfg, s, e); s'.m.closed && s'.ports.Keys == s.ports.Keys && s'.conns.Keys == s.conns.Keys
  {
    hide ConnDo;
    match e
    case OnPort(p, pe) => PortStepStaysClosed(cfg, s.m, p, s.ports[p], pe);
    case OnPair(c, p, pe) => PairStepStaysClosed(cfg, s.m, c, s.conns[c], p, s.ports[p], pe);
    case _ =>
  }

  /** From Close on, no port and no connection is registered any more. */
  lemma {:induction false} CloseFreezesThePortSet(cfg: Config, s: State, es: seq<Event>)
    requires IsRun(cfg, s, es) && s.m.closed
    ensures var s' := StateAfter(cfg, s, es);
            s'.m.closed && s'.ports.Keys == s.ports.Keys && s'.conns.Keys == s.conns.Keys
    decreases |es|
  {
    if es != [] {
      CloseFreezesThePortSet(cfg, s, es[..|es| - 1]);
      StepAfterClose(cfg, StateAfter(cfg, s, es[..|es| - 1]), es[|es| - 1]);
    }
  }

  /** Starts of the rescan goroutine that come after Close (hub.go:117 checks nothing). */
  function LateStarts(cfg: Config, es: seq<Event>): (n: nat)
    requires IsRun(cfg, INIT, es)
  {
    if es == [] then 0 else
      var front, e := es[..|es| - 1], es[|es| - 1];
      LateStarts(cfg, front) + if e == OnMgr(StartScan) && Reached(cfg, front).m.closed then 1 else 0
  }

  lemma AtMostOneLateAdd(cfg: Config, es: seq<Event>)
    requires IsRun(cfg, INIT, es)
    ensures Reached(cfg, es).m.lateAdds <= 1
  {
    hide Shape, Balanced, Total, IsRun, Do;
    ReachedInv(cfg, es);
  }

  /** A WaitGroup.Add follows Close exactly when Start does: ensureWorker never adds late. */
  lemma {:induction false} AddsAfterCloseAreLateStarts(cfg: Config, es: seq<Event>)
    requires IsRun(cfg, INIT, es)
    ensures Reached(cfg, es).m.lateAdds == LateStarts(cfg, es) <= 1
    decreases |es|
  {
    hide Inv, PortDo, PairDo, ConnDo, PortCan, PairCan, ConnCan;
    if es != [] {
      var front, e := es[..|es| - 1], es[|es| - 1];
      AddsAfterCloseAreLateStarts(cfg, front);
      var s := Reached(cfg, front);
      match e
      case OnPort(p, pe) => PortStepStaysClosed(cfg, s.m, p, s.ports[p], pe);
      case OnPair(c, p, pe) => PairStepStaysClosed(cfg, s.m, c, s.conns[c], p, s.ports[p], pe);
      case _ =>
    }
    AtMostOneLateAdd(cfg, es);
  }

  /** The run that shows it: Close, then Start. */
  lemma StartAfterCloseAddsLate(cfg: Config)
    ensures var es := [OnMgr(CloseBegin), OnMgr(StartScan)];
            IsRun(cfg, INIT, es) && Reached(cfg, es).m.lateAdds == 1
  {
    var es := [OnMgr(CloseBegin), OnMgr(StartScan)];
    var one := [OnMgr(CloseBegin)];
    assert one[..0] == [] && es[..1] == one;
    assert IsRun(cfg, INIT, []) && IsRun(cfg, INIT, one);
    assert StateAfter(cfg, INIT, one) == Do(cfg, INIT, OnMgr(CloseBegin));
  }

  predicate WorkerOf(e: Event, p: PortId) {
    || (e.OnPort? && e.p == p && !ByOthers(e.pe))
    || (e.OnPair? && e.p == p && (e.e.FanCheck? || e.e.FanPush?))
  }

  function WorkerSteps(es: seq<Event>, p: PortId): (n: nat) {
    if es == [] then 0 else WorkerSteps(es[..|es| - 1], p) + if WorkerOf(es[|es| - 1], p) then 1 else 0
  }

  lemma SubsetIsSmaller(a: set<ConnId>, b: set<ConnId>)
    requires a <= b
    ensures |a| <= |b|
  {
    if a != {} {
      var x :| x in a;
      SubsetIsSmaller(a - {x}, b - {x});
    }
  }

  lemma StepSpends(cfg: Config, s: State, e: Event, p: PortId, n: nat)
    requires Inv(cfg, s) && s.m.closed && Can(s, e) && p in s.ports && |s.conns.Keys| == n
    ensures p in Do(cfg, s, e).ports
    ensures var w, w' := s.ports[p].worker, Do(cfg, s, e).ports[p].worker;
            if WorkerOf(e, p) then StepsLeft(w', n) < StepsLeft(w, n) else w' == w
  {
    hide Linked, Flow, ConnGood, LifeOk, PortOk, PortFlow, PortDo, PairDo, PortCan, PairCan, ConnDo, StepsLeft;
    assert PortGood(cfg, s.m, p, s.ports[p], s.conns.Keys);
    SubsetIsSmaller(s.ports[p].conns, s.conns.Keys);
    match e
    case OnPort(p2, pe) => if p2 == p { PortStepSpends(cfg, s.m, p, s.ports[p], pe, n); }
    case OnPair(c, p2, pe) => if p2 == p { PairStepSpends(cfg, s.m, c, s.conns[c], p, s.ports[p], pe, n); }
    case _ =>
  }

  /** After Close a worker's own steps are numbered: at most 14 plus two per connection. */
  lemma {:induction false} WorkerDrains(cfg: Config, s: State, es: seq<Event>, p: PortId)
    requires Inv(cfg, s) && s.m.closed && IsRun(cfg, s, es) && p in s.ports
    ensures p in StateAfter(cfg, s, es).ports
    ensures WorkerSteps(es, p) + StepsLeft(StateAfter(cfg, s, es).ports[p].worker, |s.conns|)
            <= StepsLeft(s.ports[p].worker, |s.conns|)
    decreases |es|
  {
    if es != [] {
      var front, e := es[..|es| - 1], es[|es| - 1];
      var t := StateAfter(cfg, s, front);
      WorkerDrains(cfg, s, front, p);
      RunKeepsInv(cfg, s, front);
      CloseFreezesThePortSet(cfg, s, front);
      StepSpends(cfg, t, e, p, |s.conns|);
    }
  }

  function NextOf(w: Worker): (e: PortEv)
    requires !w.Absent? && !w.Gone? && !w.FanTry?
  {
    match w
    case Top => Look
    case Opening(_) => OpenFails
    case GoOnline(_, _) => Online
    case AuditOnline(_) => LogOnline
    case Reading => Got([], false)
    case RingStep(_, _) => RingWrite
    case FanLock(_, _) => FanBegin
    case FanLoop(_, _, _) => FanEnd
    case LogWrite(_, _, _) => LogChunk
    case AfterRead(_) => EndRead
    case GoOffline(_) => Offline
    case AuditOffline(_, _) => LogOffline
    case Sleeping => WakeTimer
    case CloseDevice => ClearDevice
    case AfterClear => LookAgain
    case Release => TakeLog
    case ReleaseNote(_) => NoteStopped
    case Finishing => Finish
  }

  lemma HolderCanFinish(cfg: Config, s: State, p: PortId)
    requires Inv(cfg, s) && p in s.ports && s.ports[p].lock.Some? && s.ports[p].lock.value.ByReader?
    ensures Can(s, OnPair(s.ports[p].lock.value.c, p, OpenFinish))
  {
    hide Flow, ConnGood, LifeOk, PortFlow, PortOk, Managed, Balanced, Observers, Holds, Writes;
    var q := s.ports[p];
    assert PortGood(cfg, s.m, p, q, s.conns.Keys);
    assert PairGood(cfg, q.lock.value.c, s.conns[q.lock.value.c], p, q);
  }

  lemma WorkerHasNext(cfg: Config, m: Mgr, p: PortId, q: Port)
    requires PortOk(cfg, q) && Alive(q) && !q.worker.FanTry?
    requires !(q.lock.Some? && q.lock.value.ByReader?)
    requires q.worker.FanLoop? ==> q.worker.todo == {}
    ensures PortCan(m, p, q, NextOf(q.worker)) && !ByOthers(NextOf(q.worker))
  {
  }

  /** A live worker can move as soon as no opening client holds the port, and that
      client can always let go. */
  lemma WorkerCanMove(cfg: Config, s: State, p: PortId) returns (e: Event)
    requires Inv(cfg, s) && p in s.ports && Alive(s.ports[p])
    ensures Can(s, e)
    ensures WorkerOf(e, p) || (exists c :: s.ports[p].lock == Some(ByReader(c)) && e == OnPair(c, p, OpenFinish))
  {
    hide PairGood, ConnGood, LifeOk, PortFlow, Do, Managed, Balanced, PortCan, NextOf, ByOthers, Observers;
    var q := s.ports[p];
    assert PortGood(cfg, s.m, p, q, s.conns.Keys);
    if q.lock.Some? && q.lock.value.ByReader? {
      HolderCanFinish(cfg, s, p);
      return OnPair(q.lock.value.c, p, OpenFinish);
    }
    if q.worker.FanTry? { return OnPair(q.worker.c, p, FanPush); }
    if q.worker.FanLoop? && q.worker.todo != {} {
      var c :| c in q.worker.todo;
      return OnPair(c, p, FanCheck);
    }
    WorkerHasNext(cfg, s.m, p, q);
    return OnPort(p, NextOf(q.worker));
  }

  lemma WorkerIsNeverStuck(cfg: Config, es: seq<Event>, p: PortId) returns (e: Event)
    requires IsRun(cfg, INIT, es) && p in Reached(cfg, es).ports && Alive(Reached(cfg, es).ports[p])
    ensures Can(Reached(cfg, es), e)
    ensures WorkerOf(e, p)
            || (exists c :: Reached(cfg, es).ports[p].lock == Some(ByReader(c)) && e == OnPair(c, p, OpenFinish))
  {
    hide Inv, Can;
    ReachedInv(cfg, es);
    e := WorkerCanMove(cfg, Reached(cfg, es), p);
  }
}
