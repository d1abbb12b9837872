/** The objects of the hub as the source has them: Port and Conn with fields that
    their methods update. Each method here is the code that runs under one lock,
    proved to be the corresponding step of the transition system. */
module HubObjects {
  import opened Prelude
  import R = Ring
  import opened HubModel
  import opened HubLifecycle

  // ----------------------------------------------------------------------- Conn

  /** What enqueue reads and writes of a connection. */
  datatype Outbox = Outbox(queue: seq<Msg>, done: bool)

  /** enqueue with nothing running in between: delivered, or dropped for good. */
  function Enqueued(b: Outbox, payload: bytes): (r: Outbox) {
    if b.done then b
    else if |b.queue| < QUEUE_DEPTH then b.(queue := b.queue + [Data(payload)])
    else b.(done := true)
  }

  function BoxOf(k: Conn): (b: Outbox) { Outbox(k.queue, k.done) }

  /** The two steps of one enqueue in the fan-out, undisturbed, are Enqueued. */
  lemma FanStepsAreEnqueue(k: Conn, q: Port, c: ConnId)
    requires q.worker.FanLoop? && c in q.worker.todo
    ensures var r := FanChecked(k, q, c);
            if k.done then BoxOf(r.k) == Enqueued(BoxOf(k), q.worker.chunk)
            else r.q.worker.FanTry? && BoxOf(FanPushed(r.k, r.q).k) == Enqueued(BoxOf(k), q.worker.chunk)
  {
  }

  class ClientObject {
    var queue: seq<Msg>
    var done: bool
    var port: Option<PortId>
    var writable: bool
    var written: nat

    constructor ()
      ensures Shows(FRESH_CONN)
    {
      queue, done, port, writable, written := [], false, None, false, 0;
    }

    /** This object is the state k of the transition system. */
    ghost predicate Shows(k: Conn)
      reads this
    {
      queue == k.queue && done == k.done && port == k.port && writable == k.writable && written == k.written
    }

    function Box(): (b: Outbox)
      reads this
    {
      Outbox(queue, done)
    }

    /** enqueue (conn.go:457-469): never blocks. */
    method Enqueue(payload: bytes)
      modifies this`queue, this`done
      ensures Box() == Enqueued(old(Box()), payload)
    {
      if done { return; }
      if |queue| < QUEUE_DEPTH {
        queue := queue + [Data(payload)];
      } else {
        Kill(FRESH_CONN.(queue := queue, done := done, port := port, writable := writable, written := written));
      }
    }

    /** kill (conn.go:448-453), guarded by c.once: the model's step, however often it is
        called. What it stops is in HubKill. */
    method Kill(ghost k: Conn)
      requires Shows(k)
      modifies this`done
      ensures Shows(ConnDo(k, ConnEv.Kill)) && Shows(ConnDo(ConnDo(k, ConnEv.Kill), ConnEv.Kill))
    {
      if !done { done := true; }
    }

    /** detach under c.mu (conn.go:392-402): what is let go of, if anything. */
    method LetGo(after: After, ghost k: Conn) returns (p: Option<PortId>, w: bool)
      requires Shows(k)
      modifies this`port, this`writable
      ensures Shows(BeginDetach(k, after)) && p == k.port && w == k.writable
      ensures p.Some? ==> BeginDetach(k, after).reader == DetachPort(p.value, w, after)
      ensures p.None? ==> BeginDetach(k, after).reader == Resume(after)
    {
      p, w := port, writable;
      port := None;
      writable := false;
    }

    /** handleOpen under c.mu (conn.go:292-296). */
    method Commit(p: PortId, w: bool, ghost log: bool, ghost k: Conn)
      requires Shows(k) && k.reader == OpenCommit(p, w, log)
      modifies this`port, this`writable
      ensures Shows(ConnDo(k, CommitOpen)) && port == Some(p) && writable == w
    {
      port := Some(p);
      writable := w;
    }

    /** handleInput under c.mu: input of an observer or of nobody goes nowhere. */
    method Target(data: bytes, ghost k: Conn) returns (p: Option<PortId>)
      requires Shows(k) && k.reader.Idle?
      ensures (p.Some? <==> port.Some? && writable) && (p.Some? <==> ConnDo(k, Input(data)).reader.InputPort?)
      ensures p.Some? ==> ConnDo(k, Input(data)).reader == InputPort(p.value, data) && port == p && writable
    {
      p := if writable then port else None;
    }

    /** handleInput's own counter (conn.go:366-368). */
    method Count(n: nat, err: bool, ghost k: Conn)
      requires Shows(k) && k.reader == CountConn(n, err)
      modifies this`written
      ensures Shows(ConnDo(k, CountOwn)) && written == old(written) + n
    {
      written := written + n;
    }
  }

  // ----------------------------------------------------------------------- Port

  datatype OpenError = PortOffline | HeldBy(owner: ConnId) | ObservingDisabled | TooManyObservers(n: nat)

  datatype OpenResult = Admitted(baud: int, log: bool, backlog: bytes) | Denied(error: OpenError)

  /** The fields the source has too: neither the lock nor any history. */
  datatype PortFields = PortFields(
    sp: Option<nat>, online: bool, running: bool, logOpen: bool,
    conns: set<ConnId>, owner: Option<ConnId>, baud: int, written: nat, ring: bytes)

  function FieldsOf(q: Port): (f: PortFields) {
    PortFields(q.sp, q.online, q.running, q.logOpen, q.conns, q.owner, q.baud, q.written, q.ring)
  }

  lemma OpenCheckedIs(cfg: Config, c: ConnId, k: Conn, p: PortId, q: Port)
    requires k.reader.OpenWait?
    ensures var r, refused, req := OpenChecked(cfg, c, k, p, q), Refused(cfg, c, q, k.reader.req.observe), k.reader.req;
            && (r.k.reader.Sending? <==> refused)
            && (!refused ==> r.k.reader.OpenHold? && r.k.reader.backlog == FieldsOf(q).ring)
            && FieldsOf(r.q) ==
               (if !refused && req.baud > 0 && FieldsOf(q).conns == {} then FieldsOf(q).(baud := req.baud)
                else FieldsOf(q))
  {
  }

  lemma DetachStepIs(cfg: Config, m: Mgr, c: ConnId, k: Conn, p: PortId, q: Port)
    requires k.reader.DetachPort? && k.reader.p == p && q.lock.None?
    ensures PairCan(m, c, k, p, q, DetachStep)
    ensures PairDo(cfg, m, c, k, p, q, DetachStep)
            == Effect(m, k.(reader := LineDue(p, q.logOpen, k.reader.after)), Drop(c, q))
  {
  }

  class PortObject {
    var sp: Option<nat>
    var online: bool
    var running: bool
    var logOpen: bool
    var conns: set<ConnId>
    var owner: Option<ConnId>
    var baud: int
    var written: nat
    const ring: R.Buffer

    ghost predicate Valid()
      reads this, ring
    {
      ring.Valid()
    }

    /** What the object holds. */
    ghost function Fields(): (f: PortFields)
      requires Valid()
      reads this, ring, ring.data
    {
      PortFields(sp, online, running, logOpen, conns, owner, baud, written, ring.Contents())
    }

    /** This object is the state q of the transition system. */
    ghost predicate Shows(q: Port)
      requires Valid()
      reads this, ring, ring.data
    {
      Fields() == FieldsOf(q)
    }

    constructor (size: nat, baud: int, hasLog: bool)
      ensures Valid() && ring.size == size && fresh(ring) && fresh(ring.data)
      ensures Shows(FreshPort(baud, hasLog))
    {
      sp, online, running, logOpen := None, false, false, hasLog;
      conns, owner, this.baud, written := {}, None, baud, 0;
      ring := new R.Buffer(size);
    }

    /** The counting loop over p.conns (conn.go:250-255, 285-289). */
    method CountObservers() returns (n: nat)
      ensures n == Observers(conns, owner)
    {
      n := 0;
      var todo := conns;
      ghost var counted: set<ConnId> := {};
      while todo != {}
        invariant todo <= conns && n == |counted|
        invariant forall o :: o in counted <==> o in conns && o !in todo && owner != Some(o)
        decreases todo
      {
        var o :| o in todo;
        if owner != Some(o) {
          n := n + 1;
          counted := counted + {o};
        }
        todo := todo - {o};
      }
      assert counted == if owner.Some? then conns - {owner.value} else conns;
    }

    /** The refusals of handleOpen, in the order the source tries them. */
    method FindRefusal(cfg: Config, c: ConnId, observe: bool, ghost q: Port) returns (r: Option<OpenError>)
      requires Valid() && Shows(q)
      ensures r.Some? <==> Refused(cfg, c, q, observe)
      ensures r.Some? ==>
                r.value == (if sp.None? then PortOffline
                            else if !observe && owner.Some? then HeldBy(owner.value)
                            else if !cfg.allowObserve then ObservingDisabled
                            else TooManyObservers(Observers(conns, owner)))
    {
      hide Observers;
      if sp.None? { return Some(PortOffline); }
      if !observe && owner.Some? && owner.value != c { return Some(HeldBy(owner.value)); }
      if observe && !cfg.allowObserve { return Some(ObservingDisabled); }
      if observe && cfg.maxObservers > 0 {
        var n := CountObservers();
        if n >= cfg.maxObservers { return Some(TooManyObservers(n)); }
      }
      return None;
    }

    /** handleOpen under p.mu up to the copy of the backlog (conn.go:221-273). */
    method CheckOpen(cfg: Config, c: ConnId, req: OpenReq, ghost k: Conn, ghost p: PortId, ghost q: Port)
      returns (r: OpenResult)
      requires Valid() && Shows(q) && k.reader == OpenWait(p, req)
      modifies this`baud
      ensures Valid() && Shows(OpenChecked(cfg, c, k, p, q).q)
      ensures r.Denied? <==> OpenChecked(cfg, c, k, p, q).k.reader.Sending?
      ensures r.Admitted? ==> r.backlog == OpenChecked(cfg, c, k, p, q).k.reader.backlog && r.baud == baud
      ensures r.Admitted? ==> r.log == logOpen
    {
      hide Refused, OpenChecked, Observers, FieldsOf;
      OpenCheckedIs(cfg, c, k, p, q);
      var refusal := FindRefusal(cfg, c, req.observe, q);
      if refusal.Some? { return Denied(refusal.value); }
      r := Admit(req);
      assert ring.Contents() == old(ring.Contents());
    }

    /** The first attachment sets the line rate (conn.go:264-266); then the backlog is copied. */
    method Admit(req: OpenReq) returns (r: OpenResult)
      requires Valid()
      modifies this`baud
      ensures baud == if req.baud > 0 && conns == {} then req.baud else old(baud)
      ensures r == Admitted(baud, logOpen, ring.Contents())
    {
      if req.baud > 0 && |conns| == 0 { baud := req.baud; }
      var backlog := ring.Bytes();
      return Admitted(baud, logOpen, backlog);
    }

    /** handleOpen under p.mu, after the backlog is queued (conn.go:276-279). */
    method JoinConn(c: ConnId, observe: bool, ghost q: Port)
      requires Valid() && Shows(q)
      modifies this`conns, this`owner
      ensures Valid() && Shows(Join(c, q, observe))
      ensures c in conns && (!observe ==> owner == Some(c)) && (observe ==> owner == old(owner))
    {
      conns := conns + {c};
      if !observe { owner := Some(c); }
    }

    /** detach under p.mu (conn.go:404-410), which also hands out the log. */
    method DropConn(cfg: Config, c: ConnId, after: After, ghost m: Mgr, ghost k: Conn, ghost p: PortId, ghost q: Port)
      returns (log: bool)
      requires Valid() && Shows(q)
      requires k.reader.DetachPort? && k.reader.p == p && k.reader.after == after && q.lock.None?
      modifies this`conns, this`owner
      ensures Valid() && Shows(PairDo(cfg, m, c, k, p, q, DetachStep).q)
      ensures PairDo(cfg, m, c, k, p, q, DetachStep).k.reader == LineDue(p, log, after)
      ensures conns == old(conns) - {c} && owner != Some(c) && (old(owner) != Some(c) ==> owner == old(owner))
    {
      hide PairDo, PairCan;
      DetachStepIs(cfg, m, c, k, p, q);
      conns := conns - {c};
      if owner == Some(c) { owner := None; }
      log := logOpen;
    }

    /** ensureWorker under both locks: says whether a worker has to be started. */
    method EnsureRunning(m: Mgr, ghost q: Port) returns (start: bool)
      requires Valid() && Shows(q)
      modifies this`running
      ensures Valid() && Shows(EnsureWorker(m, q).q)
      ensures start <==> EnsureWorker(m, q).m.wg == m.wg + 1
    {
      if m.closed || running { return false; }
      running := true;
      return true;
    }

    /** goOnline and goOffline under p.mu, and what they report. */
    method SetOnline(h: nat, ghost rate: int, ghost cfg: Config, ghost m: Mgr, ghost p: PortId, ghost q: Port)
      returns (was: bool)
      requires Valid() && Shows(q) && q.worker == GoOnline(h, rate) && q.lock.None?
      modifies this`sp, this`online
      ensures Valid() && Shows(PortDo(cfg, m, p, q, Online).q)
      ensures !was <==> PortDo(cfg, m, p, q, Online).q.worker.AuditOnline?
    {
      sp := Some(h);
      was := online;
      online := true;
    }

    method SetOffline(ghost cfg: Config, ghost m: Mgr, ghost p: PortId, ghost q: Port) returns (was: bool)
      requires Valid() && Shows(q) && q.worker.GoOffline? && q.lock.None?
      modifies this`online
      ensures Valid() && Shows(PortDo(cfg, m, p, q, PortEv.Offline).q)
      ensures was <==> PortDo(cfg, m, p, q, PortEv.Offline).q.worker.AuditOffline?
    {
      was := online;
      online := false;
    }

    /** release under p.mu (hub.go:656-660), as the worker's step and as Close's: either
        way the log is taken and the caller owes its last line exactly if it was there. */
    method TakeLogOnce(ghost cfg: Config, ghost m: Mgr, ghost p: PortId, ghost q: Port) returns (had: bool)
      requires Valid() && Shows(q)
      modifies this`logOpen
      ensures Valid()
      ensures PortCan(m, p, q, TakeLog) ==>
                var r := PortDo(cfg, m, p, q, TakeLog); Shows(r.q) && r.q.worker == ReleaseNote(had)
      ensures PortCan(m, p, q, CloserReleases) ==>
                var r := PortDo(cfg, m, p, q, CloserReleases); Shows(r.q) && CloserOwes(r.m, p) == had
    {
      had := logOpen;
      logOpen := false;
    }

    /** fanout's two critical sections. Whatever order the map yields the clients in,
        each attached one is offered the chunk exactly once and nobody else is touched. */
    method Fanout(chunk: bytes, clients: map<ConnId, ClientObject>)
      requires Valid() && conns <= clients.Keys
      requires forall a, b | a in clients && b in clients && a != b :: clients[a] != clients[b]
      requires forall a | a in clients :: clients[a] as object !in {this, ring, ring.data}
      modifies ring, ring.data, clients.Values
      ensures Valid() && ring.Contents() == R.Last(ring.size, old(ring.Contents()) + chunk)
      ensures forall c | c in conns :: clients[c].Box() == Enqueued(old(clients[c].Box()), chunk)
      ensures forall c | c in clients && c !in conns :: clients[c].Box() == old(clients[c].Box())
    {
      ring.Write(chunk);
      ghost var after := ring.Contents();
      var todo := conns;
      while todo != {}
        invariant todo <= conns
        invariant Valid() && ring.Contents() == after
        invariant forall c | c in conns - todo :: clients[c].Box() == Enqueued(old(clients[c].Box()), chunk)
        invariant forall c | c in clients && (c in todo || c !in conns) :: clients[c].Box() == old(clients[c].Box())
        decreases todo
      {
        var c :| c in todo;
        clients[c].Enqueue(chunk);
        todo := todo - {c};
      }
    }
  }
}
