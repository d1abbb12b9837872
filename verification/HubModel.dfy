/** The hub (internal/hub) as a transition system: one step per lock-protected
    section or channel operation of each goroutine.

    A port's mutex is explicit only where a section takes several steps (the
    fan-out loop and the opening of a port); every other section is one step that
    needs the mutex free. Fields under "history" are observed by nothing in the
    system: they record what happened so that properties can be stated. */
module HubModel {
  import opened Prelude
  import opened Ring

  type ConnId = nat
  type PortId = nat

  /** outQueueDepth (conn.go:22). */
  const QUEUE_DEPTH: nat := 512

  datatype Config = Config(ringSize: nat, allowObserve: bool, maxObservers: int, defaultBaud: int)

  // ---------------------------------------------------------------- connections

  datatype Msg = Data(payload: bytes) | Ctrl

  datatype OpenReq = OpenReq(observe: bool, baud: int)

  /** What a line in the log, or a detach before it, was for, and so what comes next. */
  datatype After = Reopen(req: OpenReq) | ReplyClosed | Teardown | Joined | Broke

  /** Where a connection's reader goroutine stands. */
  datatype Reader =
    | Idle                                          // blocked in rd.Next
    | Check                                         // after a frame, about to look at done
    | DetachPort(p: PortId, w: bool, after: After)   // detach, between its c.mu and p.mu sections
    | Resolving(req: OpenReq)
    | OpenWait(p: PortId, req: OpenReq)              // wants p.mu
    | OpenHold(p: PortId, req: OpenReq, backlog: bytes, seen: nat, sawDone: bool)  // inside p.mu
    | OpenCommit(p: PortId, w: bool, log: bool)      // p.mu released, its c.mu section is next
    | OpenEnsure(p: PortId, log: bool)
    | BreakPort(p: PortId)                           // handleBreak, before it reads p.sp
    | BreakNote(p: PortId)                           // noteLog, before it reads p.logw
    | LineDue(p: PortId, log: bool, after: After)     // about to write a line, if it was given a log
    | Sending                                       // blocked in send
    | InputPort(p: PortId, data: bytes)              // handleInput, before it reads p.sp
    | InputDevice(p: PortId, data: bytes)            // about to write to the device, no lock held
    | CountPort(p: PortId, n: nat, err: bool)
    | CountConn(n: nat, err: bool)
    | CloseDone | WaitWriter | Unregister | Exited

  datatype Writer = Loop | Writing(msg: Msg) | Stopped

  /** History: one attachment. Live data is due from chunk `first` on; the backlog
      was read when `seen` chunks were in the ring; chunks below `upto` were offered. */
  datatype Att = Att(port: PortId, backlog: bytes, seen: nat, first: nat, upto: nat)

  datatype Conn = Conn(
    reader: Reader, writer: Writer, port: Option<PortId>, writable: bool, written: nat,
    queue: seq<Msg>, done: bool,
    // history
    enq: seq<Msg>, sent: seq<Msg>,       // every frame ever queued; every frame fully written
    past: seq<bytes>, got: seq<bytes>,   // data queued before, and for, the latest attachment
    att: Option<Att>, cut: bool)         // cut: some data frame was refused

  const FRESH_CONN := Conn(Idle, Loop, None, false, 0, [], false, [], [], [], [], None, false)

  function Resume(after: After): (r: Reader) {
    match after
    case Reopen(req) => Resolving(req)
    case ReplyClosed => Sending
    case Teardown => CloseDone
    case Joined => Sending
    case Broke => Check
  }

  /** The c.mu section of detach (conn.go:392-402). */
  function BeginDetach(k: Conn, after: After): (r: Conn) {
    if k.port.None? then k.(writable := false, reader := Resume(after))
    else k.(port := None, writable := false, reader := DetachPort(k.port.value, k.writable, after))
  }

  /** A frame that found room in outCh. */
  function Push(k: Conn, msg: Msg): (r: Conn) {
    k.(queue := k.queue + [msg], enq := k.enq + [msg],
       got := if msg.Data? then k.got + [msg.payload] else k.got)
  }

  /** The second select of enqueue: queue the frame, or drop the client. */
  function TryEnqueue(k: Conn, payload: bytes): (r: Conn) {
    if |k.queue| < QUEUE_DEPTH then Push(k, Data(payload)) else k.(done := true, cut := true)
  }

  function Offered(k: Conn): (r: Conn) {
    if k.att.None? then k else k.(att := Some(k.att.value.(upto := k.att.value.upto + 1)))
  }

  /** Steps that touch one connection only. */
  datatype ConnEv =
    | ReadEnd | AskOpen(req: OpenReq) | AskClose | AskOther | Input(data: bytes) | AskBreak
    | ResolveFails | CommitOpen | CountOwn | SendPush | SendAborted | LookDone
    | SignalDone | JoinWriter | Leave
    | Kill | Notice
    | Take | Wrote | WriteFails | WriterSeesDone

  predicate ConnCan(k: Conn, e: ConnEv) {
    match e
    case ReadEnd => k.reader.Idle?
    case AskOpen(_) => k.reader.Idle?
    case AskClose => k.reader.Idle?
    case AskOther => k.reader.Idle?
    case Input(_) => k.reader.Idle?
    case AskBreak => k.reader.Idle?
    case ResolveFails => k.reader.Resolving?
    case CommitOpen => k.reader.OpenCommit?
    case CountOwn => k.reader.CountConn?
    case SendPush => k.reader.Sending? && |k.queue| < QUEUE_DEPTH
    case SendAborted => k.reader.Sending? && k.done
    case LookDone => k.reader.Check?
    case SignalDone => k.reader.CloseDone?
    case JoinWriter => k.reader.WaitWriter? && k.writer.Stopped?
    case Leave => k.reader.Unregister?
    case Kill => true
    case Notice => true
    case Take => k.writer.Loop? && k.queue != []
    case Wrote => k.writer.Writing?
    case WriteFails => k.writer.Writing?
    case WriterSeesDone => k.writer.Loop? && k.done
  }

  function ConnDo(k: Conn, e: ConnEv): (r: Conn)
    requires ConnCan(k, e)
  {
    match e
    case ReadEnd => BeginDetach(k, Teardown)
    case AskOpen(req) => BeginDetach(k, Reopen(req))
    case AskClose => BeginDetach(k, ReplyClosed)
    case AskOther => k.(reader := Sending)
    case Input(data) =>
      k.(reader := if k.port.None? || !k.writable then Check else InputPort(k.port.value, data))
    case AskBreak =>
      k.(reader := if k.port.None? || !k.writable then Sending else BreakPort(k.port.value))
    case ResolveFails => k.(reader := Sending)
    case CommitOpen =>
      k.(port := Some(k.reader.p), writable := k.reader.w, reader := OpenEnsure(k.reader.p, k.reader.log))
    case CountOwn =>
      k.(written := k.written + k.reader.n, reader := if k.reader.err then Sending else Check)
    case SendPush => Push(k, Ctrl).(reader := Check)
    case SendAborted => k.(reader := Check)
    case LookDone => if k.done then BeginDetach(k, Teardown) else k.(reader := Idle)
    case SignalDone => k.(done := true, reader := WaitWriter)
    case JoinWriter => k.(reader := Unregister)
    case Leave => k.(reader := Exited)
    case Kill => k.(done := true)
    case Notice => if |k.queue| < QUEUE_DEPTH then Push(k, Ctrl) else k
    case Take => k.(queue := k.queue[1..], writer := Writing(k.queue[0]))
    case Wrote => k.(sent := k.sent + [k.writer.msg], writer := Loop)
    case WriteFails => k.(done := true, writer := Stopped)
    case WriterSeesDone => k.(writer := Stopped)
  }

  // ---------------------------------------------------------------------- ports

  /** Where a port's worker goroutine stands; `rate` is what openDevice has read under p.mu. */
  datatype Worker =
    | Absent                                   // never started
    | Top | Opening(rate: int) | GoOnline(h: nat, rate: int) | AuditOnline(log: bool)
    | Reading
    | RingStep(chunk: bytes, err: bool) | FanLock(chunk: bytes, err: bool)
    | FanLoop(chunk: bytes, err: bool, todo: set<ConnId>)              // inside p.mu
    | FanTry(chunk: bytes, err: bool, todo: set<ConnId>, c: ConnId)    // inside p.mu, c was not done
    | LogWrite(chunk: bytes, err: bool, log: bool)                     // p.mu released, with the log or without
    | AfterRead(err: bool)
    | GoOffline(sleep: bool) | AuditOffline(sleep: bool, log: bool) | Sleeping
    | CloseDevice | AfterClear
    | Release | ReleaseNote(had: bool) | Finishing | Gone

  datatype Holder = ByWorker | ByReader(c: ConnId)

  /** A line of the port's log: console output, the device coming or going, what a client
      did, or "capture stopped". */
  datatype Line = Output(chunk: bytes) | Went(online: bool) | Says(c: ConnId) | CaptureStopped

  function If(log: bool, line: Line): (r: seq<Line>) { if log then [line] else [] }

  datatype Port = Port(
    sp: Option<nat>, online: bool, running: bool, logOpen: bool,
    conns: set<ConnId>, owner: Option<ConnId>, baud: int, written: nat,
    ring: bytes, lock: Option<Holder>, worker: Worker,
    // history
    ringed: seq<bytes>, fanned: nat,          // chunks written to the ring; chunks fanned out
    handed: seq<(ConnId, bytes)>,             // what the device accepted, and from whom
    spawned: nat, audit: seq<bool>,           // workers started; online (true) and offline events
    stopNotes: nat, hadLog: bool,             // "capture stopped" lines; a log was opened at all
    lines: seq<Line>, rate: int)              // the log; the rate the device was last opened at

  function FreshPort(baud: int, hasLog: bool): (q: Port) {
    Port(None, false, false, hasLog, {}, None, baud, 0, [], None, Absent, [], 0, [], 0, [], 0, hasLog, [], baud)
  }

  // -------------------------------------------------------------------- manager

  /** Where Manager.Close stands; `ports` is the snapshot it took. */
  datatype Closer =
    | NotClosing
    | Killing(todo: set<ConnId>, ports: set<PortId>)
    | Shutting(left: set<PortId>, ports: set<PortId>)
    | Waiting(ports: set<PortId>)
    | Releasing(left: set<PortId>, ports: set<PortId>)
    | Noting(p: PortId, had: bool, left: set<PortId>, ports: set<PortId>)
    | Closed(ports: set<PortId>)

  datatype Scanner = NotStarted | Scanning | ScanOver

  /** `closed` also stands for the closed `done` channel: one m.mu section sets both. */
  datatype Mgr = Mgr(closed: bool, wg: int, scanner: Scanner, closer: Closer, lateAdds: nat)

  /** What one step leaves behind. */
  datatype OnOne = OnOne(m: Mgr, q: Port)
  datatype OnBoth = OnBoth(k: Conn, q: Port)
  datatype Effect = Effect(m: Mgr, k: Conn, q: Port)

  function AddWg(m: Mgr): (r: Mgr) {
    m.(wg := m.wg + 1, lateAdds := m.lateAdds + if m.closed then 1 else 0)
  }

  /** Steps that touch one port, and possibly the manager. */
  datatype PortEv =
    | EnsureBySync
    | Look | Opened(h: nat) | OpenFails | Online | LogOnline | Offline | LogOffline
    | WakeTimer | WakeDone | Got(chunk: bytes, err: bool) | RingWrite | FanBegin | FanEnd | LogChunk
    | EndRead | ClearDevice | LookAgain | TakeLog | NoteStopped | Finish
    | CloserShuts | CloserReleases | CloserNotes

  predicate PortCan(m: Mgr, p: PortId, q: Port, e: PortEv) {
    match e
    case EnsureBySync => m.closed || q.lock.None?
    case Look => q.worker.Top? && (m.closed || q.lock.None?)
    case Opened(_) => q.worker.Opening?
    case OpenFails => q.worker.Opening?
    case Online => q.worker.GoOnline? && q.lock.None?
    case LogOnline => q.worker.AuditOnline?
    case Offline => q.worker.GoOffline? && q.lock.None?
    case LogOffline => q.worker.AuditOffline?
    case WakeTimer => q.worker.Sleeping?
    case WakeDone => q.worker.Sleeping? && m.closed
    case Got(_, _) => q.worker.Reading?
    case RingWrite => q.worker.RingStep?
    case FanBegin => q.worker.FanLock? && q.lock.None?
    case FanEnd => q.worker.FanLoop? && q.worker.todo == {}
    case LogChunk => q.worker.LogWrite?
    case EndRead => q.worker.AfterRead?
    case ClearDevice => q.worker.CloseDevice? && q.lock.None?
    case LookAgain => q.worker.AfterClear?
    case TakeLog => q.worker.Release? && q.lock.None?
    case NoteStopped => q.worker.ReleaseNote?
    case Finish => q.worker.Finishing?
    case CloserShuts => m.closer.Shutting? && p in m.closer.left && q.lock.None?
    case CloserReleases => m.closer.Releasing? && p in m.closer.left && q.lock.None?
    case CloserNotes => m.closer.Noting? && p == m.closer.p
  }

  /** ensureWorker, one m.mu section around one p.mu section (hub.go:415-438). */
  function EnsureWorker(m: Mgr, q: Port): (r: OnOne) {
    if m.closed || q.running then OnOne(m, q)
    else OnOne(AddWg(m), q.(running := true, worker := Top, spawned := q.spawned + 1))
  }

  function AfterOffline(sleep: bool): (w: Worker) {
    if sleep then Sleeping else CloseDevice
  }

  function PortDo(cfg: Config, m: Mgr, p: PortId, q: Port, e: PortEv): (r: OnOne)
    requires PortCan(m, p, q, e)
  {
    match e
    case EnsureBySync => EnsureWorker(m, q)
    case Look => OnOne(m, q.(worker := if m.closed then Release else Opening(q.baud)))
    case Opened(h) => OnOne(m, q.(worker := GoOnline(h, q.worker.rate)))
    case OpenFails => OnOne(m, q.(worker := GoOffline(true)))
    case Online =>
      OnOne(m, q.(sp := Some(q.worker.h), rate := q.worker.rate, online := true,
                  worker := if q.online then Reading else AuditOnline(q.logOpen)))
    case LogOnline =>
      OnOne(m, q.(audit := q.audit + [true], lines := q.lines + If(q.worker.log, Went(true)), worker := Reading))
    case Offline =>
      OnOne(m, q.(online := false,
                  worker := if q.online then AuditOffline(q.worker.sleep, q.logOpen) else AfterOffline(q.worker.sleep)))
    case LogOffline =>
      OnOne(m, q.(audit := q.audit + [false], lines := q.lines + If(q.worker.log, Went(false)),
                  worker := AfterOffline(q.worker.sleep)))
    case WakeTimer => OnOne(m, q.(worker := Top))
    case WakeDone => OnOne(m, q.(worker := Release))
    case Got(chunk, err) => OnOne(m, q.(worker := if |chunk| > 0 then RingStep(chunk, err) else AfterRead(err)))
    case RingWrite =>
      OnOne(m, q.(ring := Last(cfg.ringSize, q.ring + q.worker.chunk), ringed := q.ringed + [q.worker.chunk],
             worker := FanLock(q.worker.chunk, q.worker.err)))
    case FanBegin => OnOne(m, q.(lock := Some(ByWorker), worker := FanLoop(q.worker.chunk, q.worker.err, q.conns)))
    case FanEnd =>
      OnOne(m, q.(lock := None, fanned := q.fanned + 1, worker := LogWrite(q.worker.chunk, q.worker.err, q.logOpen)))
    case LogChunk =>
      OnOne(m, q.(lines := q.lines + If(q.worker.log, Output(q.worker.chunk)), worker := AfterRead(q.worker.err)))
    case EndRead =>
      OnOne(m, q.(worker := if m.closed then CloseDevice else if q.worker.err then GoOffline(false) else Reading))
    case ClearDevice => OnOne(m, q.(sp := None, worker := AfterClear))
    case LookAgain => OnOne(m, q.(worker := if m.closed then Release else Top))
    case TakeLog => OnOne(m, q.(logOpen := false, worker := ReleaseNote(q.logOpen)))
    case NoteStopped =>
      OnOne(m, q.(stopNotes := q.stopNotes + (if q.worker.had then 1 else 0),
                  lines := q.lines + If(q.worker.had, CaptureStopped), worker := Finishing))
    case Finish => OnOne(m.(wg := m.wg - 1), q.(worker := Gone))
    case CloserShuts =>
      OnOne(m.(closer := Shutting(m.closer.left - {p}, m.closer.ports)), q.(sp := None, online := false))
    case CloserReleases =>
      OnOne(m.(closer := Noting(p, q.logOpen, m.closer.left - {p}, m.closer.ports)), q.(logOpen := false))
    case CloserNotes =>
      OnOne(m.(closer := Releasing(m.closer.left, m.closer.ports)),
            q.(stopNotes := q.stopNotes + (if m.closer.had then 1 else 0),
               lines := q.lines + If(m.closer.had, CaptureStopped)))
  }

  // ------------------------------------------------ steps on a connection and a port

  datatype PairEv =
    | DetachStep                               // reader: the p.mu section of detach
    | OpenLock | OpenFinish | EnsureByOpen     // reader: handleOpen
    | ReadDevice | DeviceTook(n: nat, err: bool) | CountOnPort   // reader: handleInput
    | BreakTry(ok: bool) | BreakTake           // reader: handleBreak, sendBreak and noteLog
    | SayNote                                  // reader: a line in the log, no lock held
    | FanCheck | FanPush                       // worker: one enqueue of the fan-out loop

  /** Observers as handleOpen counts them: everyone but the owner. */
  function Observers(conns: set<ConnId>, owner: Option<ConnId>): (n: nat) {
    |if owner.Some? then conns - {owner.value} else conns|
  }

  /** handleOpen's refusals under p.mu (conn.go:221-260). */
  predicate Refused(cfg: Config, c: ConnId, q: Port, observe: bool) {
    || q.sp.None?
    || (!observe && q.owner.Some? && q.owner != Some(c))
    || (observe && !cfg.allowObserve)
    || (observe && cfg.maxObservers > 0 && Observers(q.conns, q.owner) >= cfg.maxObservers)
  }

  predicate PairCan(m: Mgr, c: ConnId, k: Conn, p: PortId, q: Port, e: PairEv) {
    match e
    case DetachStep => k.reader.DetachPort? && k.reader.p == p && q.lock.None?
    case OpenLock => k.reader.OpenWait? && k.reader.p == p && q.lock.None?
    case OpenFinish => k.reader.OpenHold? && k.reader.p == p
    case EnsureByOpen => k.reader.OpenEnsure? && k.reader.p == p && (m.closed || q.lock.None?)
    case ReadDevice => k.reader.InputPort? && k.reader.p == p && q.lock.None?
    case DeviceTook(n, _) => k.reader.InputDevice? && k.reader.p == p && n <= |k.reader.data|
    case CountOnPort => k.reader.CountPort? && k.reader.p == p && q.lock.None?
    case BreakTry(_) => k.reader.BreakPort? && k.reader.p == p && q.lock.None?
    case BreakTake => k.reader.BreakNote? && k.reader.p == p && q.lock.None?
    case SayNote => k.reader.LineDue? && k.reader.p == p
    case FanCheck => q.worker.FanLoop? && c in q.worker.todo
    case FanPush => q.worker.FanTry? && c == q.worker.c
  }

  /** delete(p.conns, c) and the release of ownership (conn.go:404-410). */
  function Drop(c: ConnId, q: Port): (r: Port) {
    q.(conns := q.conns - {c}, owner := if q.owner == Some(c) then None else q.owner)
  }

  /** handleOpen, first half of its p.mu section: the checks, the line rate, the
      copy of the ring, and enqueue's look at done. */
  function OpenChecked(cfg: Config, c: ConnId, k: Conn, p: PortId, q: Port): (r: OnBoth)
    requires k.reader.OpenWait?
  {
    var req := k.reader.req;
    if Refused(cfg, c, q, req.observe) then OnBoth(k.(reader := Sending), q)
    else
      OnBoth(k.(reader := OpenHold(p, req, q.ring, |q.ringed|, k.done)),
       q.(lock := Some(ByReader(c)), baud := if req.baud > 0 && q.conns == {} then req.baud else q.baud))
  }

  /** handleOpen, second half: the backlog is queued, then the connection joins; the log,
      which cannot change under the lock, is handed out with it. */
  function OpenQueued(k: Conn, p: PortId, q: Port): (r: Conn)
    requires k.reader.OpenHold?
  {
    var joined := k.(past := k.past + k.got, got := [],
                     att := Some(Att(p, k.reader.backlog, k.reader.seen, q.fanned, q.fanned)));
    if k.reader.backlog == [] then joined
    else if k.reader.sawDone then joined.(cut := true)
    else TryEnqueue(joined, k.reader.backlog)
  }

  function Join(c: ConnId, q: Port, observe: bool): (r: Port) {
    q.(lock := None, conns := q.conns + {c}, owner := if observe then q.owner else Some(c))
  }

  /** The first select of enqueue inside the fan-out loop. */
  function FanChecked(k: Conn, q: Port, c: ConnId): (r: OnBoth)
    requires q.worker.FanLoop?
  {
    var w := q.worker;
    if k.done then OnBoth(Offered(k).(cut := true), q.(worker := FanLoop(w.chunk, w.err, w.todo - {c})))
    else OnBoth(k, q.(worker := FanTry(w.chunk, w.err, w.todo - {c}, c)))
  }

  function FanPushed(k: Conn, q: Port): (r: OnBoth)
    requires q.worker.FanTry?
  {
    var w := q.worker;
    OnBoth(Offered(TryEnqueue(k, w.chunk)), q.(worker := FanLoop(w.chunk, w.err, w.todo)))
  }

  function DeviceWrote(c: ConnId, k: Conn, p: PortId, q: Port, n: nat, err: bool): (r: OnBoth)
    requires k.reader.InputDevice? && n <= |k.reader.data|
  {
    if n > 0 then
      OnBoth(k.(reader := CountPort(p, n, err)), q.(handed := q.handed + [(c, k.reader.data[..n])]))
    else
      OnBoth(k.(reader := if err then Sending else Check), q)
  }

  function PairDo(cfg: Config, m: Mgr, c: ConnId, k: Conn, p: PortId, q: Port, e: PairEv): (r: Effect)
    requires PairCan(m, c, k, p, q, e)
  {
    match e
    case DetachStep => Effect(m, k.(reader := LineDue(p, q.logOpen, k.reader.after)), Drop(c, q))
    case OpenLock => var r := OpenChecked(cfg, c, k, p, q); Effect(m, r.k, r.q)
    case OpenFinish =>
      Effect(m, OpenQueued(k, p, q).(reader := OpenCommit(p, !k.reader.req.observe, q.logOpen)),
             Join(c, q, k.reader.req.observe))
    case EnsureByOpen =>
      var r := EnsureWorker(m, q);
      Effect(r.m, k.(reader := LineDue(p, k.reader.log, Joined)), r.q)
    case ReadDevice =>
      Effect(m, k.(reader := if q.sp.None? then Sending else InputDevice(p, k.reader.data)), q)
    case DeviceTook(n, err) => var r := DeviceWrote(c, k, p, q, n, err); Effect(m, r.k, r.q)
    case CountOnPort =>
      Effect(m, k.(reader := CountConn(k.reader.n, k.reader.err)), q.(written := q.written + k.reader.n))
    case BreakTry(ok) => Effect(m, k.(reader := if q.sp.None? || !ok then Sending else BreakNote(p)), q)
    case BreakTake => Effect(m, k.(reader := LineDue(p, q.logOpen, Broke)), q)
    case SayNote =>
      Effect(m, k.(reader := Resume(k.reader.after)), q.(lines := q.lines + If(k.reader.log, Says(c))))
    case FanCheck => var r := FanChecked(k, q, c); Effect(m, r.k, r.q)
    case FanPush => var r := FanPushed(k, q); Effect(m, r.k, r.q)
  }

  // --------------------------------------------------------------- whole system

  datatype State = State(m: Mgr, ports: map<PortId, Port>, conns: map<ConnId, Conn>)

  const INIT := State(Mgr(false, 0, NotStarted, NotClosing, 0), map[], map[])

  datatype MgrEv =
    | Serve(c: ConnId) | AddPort(p: PortId, baud: int, hasLog: bool)
    | StartScan | ScanExit
    | CloseBegin | KillsDone | ShutsDone | WaitDone | ReleasesDone

  datatype Event =
    | OnConn(c: ConnId, ce: ConnEv)
    | ResolveTo(c: ConnId, p: PortId)
    | CloserKills(c: ConnId)
    | OnPort(p: PortId, pe: PortEv)
    | OnPair(c: ConnId, p: PortId, e: PairEv)
    | OnMgr(me: MgrEv)

  predicate MgrCan(s: State, e: MgrEv) {
    match e
    case Serve(c) => !s.m.closed && c !in s.conns
    case AddPort(p, _, _) => !s.m.closed && p !in s.ports
    case StartScan => s.m.scanner.NotStarted?
    case ScanExit => s.m.scanner.Scanning? && s.m.closed
    case CloseBegin => !s.m.closed
    case KillsDone => s.m.closer.Killing? && s.m.closer.todo == {}
    case ShutsDone => s.m.closer.Shutting? && s.m.closer.left == {}
    case WaitDone => s.m.closer.Waiting? && s.m.wg == 0
    case ReleasesDone => s.m.closer.Releasing? && s.m.closer.left == {}
  }

  function MgrDo(cfg: Config, s: State, e: MgrEv): (r: State)
    requires MgrCan(s, e)
  {
    match e
    case Serve(c) => s.(conns := s.conns[c := FRESH_CONN])
    case AddPort(p, baud, hasLog) =>
      s.(ports := s.ports[p := FreshPort(if baud > 0 then baud else cfg.defaultBaud, hasLog)])
    case StartScan => s.(m := AddWg(s.m).(scanner := Scanning))
    case ScanExit => s.(m := s.m.(wg := s.m.wg - 1, scanner := ScanOver))
    case CloseBegin =>
      var registered := set c | c in s.conns && !s.conns[c].reader.Exited?;
      s.(m := s.m.(closed := true, closer := Killing(registered, s.ports.Keys)))
    case KillsDone => s.(m := s.m.(closer := Shutting(s.m.closer.ports, s.m.closer.ports)))
    case ShutsDone => s.(m := s.m.(closer := Waiting(s.m.closer.ports)))
    case WaitDone => s.(m := s.m.(closer := Releasing(s.m.closer.ports, s.m.closer.ports)))
    case ReleasesDone => s.(m := s.m.(closer := Closed(s.m.closer.ports)))
  }

  predicate Can(s: State, e: Event) {
    match e
    case OnConn(c, ce) => c in s.conns && ConnCan(s.conns[c], ce)
    case ResolveTo(c, p) => c in s.conns && p in s.ports && s.conns[c].reader.Resolving?
    case CloserKills(c) => c in s.conns && s.m.closer.Killing? && c in s.m.closer.todo
    case OnPort(p, pe) => p in s.ports && PortCan(s.m, p, s.ports[p], pe)
    case OnPair(c, p, pe) => c in s.conns && p in s.ports && PairCan(s.m, c, s.conns[c], p, s.ports[p], pe)
    case OnMgr(me) => MgrCan(s, me)
  }

  function Do(cfg: Config, s: State, e: Event): (r: State)
    requires Can(s, e)
  {
    match e
    case OnConn(c, ce) => s.(conns := s.conns[c := ConnDo(s.conns[c], ce)])
    case ResolveTo(c, p) =>
      s.(conns := s.conns[c := s.conns[c].(reader := OpenWait(p, s.conns[c].reader.req))])
    case CloserKills(c) =>
      s.(conns := s.conns[c := s.conns[c].(done := true)],
         m := s.m.(closer := s.m.closer.(todo := s.m.closer.todo - {c})))
    case OnPort(p, pe) =>
      var r := PortDo(cfg, s.m, p, s.ports[p], pe);
      s.(m := r.m, ports := s.ports[p := r.q])
    case OnPair(c, p, pe) =>
      var r := PairDo(cfg, s.m, c, s.conns[c], p, s.ports[p], pe);
      State(r.m, s.ports[p := r.q], s.conns[c := r.k])
    case OnMgr(me) => MgrDo(cfg, s, me)
  }

  /** A schedule: any interleaving the system allows from s. */
  predicate IsRun(cfg: Config, s: State, es: seq<Event>)
    decreases |es|, 0
  {
    es == [] || (IsRun(cfg, s, es[..|es| - 1]) && Can(StateAfter(cfg, s, es[..|es| - 1]), es[|es| - 1]))
  }

  function StateAfter(cfg: Config, s: State, es: seq<Event>): (r: State)
    requires IsRun(cfg, s, es)
    decreases |es|, 1
  {
    if es == [] then s else Do(cfg, StateAfter(cfg, s, es[..|es| - 1]), es[|es| - 1])
  }
}
