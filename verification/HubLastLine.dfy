/** What can follow "capture stopped" in a port's log: lines of clients that were given
    the log before release took it, and write to it afterwards. */
module HubLastLine {
  import opened Prelude
  import opened Ring
  import opened HubModel
  import opened HubAttach
  import opened HubDelivery
  import opened HubLifecycle
  import opened HubInvariant
  import opened HubLog
  import opened HubRuns

  /** The connection was given p's log under p.mu and has not written its line yet. */
  predicate HoldsLog(k: Conn, p: PortId) {
    (k.reader.OpenCommit? || k.reader.OpenEnsure? || k.reader.LineDue?) && k.reader.p == p && k.reader.log
  }

  function Holders(s: State, p: PortId): (cs: set<ConnId>) { set c | c in s.conns && HoldsLog(s.conns[c], p) }

  // --------------------------------------------------------- who is given the log

  lemma ConnStepKeepsHold(k: Conn, e: ConnEv, p: PortId)
    requires ConnCan(k, e)
    ensures HoldsLog(ConnDo(k, e), p) <==> HoldsLog(k, p)
  {
    hide ConnDo, ConnCan;
    ConnStepMoves(k, e);
  }

  lemma EnsureKeepsLines(m: Mgr, q: Port)
    ensures EnsureWorker(m, q).q.lines == q.lines
  {
  }

  /** A step at port p, once its log is gone: a line is written by one who holds the log
      and then holds it no more; nobody else comes to hold it or lets go. */
  lemma PairStepHold(cfg: Config, m: Mgr, c: ConnId, k: Conn, p: PortId, q: Port, e: PairEv)
    requires PairCan(m, c, k, p, q, e) && !q.logOpen
    ensures var r := PairDo(cfg, m, c, k, p, q, e);
            if e.SayNote? then !HoldsLog(r.k, p) && r.q.lines == q.lines + If(HoldsLog(k, p), Says(c))
            else (HoldsLog(r.k, p) <==> HoldsLog(k, p)) && r.q.lines == q.lines
  {
    hide Observers, Refused, TryEnqueue, EnsureWorker;
    if e.FanCheck? || e.FanPush? {
      hide PairDo, PairCan;
      FanStepKeepsReader(cfg, m, c, k, p, q, e);
    } else if IsInput(e) {
      hide PairDo, PairCan;
      InputStepFrame(cfg, m, c, k, p, q, e);
    } else if e.EnsureByOpen? {
      EnsureKeepsLines(m, q);
    }
  }

  lemma PairStepHoldsNoOther(cfg: Config, m: Mgr, c: ConnId, k: Conn, p: PortId, q: Port, e: PairEv, r: PortId)
    requires PairCan(m, c, k, p, q, e) && r != p
    ensures HoldsLog(PairDo(cfg, m, c, k, p, q, e).k, r) <==> HoldsLog(k, r)
  {
    hide Observers, Refused, TryEnqueue, EnsureWorker;
    if e.FanCheck? || e.FanPush? {
      hide PairDo, PairCan;
      FanStepKeepsReader(cfg, m, c, k, p, q, e);
    } else if IsInput(e) {
      hide PairDo, PairCan;
      InputStepFrame(cfg, m, c, k, p, q, e);
    } else if IsNote(e) {
      hide PairDo, PairCan;
      NoteStepFrame(cfg, m, c, k, p, q, e);
    }
  }

  /** Once "capture stopped" is written the worker and Close write no more. */
  lemma PortStepAfterStop(cfg: Config, m: Mgr, p: PortId, q: Port, e: PortEv)
    requires PortLogOk(m, q) && PortKnown(cfg, m, p, q) && PortCan(m, p, q, e) && Stops(q.lines) > 0
    ensures var q' := PortDo(cfg, m, p, q, e).q; q'.lines == q.lines && !q.logOpen
  {
    hide Outputs, Stops, PortFlow, Placed, Alternates;
    if e.CloserNotes? { assert !m.closer.had; }
  }

  // --------------------------------------------------------------- the last lines

  /** From s to s' the log of p got one line each by the clients that held it in s and
      hold it no more in s', and nothing else. */
  ghost predicate OnlyHoldersSpoke(s: State, s': State, p: PortId)
    requires p in s.ports && p in s'.ports
  {
    var lines, lines' := s.ports[p].lines, s'.ports[p].lines;
    && lines <= lines' && Holders(s', p) <= Holders(s, p)
    && (forall i | |lines| <= i < |lines'| :: lines'[i].Says?)
    && (forall i, j | |lines| <= i < j < |lines'| :: lines'[i] != lines'[j])
    && (forall c :: Says(c) in lines'[|lines|..] <==> c in Holders(s, p) - Holders(s', p))
  }

  /** One step: nothing, or one holder's line. */
  ghost predicate OneSpeaks(s: State, s': State, p: PortId)
    requires p in s.ports && p in s'.ports
  {
    || (s'.ports[p].lines == s.ports[p].lines && Holders(s', p) == Holders(s, p))
    || exists c :: c in Holders(s, p) && s'.ports[p].lines == s.ports[p].lines + [Says(c)]
                   && Holders(s', p) == Holders(s, p) - {c}
  }

  lemma LogIsGone(cfg: Config, m: Mgr, p: PortId, q: Port)
    requires PortLogOk(m, q) && PortKnown(cfg, m, p, q) && Stops(q.lines) > 0
    ensures !q.logOpen
  {
    hide Outputs, Stops, PortFlow, Placed, Alternates;
  }

  lemma ResolvingHoldsNothing(k: Conn, r: Reader, p: PortId)
    requires k.reader.Resolving? && r.OpenWait?
    ensures !HoldsLog(k, p) && !HoldsLog(k.(reader := r), p)
  {
  }

  lemma SameReaderSameHold(k: Conn, k': Conn, p: PortId)
    requires k'.reader == k.reader
    ensures HoldsLog(k', p) <==> HoldsLog(k, p)
  {
  }

  lemma PairAfterStop(cfg: Config, s: State, c: ConnId, r: PortId, e: PairEv, p: PortId)
    requires Can(s, OnPair(c, r, e)) && p in s.ports && !s.ports[p].logOpen
    ensures OneSpeaks(s, Do(cfg, s, OnPair(c, r, e)), p)
  {
    hide PairDo, PairCan, HoldsLog;
    var s' := Do(cfg, s, OnPair(c, r, e));
    if r != p {
      PairStepHoldsNoOther(cfg, s.m, c, s.conns[c], r, s.ports[r], e, p);
      assert Holders(s', p) == Holders(s, p);
    } else {
      PairStepHold(cfg, s.m, c, s.conns[c], p, s.ports[p], e);
      if e.SayNote? && HoldsLog(s.conns[c], p) {
        assert Holders(s', p) == Holders(s, p) - {c};
      } else {
        assert s.ports[p].lines + [] == s.ports[p].lines;
        assert Holders(s', p) == Holders(s, p);
      }
    }
  }

  lemma FreshHoldsNothing(p: PortId)
    ensures !HoldsLog(FRESH_CONN, p)
  {
  }

  lemma StepAfterStop(cfg: Config, s: State, e: Event, p: PortId)
    requires Inv(cfg, s) && LogInv(s) && Can(s, e) && p in s.ports && Stops(s.ports[p].lines) > 0
    ensures p in Do(cfg, s, e).ports && OneSpeaks(s, Do(cfg, s, e), p)
  {
    hide Inv, PortLogOk, PortKnown, ConnDo, PortDo, PairDo, ConnCan, PortCan, PairCan, Stops, HoldsLog;
    KnownPort(cfg, s, p);
    LogIsGone(cfg, s.m, p, s.ports[p]);
    var s' := Do(cfg, s, e);
    match e
    case OnConn(c, ce) => ConnStepKeepsHold(s.conns[c], ce, p);
    case ResolveTo(c, r) => ResolvingHoldsNothing(s.conns[c], OpenWait(r, s.conns[c].reader.req), p);
    case CloserKills(c) => SameReaderSameHold(s.conns[c], s.conns[c].(done := true), p);
    case OnPort(r, pe) => if r == p { PortStepAfterStop(cfg, s.m, p, s.ports[p], pe); }
    case OnPair(c, r, pe) => PairAfterStop(cfg, s, c, r, pe, p);
    case OnMgr(me) => FreshHoldsNothing(p);
  }

  lemma SpokeAndSpeaks(s: State, t: State, u: State, p: PortId)
    requires p in s.ports && p in t.ports && p in u.ports && OnlyHoldersSpoke(s, t, p) && OneSpeaks(t, u, p)
    ensures OnlyHoldersSpoke(s, u, p)
  {
    hide Holders;
    var a, b, d := s.ports[p].lines, t.ports[p].lines, u.ports[p].lines;
    if !(d == b && Holders(u, p) == Holders(t, p)) {
      var c :| c in Holders(t, p) && d == b + [Says(c)] && Holders(u, p) == Holders(t, p) - {c};
      assert d[|a|..] == b[|a|..] + [Says(c)];
      assert Says(c) !in b[|a|..];
      forall i | |a| <= i < |b| ensures d[i] != Says(c) { assert b[|a|..][i - |a|] == b[i]; }
    }
  }

  lemma {:induction false} StopsGrow(a: seq<Line>, b: seq<Line>)
    requires a <= b
    ensures Stops(a) <= Stops(b)
    decreases |b|
  {
    if a != b { StopsGrow(a, b[..|b| - 1]); } else { assert a == b; }
  }

  lemma StillStopped(s: State, t: State, p: PortId)
    requires p in s.ports && p in t.ports && OnlyHoldersSpoke(s, t, p) && Stops(s.ports[p].lines) > 0
    ensures Stops(t.ports[p].lines) > 0
  {
    StopsGrow(s.ports[p].lines, t.ports[p].lines);
  }

  lemma {:induction false} RunAfterStop(cfg: Config, s: State, es: seq<Event>, p: PortId)
    requires Inv(cfg, s) && LogInv(s) && IsRun(cfg, s, es) && p in s.ports && Stops(s.ports[p].lines) > 0
    ensures var s' := StateAfter(cfg, s, es); p in s'.ports && OnlyHoldersSpoke(s, s', p) && LogInv(s')
    decreases |es|
  {
    hide Inv, LogInv, Can, Do, OneSpeaks, Holders;
    if es != [] {
      var front := es[..|es| - 1];
      var t := StateAfter(cfg, s, front);
      RunAfterStop(cfg, s, front, p);
      RunKeepsInv(cfg, s, front);
      StillStopped(s, t, p);
      StepKeepsLogInv(cfg, t, es[|es| - 1]);
      StepAfterStop(cfg, t, es[|es| - 1], p);
      SpokeAndSpeaks(s, t, StateAfter(cfg, s, es), p);
    }
  }

  lemma SilentIff(s: State, s': State, p: PortId)
    requires p in s.ports && p in s'.ports && OnlyHoldersSpoke(s, s', p)
    ensures s'.ports[p].lines == s.ports[p].lines <==> Holders(s', p) == Holders(s, p)
  {
    hide Holders;
    var a, b := s.ports[p].lines, s'.ports[p].lines;
    if |b| > |a| {
      assert b[|a|..][0] == b[|a|] && b[|a|].Says?;
      assert Says(b[|a|].c) in b[|a|..];
      assert b[|a|].c in Holders(s, p) - Holders(s', p);
    }
    if b == a {
      forall c | c in Holders(s, p) ensures c in Holders(s', p) { assert Says(c) !in b[|a|..]; }
    }
    assert |b| == |a| ==> b == a;
  }

  /** Whatever runs after "capture stopped" was written: the log gets exactly one more
      line by each client that held it then and has gone on since. So it stays the last
      line exactly as long as none of those goes on. */
  lemma LinesAfterCaptureStopped(cfg: Config, es: seq<Event>, more: seq<Event>, p: PortId)
    requires IsRun(cfg, INIT, es) && IsRun(cfg, Reached(cfg, es), more)
    requires p in Reached(cfg, es).ports && Stops(Reached(cfg, es).ports[p].lines) > 0
    ensures var s := Reached(cfg, es); var s' := StateAfter(cfg, s, more);
            && p in s'.ports && OnlyHoldersSpoke(s, s', p)
            && (s'.ports[p].lines == s.ports[p].lines <==> Holders(s', p) == Holders(s, p))
  {
    hide Inv, LogInv, IsRun, StateAfter, Stops, Holders;
    ReachedInv(cfg, es);
    ReachedLogInv(cfg, es);
    var s := Reached(cfg, es);
    RunAfterStop(cfg, s, more, p);
    SilentIff(s, StateAfter(cfg, s, more), p);
  }

  // ------------------------------------------------------------------ a late line

  /** The client of the run below: in the middle of handleOpen, with the port's log. */
  const OPENING := FRESH_CONN.(reader := OpenCommit(0, true, true), att := Some(Att(0, [], 0, 0, 0)))

  function OpenPort(cfg: Config): (q: Port) { OnlinePort(cfg, Reading, []).(conns := {0}, owner := Some(0)) }

  lemma GotTheLog(cfg: Config) returns (es: seq<Event>)
    ensures IsRun(cfg, INIT, es) && At(Reached(cfg, es), ONE_WORKER, OPENING, OpenPort(cfg))
  {
    hide IsRun, StateAfter, At;
    es := WentOnline(cfg);
    var k, q := FRESH_CONN, OnlinePort(cfg, Reading, []);
    assert Flat<byte>([]) == [] && Last<byte>(cfg.ringSize, []) == [];
    ConnRuns(cfg, es, ONE_WORKER, k, q, AskOpen(WRITE_REQ));
    es, k := es + [OnConn(0, AskOpen(WRITE_REQ))], k.(reader := Resolving(WRITE_REQ));
    ResolveRuns(cfg, es, ONE_WORKER, k, q);
    es, k := es + [ResolveTo(0, 0)], k.(reader := OpenWait(0, WRITE_REQ));
    PairRuns(cfg, es, ONE_WORKER, k, q, OpenLock);
    es, k := es + [OnPair(0, 0, OpenLock)], k.(reader := OpenHold(0, WRITE_REQ, [], 0, false));
    q := q.(lock := Some(ByReader(0)));
    PairRuns(cfg, es, ONE_WORKER, k, q, OpenFinish);
    es := es + [OnPair(0, 0, OpenFinish)];
    assert {} + {0} == {0} && k.past + k.got == [];
  }

  /** Close, when it waits for the worker. */
  const WAITING := ONE_WORKER.(closed := true, closer := Waiting({0}))

  function ShutPort(cfg: Config, w: Worker): (q: Port) {
    OpenPort(cfg).(sp := None, online := false, worker := w)
  }

  lemma CloseKillsOne(cfg: Config, m: Mgr, k: Conn, q: Port)
    requires !k.reader.Exited? && !m.closed
    ensures MgrDo(cfg, Small(m, k, q), CloseBegin).m == m.(closed := true, closer := Killing({0}, {0}))
  {
    var closer := MgrDo(cfg, Small(m, k, q), CloseBegin).m.closer;
    assert closer.todo == {0};
    assert closer.ports == {0};
  }

  lemma CloseBegan(cfg: Config) returns (es: seq<Event>)
    ensures IsRun(cfg, INIT, es)
    ensures At(Reached(cfg, es), WAITING, OPENING.(done := true), ShutPort(cfg, Reading))
  {
    hide IsRun, StateAfter, At;
    es := GotTheLog(cfg);
    var m, k, q := ONE_WORKER, OPENING, OpenPort(cfg);
    MgrRuns(cfg, es, m, k, q, CloseBegin);
    CloseKillsOne(cfg, m, k, q);
    es, m := es + [OnMgr(CloseBegin)], m.(closed := true, closer := Killing({0}, {0}));
    CloserKillRuns(cfg, es, m, k, q);
    es, k, m := es + [CloserKills(0)], k.(done := true), m.(closer := Killing({0} - {0}, {0}));
    MgrRuns(cfg, es, m, k, q, KillsDone);
    es, m := es + [OnMgr(KillsDone)], m.(closer := Shutting({0}, {0}));
    PortRuns(cfg, es, m, k, q, CloserShuts);
    es, m := es + [OnPort(0, CloserShuts)], m.(closer := Shutting({0} - {0}, {0}));
    q := ShutPort(cfg, Reading);
    MgrRuns(cfg, es, m, k, q, ShutsDone);
    es := es + [OnMgr(ShutsDone)];
  }

  /** The port when its worker has written the last line. */
  function StoppedPort(cfg: Config, w: Worker): (q: Port) {
    ShutPort(cfg, w).(logOpen := false, stopNotes := 1, lines := [Went(true), CaptureStopped])
  }

  lemma WorkerStopped(cfg: Config) returns (es: seq<Event>)
    ensures IsRun(cfg, INIT, es)
    ensures At(Reached(cfg, es), WAITING, OPENING.(done := true), StoppedPort(cfg, Finishing))
  {
    hide IsRun, StateAfter, At;
    es := CloseBegan(cfg);
    var m, k := WAITING, OPENING.(done := true);
    PortRuns(cfg, es, m, k, ShutPort(cfg, Reading), Got([], true));
    es := es + [OnPort(0, Got([], true))];
    PortRuns(cfg, es, m, k, ShutPort(cfg, AfterRead(true)), EndRead);
    es := es + [OnPort(0, EndRead)];
    PortRuns(cfg, es, m, k, ShutPort(cfg, CloseDevice), ClearDevice);
    es := es + [OnPort(0, ClearDevice)];
    PortRuns(cfg, es, m, k, ShutPort(cfg, AfterClear), LookAgain);
    es := es + [OnPort(0, LookAgain)];
    PortRuns(cfg, es, m, k, ShutPort(cfg, Release), TakeLog);
    es := es + [OnPort(0, TakeLog)];
    PortRuns(cfg, es, m, k, ShutPort(cfg, ReleaseNote(true)).(logOpen := false), NoteStopped);
    es := es + [OnPort(0, NoteStopped)];
    assert [Went(true)] + [CaptureStopped] == [Went(true), CaptureStopped];
  }

  const CLOSED := WAITING.(wg := 0, closer := Closed({0}))

  lemma CloseReturned(cfg: Config) returns (es: seq<Event>)
    ensures IsRun(cfg, INIT, es)
    ensures At(Reached(cfg, es), CLOSED, OPENING.(done := true), StoppedPort(cfg, Gone))
  {
    hide IsRun, StateAfter, At;
    es := WorkerStopped(cfg);
    var m, k, q := WAITING, OPENING.(done := true), StoppedPort(cfg, Gone);
    PortRuns(cfg, es, m, k, StoppedPort(cfg, Finishing), Finish);
    es, m := es + [OnPort(0, Finish)], m.(wg := 0);
    MgrRuns(cfg, es, m, k, q, WaitDone);
    es, m := es + [OnMgr(WaitDone)], m.(closer := Releasing({0}, {0}));
    PortRuns(cfg, es, m, k, q, CloserReleases);
    es, m := es + [OnPort(0, CloserReleases)], m.(closer := Noting(0, false, {0} - {0}, {0}));
    PortRuns(cfg, es, m, k, q, CloserNotes);
    es, m := es + [OnPort(0, CloserNotes)], m.(closer := Releasing({0} - {0}, {0}));
    assert [Went(true), CaptureStopped] + [] == [Went(true), CaptureStopped];
    MgrRuns(cfg, es, m, k, q, ReleasesDone);
    es := es + [OnMgr(ReleasesDone)];
  }

  lemma AtIs(s: State, m: Mgr, k: Conn, q: Port)
    requires At(s, m, k, q)
    ensures s.m == m && 0 in s.ports && s.ports[0] == q
  {
  }

  /** Close has returned, and only then the client, killed meanwhile, writes that it has
      acquired the port: the last line of the log is not "capture stopped". */
  lemma SomeLineFollowsCaptureStopped(cfg: Config) returns (es: seq<Event>)
    ensures IsRun(cfg, INIT, es)
    ensures var s := Reached(cfg, es);
            s.m.closer.Closed? && 0 in s.ports && s.ports[0].lines == [Went(true), CaptureStopped, Says(0)]
  {
    hide IsRun, StateAfter, At;
    es := CloseReturned(cfg);
    var k, q := OPENING.(done := true), StoppedPort(cfg, Gone);
    ConnRuns(cfg, es, CLOSED, k, q, CommitOpen);
    es := es + [OnConn(0, CommitOpen)];
    k := k.(port := Some(0), writable := true, reader := OpenEnsure(0, true));
    PairRuns(cfg, es, CLOSED, k, q, EnsureByOpen);
    es, k := es + [OnPair(0, 0, EnsureByOpen)], k.(reader := LineDue(0, true, Joined));
    PairRuns(cfg, es, CLOSED, k, q, SayNote);
    es, k := es + [OnPair(0, 0, SayNote)], k.(reader := Sending);
    q := q.(lines := [Went(true), CaptureStopped] + [Says(0)]);
    assert [Went(true), CaptureStopped] + [Says(0)] == [Went(true), CaptureStopped, Says(0)];
    AtIs(Reached(cfg, es), CLOSED, k, q);
  }
}
