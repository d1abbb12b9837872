/** The hub's mutexes: every goroutine as the sequence of lock operations its code
    performs, any number of goroutines interleaved at will. The order manager,
    port, ring is kept everywhere, so no set of them can wait on each other. */
module Locks {
  import opened Prelude

  /** Manager.mu, Port.mu, ring.mu, Conn.once (whoever comes second waits for the first
      to be done), Conn.mu, portlog.Writer.mu and audit.Logger.mu. */
  datatype Lock = M | P(port: nat) | R(port: nat) | Once(conn: nat) | C(conn: nat) | W(port: nat) | Audit

  /** `Block` is anything that waits on somebody else: a queue send, client or device
      I/O, wg.Wait. `Shut` closes c.done or the client's stream, which waits for nobody. */
  datatype Op = Acq(l: Lock) | Rel(l: Lock) | Block | Shut

  function Level(l: Lock): (n: nat) {
    match l case M => 0 case P(_) => 1 case R(_) => 2 case Once(_) => 3 case C(_) => 4 case W(_) => 5 case Audit => 6
  }

  datatype Dev = KnownPort(p: nat) | NewPort(p: nat)

  /** The code paths of the hub, cut where they hold no lock. */
  datatype Path =
    | MgrSection                 // ServeConn, shutdown, Close, Ports, Resolve, Start, ScanErr
    | Sync(devs: seq<Dev>)
    | EnsureWorker(p: nat)
    | PortSection(p: nat)        // detach, goOnline, goOffline, write, release, ...
    | FanSection(p: nat, drops: seq<nat>)         // fanout, which kills slow clients inside p.mu
    | OpenSection(p: nat, drop: Option<nat>)      // handleOpen: the ring's copy and an enqueue inside p.mu
    | Kill(c: nat)               // writeLoop, the watchdog, Close
    | Teardown(c: nat)           // Conn.shutdown: done, then the stream
    | RingWrite(p: nat)
    | ConnSection(c: nat)        // handleOpen, detach, handleInput, handleBreak, status
    | LogSection(p: nat)         // every method of the log writer
    | AuditSection               // every method of the audit logger
    | Wait                       // send, reads and writes on client and device, wg.Wait

  /** Sync's loop body: an old port is updated, a new one's log is described. */
  function DevOps(devs: seq<Dev>): (r: seq<Op>) {
    if devs == [] then []
    else
      (match devs[0]
       case KnownPort(p) => [Acq(P(p)), Rel(P(p))]
       case NewPort(p) => [Acq(W(p)), Rel(W(p))]) + DevOps(devs[1..])
  }

  /** kill (conn.go:448-453). */
  function KillOps(c: nat): (r: seq<Op>) { [Acq(Once(c)), Shut, Rel(Once(c))] }

  function DropOps(drops: seq<nat>): (r: seq<Op>) {
    if drops == [] then [] else KillOps(drops[0]) + DropOps(drops[1..])
  }

  function Script(f: Path): (r: seq<Op>) {
    match f
    case MgrSection => [Acq(M), Rel(M)]
    case Sync(devs) => [Acq(M)] + (DevOps(devs) + [Rel(M)])
    case EnsureWorker(p) => [Acq(M), Acq(P(p)), Rel(P(p)), Rel(M)]
    case PortSection(p) => [Acq(P(p)), Rel(P(p))]
    case FanSection(p, drops) => [Acq(P(p))] + (DropOps(drops) + [Rel(P(p))])
    case OpenSection(p, drop) =>
      [Acq(P(p)), Acq(R(p)), Rel(R(p))] + (DropOps(if drop.Some? then [drop.value] else []) + [Rel(P(p))])
    case Kill(c) => KillOps(c)
    case Teardown(c) => KillOps(c) + [Shut]
    case RingWrite(p) => [Acq(R(p)), Rel(R(p))]
    case ConnSection(c) => [Acq(C(c)), Rel(C(c))]
    case LogSection(p) => [Acq(W(p)), Rel(W(p))]
    case AuditSection => [Acq(Audit), Rel(Audit)]
    case Wait => [Block]
  }

  /** Locks are taken in rising order, c.mu only on its own, and nothing blocks while
      a lock is held; everything taken is released. */
  predicate Disciplined(held: set<Lock>, ops: seq<Op>)
    decreases |ops|
  {
    if ops == [] then held == {}
    else match ops[0]
      case Acq(l) =>
        && (forall h | h in held :: Level(h) < Level(l) && !h.C?)
        && (l.C? ==> held == {})
        && Disciplined(held + {l}, ops[1..])
      case Rel(l) => l in held && Disciplined(held - {l}, ops[1..])
      case Block => held == {} && Disciplined(held, ops[1..])
      case Shut => Disciplined(held, ops[1..])
  }

  lemma LastRelease(l: Lock)
    ensures Disciplined({l}, [Rel(l)])
  {
    assert {l} - {l} == {} && [Rel(l)][1..] == [];
  }

  /** A kill fits in wherever the locks held are below a once. */
  lemma KillDisciplined(held: set<Lock>, c: nat, rest: seq<Op>)
    requires Disciplined(held, rest) && forall h | h in held :: Level(h) < Level(Once(c))
    ensures Disciplined(held, KillOps(c) + rest)
  {
    var l := Once(c);
    var ops := KillOps(c) + rest;
    assert ops == [Acq(l), Shut, Rel(l)] + rest;
    assert ops[1..] == [Shut, Rel(l)] + rest && ops[1..][1..] == [Rel(l)] + rest && ops[1..][1..][1..] == rest;
    assert held + {l} - {l} == held;
    assert Disciplined(held + {l}, [Rel(l)] + rest);
    assert Disciplined(held + {l}, [Shut, Rel(l)] + rest);
  }

  lemma {:induction false} DropOpsDisciplined(p: nat, drops: seq<nat>)
    ensures Disciplined({P(p)}, DropOps(drops) + [Rel(P(p))])
    decreases |drops|
  {
    hide Disciplined;
    if drops == [] {
      assert DropOps(drops) + [Rel(P(p))] == [Rel(P(p))];
      LastRelease(P(p));
    } else {
      var rest := DropOps(drops[1..]) + [Rel(P(p))];
      DropOpsDisciplined(p, drops[1..]);
      assert DropOps(drops) + [Rel(P(p))] == KillOps(drops[0]) + rest;
      KillDisciplined({P(p)}, drops[0], rest);
    }
  }

  lemma InnerPairDisciplined(held: set<Lock>, l: Lock, rest: seq<Op>)
    requires Disciplined(held, rest) && !l.C? && forall h | h in held :: Level(h) < Level(l) && !h.C?
    ensures Disciplined(held, [Acq(l), Rel(l)] + rest)
  {
    var ops := [Acq(l), Rel(l)] + rest;
    assert ops[1..] == [Rel(l)] + rest && ops[1..][1..] == rest;
    assert held + {l} - {l} == held;
    assert Disciplined(held + {l}, [Rel(l)] + rest);
  }

  lemma {:induction false} DevOpsDisciplined(devs: seq<Dev>)
    ensures Disciplined({M}, DevOps(devs) + [Rel(M)])
    decreases |devs|
  {
    hide Disciplined;
    if devs == [] {
      assert DevOps(devs) + [Rel(M)] == [Rel(M)];
      LastRelease(M);
    } else {
      var l := if devs[0].KnownPort? then P(devs[0].p) else W(devs[0].p);
      var rest := DevOps(devs[1..]) + [Rel(M)];
      DevOpsDisciplined(devs[1..]);
      assert DevOps(devs) + [Rel(M)] == [Acq(l), Rel(l)] + rest;
      InnerPairDisciplined({M}, l, rest);
    }
  }

  lemma PairDisciplined(l: Lock)
    ensures Disciplined({}, [Acq(l), Rel(l)])
  {
    assert [Acq(l), Rel(l)][1..] == [Rel(l)] && [Rel(l)][1..] == [];
    assert {} + {l} - {l} == {};
  }

  lemma NestDisciplined(a: Lock, b: Lock)
    requires Level(a) < Level(b) && !a.C? && !b.C?
    ensures Disciplined({}, [Acq(a), Acq(b), Rel(b), Rel(a)])
  {
    assert [Acq(a), Acq(b), Rel(b), Rel(a)][1..] == [Acq(b), Rel(b), Rel(a)];
    assert [Acq(b), Rel(b), Rel(a)][1..] == [Rel(b), Rel(a)];
    assert [Rel(b), Rel(a)][1..] == [Rel(a)] && [Rel(a)][1..] == [];
    assert {} + {a} == {a} && {a} + {b} - {b} == {a} && {a} - {a} == {};
    assert Disciplined({a}, [Rel(a)]);
    assert Disciplined({a} + {b}, [Rel(b), Rel(a)]);
    assert Disciplined({a}, [Acq(b), Rel(b), Rel(a)]);
  }

  lemma OpenDisciplined(p: nat, drop: Option<nat>)
    ensures Disciplined({}, Script(OpenSection(p, drop)))
  {
    var drops := if drop.Some? then [drop.value] else [];
    var rest := DropOps(drops) + [Rel(P(p))];
    var a, b := P(p), R(p);
    DropOpsDisciplined(p, drops);
    var ops := [Acq(a), Acq(b), Rel(b)] + rest;
    assert ops[1..] == [Acq(b), Rel(b)] + rest && ops[1..][1..] == [Rel(b)] + rest && ops[1..][1..][1..] == rest;
    assert {} + {a} == {a} && {a} + {b} - {b} == {a};
    assert Disciplined({a} + {b}, [Rel(b)] + rest);
    assert Disciplined({a}, [Acq(b), Rel(b)] + rest);
  }

  /** Every code path of the hub keeps the discipline. */
  lemma ScriptsAreDisciplined(f: Path)
    ensures Disciplined({}, Script(f))
  {
    match f
    case MgrSection => PairDisciplined(M);
    case Sync(devs) =>
      DevOpsDisciplined(devs);
      assert Script(f)[1..] == DevOps(devs) + [Rel(M)] && {} + {M} == {M};
    case EnsureWorker(p) => NestDisciplined(M, P(p));
    case PortSection(p) => PairDisciplined(P(p));
    case FanSection(p, drops) =>
      DropOpsDisciplined(p, drops);
      assert Script(f)[1..] == DropOps(drops) + [Rel(P(p))] && {} + {P(p)} == {P(p)};
    case OpenSection(p, drop) => OpenDisciplined(p, drop);
    case Kill(c) =>
      KillDisciplined({}, c, []);
      assert KillOps(c) + [] == KillOps(c);
    case Teardown(c) => KillDisciplined({}, c, [Shut]) by { assert [Shut][1..] == []; }
    case RingWrite(p) => PairDisciplined(R(p));
    case ConnSection(c) => PairDisciplined(C(c));
    case LogSection(p) => PairDisciplined(W(p));
    case AuditSection => PairDisciplined(Audit);
    case Wait => assert [Block][1..] == [];
  }

  // ---------------------------------------------------------------- goroutines

  /** A goroutine: the locks it holds and what is left of its current path. */
  datatype Routine = Routine(held: set<Lock>, todo: seq<Op>)

  type State = map<nat, Routine>

  datatype Event = Spawn(t: nat) | Enter(t: nat, f: Path) | Step(t: nat)

  ghost predicate Free(s: State, l: Lock) { forall u | u in s :: l !in s[u].held }

  ghost predicate CanStep(s: State, t: nat) {
    t in s && s[t].todo != [] && (s[t].todo[0].Acq? ==> Free(s, s[t].todo[0].l))
  }

  ghost predicate Can(s: State, e: Event) {
    match e
    case Spawn(t) => t !in s
    case Enter(t, f) => t in s && s[t].todo == []
    case Step(t) => CanStep(s, t)
  }

  function Advance(r: Routine): (n: Routine)
    requires r.todo != []
  {
    match r.todo[0]
    case Acq(l) => Routine(r.held + {l}, r.todo[1..])
    case Rel(l) => Routine(r.held - {l}, r.todo[1..])
    case Block => Routine(r.held, r.todo[1..])
    case Shut => Routine(r.held, r.todo[1..])
  }

  ghost function Do(s: State, e: Event): (r: State)
    requires Can(s, e)
  {
    match e
    case Spawn(t) => s[t := Routine({}, [])]
    case Enter(t, f) => s[t := s[t].(todo := Script(f))]
    case Step(t) => s[t := Advance(s[t])]
  }

  ghost predicate IsRun(es: seq<Event>)
    decreases |es|, 0
  {
    es == [] || (IsRun(es[..|es| - 1]) && Can(Reached(es[..|es| - 1]), es[|es| - 1]))
  }

  ghost function Reached(es: seq<Event>): (s: State)
    requires IsRun(es)
    decreases |es|, 1
  {
    if es == [] then map[] else Do(Reached(es[..|es| - 1]), es[|es| - 1])
  }

  /** Everyone is disciplined, and no lock is held twice. */
  ghost predicate Inv(s: State) {
    && (forall t | t in s :: Disciplined(s[t].held, s[t].todo))
    && (forall t, u | t in s && u in s && t != u :: s[t].held !! s[u].held)
  }

  lemma AdvanceKeepsInv(s: State, t: nat)
    requires Inv(s) && CanStep(s, t)
    ensures Inv(s[t := Advance(s[t])])
  {
    var r := s[t];
    assert Disciplined(r.held, r.todo) && Disciplined(Advance(r).held, Advance(r).todo);
    hide Disciplined;
    forall u | u in s && u != t ensures Advance(r).held !! s[u].held {
      assert r.held !! s[u].held;
    }
  }

  lemma StepKeepsInv(s: State, e: Event)
    requires Inv(s) && Can(s, e)
    ensures Inv(Do(s, e))
  {
    match e
    case Spawn(t) => assert Disciplined({}, []);
    case Enter(t, f) =>
      ScriptsAreDisciplined(f);
      assert Disciplined(s[t].held, s[t].todo);
    case Step(t) => AdvanceKeepsInv(s, t);
  }

  lemma NobodyIsFine()
    ensures Inv(map[])
  {
  }

  lemma {:induction false} ReachedInv(es: seq<Event>)
    requires IsRun(es)
    ensures Inv(Reached(es))
    decreases |es|
  {
    hide Inv, Do, Can;
    if es == [] {
      NobodyIsFine();
    } else {
      ReachedInv(es[..|es| - 1]);
      StepKeepsInv(Reached(es[..|es| - 1]), es[|es| - 1]);
    }
  }

  /** Goroutine t wants a lock that u holds. */
  ghost predicate WaitsFor(s: State, t: nat, u: nat) {
    t in s && u in s && s[t].todo != [] && s[t].todo[0].Acq? && s[t].todo[0].l in s[u].held
  }

  /** Waiting climbs: whoever u waits for is at a higher lock than the one t wants of u. */
  lemma WaitsClimb(s: State, t: nat, u: nat)
    requires Inv(s) && WaitsFor(s, t, u) && s[u].todo != [] && s[u].todo[0].Acq?
    ensures Level(s[t].todo[0].l) < Level(s[u].todo[0].l)
  {
  }

  ghost predicate Chain(s: State, ts: seq<nat>) {
    forall i | 0 <= i < |ts| - 1 :: WaitsFor(s, ts[i], ts[i + 1])
  }

  lemma {:induction false} ChainClimbs(s: State, ts: seq<nat>)
    requires Inv(s) && |ts| >= 3 && Chain(s, ts)
    ensures ts[0] in s && ts[|ts| - 2] in s && s[ts[0]].todo != [] && s[ts[|ts| - 2]].todo != []
    ensures s[ts[0]].todo[0].Acq? && s[ts[|ts| - 2]].todo[0].Acq?
    ensures Level(s[ts[0]].todo[0].l) < Level(s[ts[|ts| - 2]].todo[0].l)
    decreases |ts|
  {
    assert WaitsFor(s, ts[0], ts[1]) && WaitsFor(s, ts[1], ts[2]);
    WaitsClimb(s, ts[0], ts[1]);
    if |ts| > 3 {
      forall i | 0 <= i < |ts[1..]| - 1 ensures WaitsFor(s, ts[1..][i], ts[1..][i + 1]) {
        assert WaitsFor(s, ts[i + 1], ts[i + 2]);
      }
      ChainClimbs(s, ts[1..]);
    }
  }

  /** No deadlock: in no reachable state does a chain of waits close on itself. */
  lemma NoCircularWait(es: seq<Event>, ts: seq<nat>)
    requires IsRun(es) && |ts| >= 2 && Chain(Reached(es), ts)
    ensures ts[0] != ts[|ts| - 1]
  {
    var s := Reached(es);
    ReachedInv(es);
    var n := |ts|;
    assert WaitsFor(s, ts[0], ts[1]) && WaitsFor(s, ts[n - 2], ts[n - 1]);
    if ts[0] == ts[n - 1] {
      WaitsClimb(s, ts[n - 2], ts[0]);
      if n > 2 { ChainClimbs(s, ts); }
      assert false;
    }
  }

  /** And some goroutine at the end of the chain that starts at t can go on. */
  lemma {:induction false} SomebodyCanGoOn(es: seq<Event>, t: nat) returns (ts: seq<nat>)
    requires IsRun(es) && t in Reached(es) && Reached(es)[t].todo != []
    ensures |ts| >= 1 && ts[0] == t && Chain(Reached(es), ts) && CanStep(Reached(es), ts[|ts| - 1])
    decreases 7 - (if Reached(es)[t].todo[0].Acq? then Level(Reached(es)[t].todo[0].l) else 7)
  {
    var s := Reached(es);
    ReachedInv(es);
    if CanStep(s, t) { return [t]; }
    var l := s[t].todo[0].l;
    var u :| u in s && l in s[u].held;
    assert Disciplined(s[u].held, s[u].todo);
    assert WaitsFor(s, t, u);
    if s[u].todo[0].Acq? { WaitsClimb(s, t, u); }
    var rest := SomebodyCanGoOn(es, u);
    ts := [t] + rest;
    forall i | 0 <= i < |ts| - 1 ensures WaitsFor(s, ts[i], ts[i + 1]) {
      if i > 0 { assert WaitsFor(s, rest[i - 1], rest[i]); }
    }
  }

  /** No goroutine blocks, or holds another hub lock beside a c.mu, in any reachable state. */
  lemma NothingBlocksUnderALock(es: seq<Event>, t: nat)
    requires IsRun(es) && t in Reached(es)
    ensures var r := Reached(es)[t];
            && (r.todo != [] && r.todo[0].Block? ==> r.held == {})
            && (r.todo != [] && r.todo[0].Acq? ==> (r.todo[0].l.C? ==> r.held == {}) && forall c :: C(c) !in r.held)
  {
    ReachedInv(es);
  }
}
