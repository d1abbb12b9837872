/** What a call of the log writer has done when it returns: when it fails, what is on disk
    when it has not, and whose name the headers carry. */
module PortLogCalls {
  import opened Prelude
  import opened PortLog
  import opened PortLogTheorems
  import H = PortLogHeaders
  import T = PortLogTimes

  // ------------------------------------------------------------------ when a call fails

  /** None of the file operations from lo on and below hi failed. */
  ghost predicate NoFaultIn(e: World, lo: nat, hi: nat) { forall j: nat :: lo <= j < hi ==> e.fault(j).None? }

  lemma OpeningFails(e: World, w: Log, d: Day)
    ensures var r := OpenDay(e, w, d);
            && w.ops < r.w.ops <= w.ops + 2 && r.w.failed == w.failed && (r.ok <==> NoFaultIn(e, w.ops, r.w.ops))
  {
  }

  lemma EnsureFails(e: World, w: Log)
    ensures var r := Ensure(e, w);
            && w.ops <= r.w.ops && r.w.failed == w.failed && (r.ok <==> NoFaultIn(e, w.ops, r.w.ops))
  {
    hide OpenDay;
    OpeningFails(e, w.(ticks := w.ticks + 1), e.day(e.clock(w.ticks)));
  }

  lemma FaultsJoin(e: World, lo: nat, mid: nat, hi: nat)
    requires lo <= mid <= hi
    ensures NoFaultIn(e, lo, hi) <==> NoFaultIn(e, lo, mid) && NoFaultIn(e, mid, hi)
  {
  }

  lemma OneFault(e: World, j: nat)
    ensures NoFaultIn(e, j, j + 1) <==> e.fault(j).None?
  {
  }

  lemma FlushFails(e: World, w: Log)
    ensures var r := FlushBuf(e, w);
            && w.ops <= r.w.ops && r.w.failed == w.failed && (r.ok <==> NoFaultIn(e, w.ops, r.w.ops))
  {
    hide Ensure, NoFaultIn;
    EnsureFails(e, w);
    var m := Ensure(e, w).w;
    OneFault(e, m.ops);
    FaultsJoin(e, w.ops, m.ops, m.ops + 1);
  }

  lemma NoOps(e: World, j: nat)
    ensures NoFaultIn(e, j, j)
  {
  }

  lemma NoteFails(e: World, w: Log, text: string)
    ensures var r := AddNote(e, w, text);
            && w.ops <= r.w.ops && r.w.failed == w.failed
            && (r.ok <==> !w.failed && NoFaultIn(e, w.ops, r.w.ops))
  {
    hide FlushBuf, NoFaultIn;
    var w1 := if w.buf == [] then w else FlushBuf(e, w).w;
    var w2 := w1.(buf := w1.buf + [Note(e.clock(w1.ticks), text)], ticks := w1.ticks + 1, atBol := true);
    FlushFails(e, w);
    FlushFails(e, w2);
    NoOps(e, w.ops);
    FaultsJoin(e, w.ops, w1.ops, FlushBuf(e, w2).w.ops);
  }

  lemma CloseFails(e: World, w: Log)
    ensures var r := CloseLog(e, w);
            w.ops <= r.w.ops && r.w.failed == w.failed && (r.ok <==> NoFaultIn(e, w.ops, r.w.ops))
  {
    hide FlushBuf, NoFaultIn;
    FlushFails(e, w);
    NoOps(e, w.ops);
    var w1 := if w.buf != [] && !w.failed then FlushBuf(e, w).w else w;
    OneFault(e, w1.ops);
    FaultsJoin(e, w.ops, w1.ops, w1.ops + 1);
  }

  lemma WriteFails(e: World, w: Log, p: bytes)
    ensures var r := WriteTo(e, w, p);
            && w.ops <= r.w.ops && (r.w.failed <==> w.failed || !r.ok)
            && (r.ok <==> !w.failed && NoFaultIn(e, w.ops, r.w.ops))
  {
    hide FlushBuf, FeedAll, NoFaultIn, Size;
    var w1 := w.(total := w.total + |p|);
    T.FeedReads(e, w1, p);
    FlushFails(e, FeedAll(e, w1, p));
    NoOps(e, w.ops);
  }

  /** A call reports an error exactly if one of its file operations failed, or a Write has
      failed before; only Close goes on as if that had not been. And the log has failed
      from then on exactly if a Write has reported one. */
  lemma CallFailsIff(e: World, w: Log, op: Op)
    ensures var r := Apply(e, w, op);
            && w.ops <= r.w.ops
            && (r.ok <==> NoFaultIn(e, w.ops, r.w.ops) && !(w.failed && (op.Write? || op.MakeNote? || op.DoFlush?)))
            && (r.w.failed <==> w.failed || (op.Write? && !r.ok))
  {
    hide FlushBuf, WriteTo, AddNote, CloseLog, NoFaultIn;
    NoOps(e, w.ops);
    match op
    case Write(p) => WriteFails(e, w, p);
    case MakeNote(text) => NoteFails(e, w, text);
    case DoFlush => FlushFails(e, w);
    case DoClose => CloseFails(e, w);
    case Describe(_, _) =>
  }

  // ------------------------------------------------------------------- what is on disk

  /** Calls that leave nothing behind in the buffer when they succeed. */
  predicate Syncs(op: Op) { op.DoFlush? || op.DoClose? || op.MakeNote? || (op.Write? && NEWLINE in op.p) }

  lemma SyncEmpties(e: World, w: Log, op: Op)
    requires Syncs(op) && !w.failed && Apply(e, w, op).ok
    ensures Apply(e, w, op).w.buf == [] && (op.DoClose? ==> !Apply(e, w, op).w.open)
  {
    hide FlushBuf, FeedAll, Size;
    FlushEmpties(e, w);
    match op
    case Write(p) => FlushEmpties(e, FeedAll(e, w.(total := w.total + |p|), p));
    case MakeNote(text) =>
      var w1 := if w.buf == [] then w else FlushBuf(e, w).w;
      FlushEmpties(e, w1.(buf := w1.buf + [Note(e.clock(w1.ticks), text)], ticks := w1.ticks + 1, atBol := true));
    case _ =>
  }

  /** When a flush, a close, a note or the end of a line has gone through, all that was
      ever written is in the files, not only in memory. */
  lemma WhatWasWrittenIsOnDisk(e: World, stamp: bool, files: map<Day, seq<Item>>, ops: seq<Op>)
    requires NoFaults(e) && Steady(e) && UpToDate(e, FreshLog(stamp, files))
    requires ops != [] && Syncs(ops[|ops| - 1])
    ensures var n, w := Horizon(e, ops), ApplyAll(e, FreshLog(stamp, files), ops);
            w.buf == [] && BytesOf(Marks(Cat(w.files, n))) == BytesOf(Marks(Cat(files, n))) + Written(ops)
  {
    hide NoFaults, Steady, Apply, Syncs;
    var n, front := Horizon(e, ops), ops[..|ops| - 1];
    NoByteIsLostOrMoved(e, stamp, files, ops);
    FaultlessIsUntroubled(e, FreshLog(stamp, files), front);
    FaultlessCall(e, ApplyAll(e, FreshLog(stamp, files), front), ops[|ops| - 1]);
    SyncEmpties(e, ApplyAll(e, FreshLog(stamp, files), front), ops[|ops| - 1]);
    var w := ApplyAll(e, FreshLog(stamp, files), ops);
    assert Cat(w.files, n) + [] == Cat(w.files, n);
  }

  // ------------------------------------------------------------- when a write goes to disk

  lemma SizeAppend(items: seq<Item>, x: Item)
    ensures Size(items + [x]) == Size(items) + Width(x)
  {
    assert (items + [x])[..|items|] == items;
  }

  /** What a write that ends no line adds to the buffer, in bytes: itself, and a stamp if it
      begins a line. */
  function Grown(w: Log, p: bytes): (n: nat) {
    Size(w.buf) + |p| + if w.stamp && w.atBol && p != [] then 24 else 0
  }

  lemma Widths(t: nat, b: byte)
    ensures Width(Stamp(t)) == 24 && Width(Byte(b)) == 1
  {
  }

  lemma {:induction false} FeedGrows(e: World, w: Log, p: bytes)
    requires NEWLINE !in p
    ensures var r := FeedAll(e, w, p);
            Size(r.buf) == Grown(w, p) && r.stamp == w.stamp && (r.atBol <==> w.atBol && p == [])
    decreases |p|
  {
    hide Size, Width;
    if p != [] {
      var m, b := FeedAll(e, w, p[..|p| - 1]), p[|p| - 1];
      FeedGrows(e, w, p[..|p| - 1]);
      var stamp := Stamp(e.clock(m.ticks));
      SizeAppend(m.buf, stamp);
      SizeAppend(m.buf + [stamp], Byte(b));
      SizeAppend(m.buf, Byte(b));
      Widths(stamp.t, b);
    }
  }

  lemma {:induction false} FeedFills(e: World, w: Log, p: bytes)
    ensures |FeedAll(e, w, p).buf| >= |w.buf| + |p|
    decreases |p|
  {
    if p != [] { FeedFills(e, w, p[..|p| - 1]); }
  }

  lemma FlushOperates(e: World, w: Log)
    requires w.buf != []
    ensures FlushBuf(e, w).w.ops > w.ops
  {
    hide OpenDay;
    OpeningFails(e, w.(ticks := w.ticks + 1), e.day(e.clock(w.ticks)));
    H.OpenDayOpens(e, w.(ticks := w.ticks + 1), e.day(e.clock(w.ticks)));
  }

  lemma NothingIsSmall()
    ensures Size([]) < FLUSH_AT
  {
  }

  lemma OperatesIffFlushes(e: World, w: Log, p: bytes)
    requires !w.failed
    ensures var r, fed := WriteTo(e, w, p).w, FeedAll(e, w.(total := w.total + |p|), p);
            && (r.ops > w.ops <==> NEWLINE in p || Size(fed.buf) >= FLUSH_AT)
            && (r.ops == w.ops ==> r.files == w.files)
  {
    hide FlushBuf, FeedAll, Size;
    var w1 := w.(total := w.total + |p|);
    T.FeedReads(e, w1, p);
    FeedFills(e, w1, p);
    NothingIsSmall();
    if FeedAll(e, w1, p).buf != [] { FlushOperates(e, FeedAll(e, w1, p)); }
  }

  /** A Write goes to disk exactly if it ends a line or fills the buffer; else it touches no
      file. */
  lemma WriteGoesToDiskIff(e: World, w: Log, p: bytes)
    requires !w.failed
    ensures var r := WriteTo(e, w, p).w;
            && (r.ops > w.ops <==> NEWLINE in p || Grown(w, p) >= FLUSH_AT)
            && (r.ops == w.ops ==> r.files == w.files)
  {
    hide WriteTo, FeedAll, Size;
    OperatesIffFlushes(e, w, p);
    if NEWLINE !in p { FeedGrows(e, w.(total := w.total + |p|), p); }
  }

  // ------------------------------------------------------------------- whose log it is

  lemma DeviceStays(e: World, w: Log, op: Op)
    requires !op.Describe?
    ensures Apply(e, w, op).w.dev == w.dev && Apply(e, w, op).w.baud == w.baud
  {
    hide FlushBuf, FeedAll, Size;
    T.FlushAdds(e, w);
    match op
    case Write(p) =>
      var w1 := w.(total := w.total + |p|);
      T.FeedReads(e, w1, p);
      T.FlushAdds(e, FeedAll(e, w1, p));
    case MakeNote(text) =>
      var w1 := if w.buf == [] then w else FlushBuf(e, w).w;
      T.FlushAdds(e, w1.(buf := w1.buf + [Note(e.clock(w1.ticks), text)], ticks := w1.ticks + 1, atBol := true));
    case _ =>
  }

  /** What was in a file at first is still there, and headers behind it name this device. */
  ghost predicate NamedIn(before: seq<Item>, now: seq<Item>, dev: string, baud: int) {
    && before <= now
    && forall x | x in now[|before|..] && x.Header? :: x.dev == dev && x.baud == baud
  }

  ghost predicate Named(files: map<Day, seq<Item>>, w: Log, dev: string, baud: int) {
    && w.dev == dev && w.baud == baud
    && forall d :: NamedIn(FileOf(files, d), FileOf(w.files, d), dev, baud)
  }

  lemma NamedOn(a: seq<Item>, b: seq<Item>, c: seq<Item>, dev: string, baud: int)
    requires NamedIn(a, b, dev, baud) && NamedIn(b, c, dev, baud)
    ensures NamedIn(a, c, dev, baud)
  {
    assert c[|a|..] == b[|a|..] + c[|b|..];
    assert a == b[..|a|] && b == c[..|b|];
  }

  lemma CallNamesIn(e: World, w: Log, r: Log, d: Day)
    requires T.OfItsCall(e, w, r) && H.NoHeader(w.buf)
    ensures NamedIn(FileOf(w.files, d), FileOf(r.files, d), w.dev, w.baud)
  {
    hide T.ReadIn, T.DayIn;
    if d in r.files {
      forall x | x in r.files[d][|FileOf(w.files, d)|..] && x.Header? ensures x.dev == w.dev && x.baud == w.baud {
        assert T.New(e, w, r, x);
      }
    }
  }

  lemma CallKeepsNamed(e: World, files: map<Day, seq<Item>>, w: Log, op: Op, dev: string, baud: int)
    requires Named(files, w, dev, baud) && H.NoHeader(w.buf) && !op.Describe?
    ensures Named(files, Apply(e, w, op).w, dev, baud)
  {
    hide Apply, NamedIn, T.ReadIn, T.DayIn;
    var r := Apply(e, w, op).w;
    T.TimesAreOfTheirCall(e, w, op);
    DeviceStays(e, w, op);
    forall d ensures NamedIn(FileOf(files, d), FileOf(r.files, d), dev, baud) {
      CallNamesIn(e, w, r, d);
      NamedOn(FileOf(files, d), FileOf(w.files, d), FileOf(r.files, d), dev, baud);
    }
  }

  predicate NoneDescribes(ops: seq<Op>) { forall i | 0 <= i < |ops| :: !ops[i].Describe? }

  lemma DescribedIsNamed(files: map<Day, seq<Item>>, w: Log)
    requires w.files == files
    ensures Named(files, w, w.dev, w.baud)
  {
  }

  /** Every header a log writes names the device it was described with. */
  lemma {:induction false} HeadersNameTheDevice(e: World, stamp: bool, files: map<Day, seq<Item>>, dev: string,
                                                baud: int, ops: seq<Op>)
    requires NoneDescribes(ops)
    ensures Named(files, ApplyAll(e, FreshLog(stamp, files), [Describe(dev, baud)] + ops), dev, baud)
    decreases |ops|
  {
    hide Named;
    var start, all := FreshLog(stamp, files), [Describe(dev, baud)] + ops;
    if ops == [] {
      assert all[..0] == [] && all == [Describe(dev, baud)];
      DescribedIsNamed(files, start.(dev := dev, baud := baud));
    } else {
      hide Apply;
      var front := ops[..|ops| - 1];
      assert all[..|all| - 1] == [Describe(dev, baud)] + front;
      HeadersNameTheDevice(e, stamp, files, dev, baud, front);
      H.OneHeaderPerNewFile(e, stamp, files, all[..|all| - 1]);
      var w := ApplyAll(e, start, all[..|all| - 1]);
      H.HeadlessBuf(e, files, w);
      CallKeepsNamed(e, files, w, ops[|ops| - 1], dev, baud);
    }
  }
}
