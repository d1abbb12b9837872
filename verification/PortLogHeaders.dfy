/** The headers of the day files, for any clock and any pattern of file errors. */
module PortLogHeaders {
  import opened Prelude
  import opened PortLog

  predicate NoHeader(items: seq<Item>) { forall i | 0 <= i < |items| :: !items[i].Header? }

  /** The file of day d, empty at first: still empty if no header was tried, or nothing of
      it written; else one header, at its start, whole exactly if writing it did not fail. */
  predicate HeadedBy(e: World, tried: map<Day, nat>, d: Day, items: seq<Item>) {
    if d !in tried || e.fault(tried[d]) == Some(0) then items == []
    else items != [] && items[0].Header? && (items[0].whole <==> e.fault(tried[d]).None?) && NoHeader(items[1..])
  }

  /** A file that was there with contents got no header; any other is headed by the
      operation that tried it. */
  predicate WellHeaded(e: World, files: map<Day, seq<Item>>, w: Log) {
    && NoHeader(w.buf)
    && (w.open ==> FileOf(w.files, w.day) != [])
    && (forall d | d in w.files ::
          if FileOf(files, d) == [] then HeadedBy(e, w.tried, d, w.files[d])
          else FileOf(files, d) <= w.files[d] && NoHeader(w.files[d][|FileOf(files, d)|..]))
    && (forall d | d in files :: d in w.files)
    && (forall d | d in w.tried :: d in w.files && w.tried[d] < w.ops)
  }

  /** What opening the file of day d may do: nothing, or try a header if it is empty. */
  predicate Opens(e: World, w: Log, d: Day, w': Log) {
    || (w'.files == w.files && w'.tried == w.tried)
    || (FileOf(w.files, d) == []
        && d in w'.files && w'.files == w.files[d := w'.files[d]]
        && d in w'.tried && w'.tried == w.tried[d := w'.tried[d]] && w'.tried[d] < w'.ops
        && HeadedBy(e, w'.tried, d, w'.files[d]))
  }

  lemma EmptyFileOpens(e: World, w: Log, d: Day)
    requires FileOf(w.files, d) == [] && e.fault(w.ops).None?
    ensures var r := OpenDay(e, w, d);
            && r.w.files == w.files[d := HeaderLeft(Header(e.clock(w.ticks), w.dev, w.baud, true), e.fault(w.ops + 1))]
            && r.w.tried == w.tried[d := w.ops + 1] && HeadedBy(e, r.w.tried, d, r.w.files[d])
  {
    var left := HeaderLeft(Header(e.clock(w.ticks), w.dev, w.baud, true), e.fault(w.ops + 1));
    assert w.files[d := FileOf(w.files, d)][d := left] == w.files[d := left];
  }

  lemma OpenDayOpens(e: World, w: Log, d: Day)
    ensures var r := OpenDay(e, w, d);
            && r.w.buf == w.buf && r.ok == r.w.open && (r.ok ==> r.w.day == d && FileOf(r.w.files, d) != [])
            && r.w.ops >= w.ops && Opens(e, w, d, r.w)
  {
    if FileOf(w.files, d) != [] {
      assert w.files[d := FileOf(w.files, d)] == w.files;
    } else if e.fault(w.ops).None? {
      EmptyFileOpens(e, w, d);
    }
  }

  lemma FailedOpening(e: World, w: Log, d: Day)
    requires e.fault(w.ops).Some?
    ensures OpenDay(e, w, d).w.files == w.files
  {
  }

  /** So the first opening decides: the file gets a header unless the opening fails or
      none of the header is written, and a whole one unless writing it fails; it names
      the device and carries the next reading of the clock. */
  lemma OpeningDecides(e: World, w: Log)
    requires var d := e.day(e.clock(w.ticks)); FileOf(w.files, d) == [] && !(w.open && w.day == d)
    ensures var d, r := e.day(e.clock(w.ticks)), Ensure(e, w).w;
            && (FileOf(r.files, d) != [] <==> e.fault(w.ops).None? && e.fault(w.ops + 1) != Some(0))
            && (FileOf(r.files, d) != [] ==>
                r.files[d] == [Header(e.clock(w.ticks + 1), w.dev, w.baud, e.fault(w.ops + 1).None?)])
  {
    hide OpenDay;
    var d, w1 := e.day(e.clock(w.ticks)), w.(ticks := w.ticks + 1);
    if e.fault(w.ops).None? { EmptyFileOpens(e, w1, d); } else { FailedOpening(e, w1, d); }
  }

  lemma OpenedHeads(e: World, files: map<Day, seq<Item>>, w: Log, d: Day, w': Log)
    requires WellHeaded(e, files, w) && w'.buf == w.buf && w'.ops >= w.ops
    requires w'.open ==> FileOf(w'.files, w'.day) != []
    requires Opens(e, w, d, w')
    ensures WellHeaded(e, files, w')
  {
    hide NoHeader;
  }

  lemma EnsureHeads(e: World, files: map<Day, seq<Item>>, w: Log)
    requires WellHeaded(e, files, w)
    ensures var r := Ensure(e, w); WellHeaded(e, files, r.w) && (r.ok ==> r.w.open) && r.w.buf == w.buf
  {
    hide OpenDay, HeadedBy, NoHeader, Opens;
    var d, w1 := e.day(e.clock(w.ticks)), w.(ticks := w.ticks + 1);
    OpenDayOpens(e, w1, d);
    if !(w.open && w.day == d) { OpenedHeads(e, files, w1, d, OpenDay(e, w1, d).w); }
  }

  lemma TailGrows(items: seq<Item>, part: seq<Item>, k: nat)
    requires k <= |items| && NoHeader(items[k..]) && NoHeader(part)
    ensures NoHeader((items + part)[k..])
  {
    assert (items + part)[k..] == items[k..] + part;
  }

  lemma AppendHeads(e: World, files: map<Day, seq<Item>>, w: Log, part: seq<Item>, w': Log)
    requires WellHeaded(e, files, w) && w.open && NoHeader(part) && NoHeader(w'.buf) && w'.ops >= w.ops
    requires w'.files == w.files[w.day := FileOf(w.files, w.day) + part] && w'.open == w.open && w'.day == w.day
    requires w'.tried == w.tried
    ensures WellHeaded(e, files, w')
  {
    hide NoHeader;
    forall d | d in w'.files
      ensures if FileOf(files, d) == [] then HeadedBy(e, w'.tried, d, w'.files[d])
              else FileOf(files, d) <= w'.files[d] && NoHeader(w'.files[d][|FileOf(files, d)|..])
    {
      if d == w.day { TailGrows(FileOf(w.files, d), part, if FileOf(files, d) == [] then 1 else |FileOf(files, d)|); }
    }
  }

  lemma HeadlessBuf(e: World, files: map<Day, seq<Item>>, w: Log)
    requires WellHeaded(e, files, w)
    ensures NoHeader(w.buf)
  {
  }

  lemma FlushHeads(e: World, files: map<Day, seq<Item>>, w: Log)
    requires WellHeaded(e, files, w)
    ensures WellHeaded(e, files, FlushBuf(e, w).w) && (FlushBuf(e, w).ok ==> FlushBuf(e, w).w.buf == [])
  {
    hide Ensure, WellHeaded;
    EnsureHeads(e, files, w);
    var m := Ensure(e, w);
    if m.ok && m.w.buf != [] {
      var part := match e.fault(m.w.ops)
        case None => m.w.buf
        case Some(k) => if k <= |m.w.buf| then m.w.buf[..k] else m.w.buf;
      HeadlessBuf(e, files, m.w);
      AppendHeads(e, files, m.w, part, FlushBuf(e, w).w);
    }
  }

  /** What the header theorem says of a log does not depend on the rest of its fields. */
  lemma HeadsFrame(e: World, files: map<Day, seq<Item>>, w: Log, w': Log)
    requires WellHeaded(e, files, w) && NoHeader(w'.buf)
    requires w'.files == w.files && w'.tried == w.tried
    requires (w'.open ==> w.open) && w'.day == w.day && w'.ops >= w.ops
    ensures WellHeaded(e, files, w')
  {
    hide HeadedBy, NoHeader;
  }

  lemma {:induction false} FeedHeads(e: World, w: Log, p: bytes)
    requires NoHeader(w.buf)
    ensures var r := FeedAll(e, w, p);
            NoHeader(r.buf) && r == w.(buf := r.buf, atBol := r.atBol, ticks := r.ticks)
    decreases |p|
  {
    if p != [] { FeedHeads(e, w, p[..|p| - 1]); }
  }

  lemma WriteHeads(e: World, files: map<Day, seq<Item>>, w: Log, p: bytes)
    requires WellHeaded(e, files, w)
    ensures WellHeaded(e, files, WriteTo(e, w, p).w)
  {
    hide FlushBuf, FeedAll, WellHeaded, Size;
    var w1 := w.(total := w.total + |p|);
    var w2 := FeedAll(e, w1, p);
    HeadlessBuf(e, files, w);
    HeadsFrame(e, files, w, w1);
    FeedHeads(e, w1, p);
    HeadsFrame(e, files, w1, w2);
    FlushHeads(e, files, w2);
    HeadlessBuf(e, files, FlushBuf(e, w2).w);
    HeadsFrame(e, files, FlushBuf(e, w2).w, FlushBuf(e, w2).w.(failed := !FlushBuf(e, w2).ok));
  }

  lemma NoteHeads(e: World, files: map<Day, seq<Item>>, w: Log, text: string)
    requires WellHeaded(e, files, w)
    ensures WellHeaded(e, files, AddNote(e, w, text).w)
  {
    hide FlushBuf, WellHeaded;
    var w1 := if w.buf == [] then w else FlushBuf(e, w).w;
    FlushHeads(e, files, w);
    HeadlessBuf(e, files, w1);
    var w2 := w1.(buf := w1.buf + [Note(e.clock(w1.ticks), text)], ticks := w1.ticks + 1, atBol := true);
    HeadsFrame(e, files, w1, w2);
    FlushHeads(e, files, w2);
  }

  lemma CloseHeads(e: World, files: map<Day, seq<Item>>, w: Log)
    requires WellHeaded(e, files, w)
    ensures WellHeaded(e, files, CloseLog(e, w).w)
  {
    hide FlushBuf, WellHeaded;
    FlushHeads(e, files, w);
    var w1 := if w.buf != [] && !w.failed then FlushBuf(e, w).w else w;
    HeadlessBuf(e, files, w1);
    HeadsFrame(e, files, w1, w1.(open := false, ops := w1.ops + 1));
  }

  lemma OpHeads(e: World, files: map<Day, seq<Item>>, w: Log, op: Op)
    requires WellHeaded(e, files, w)
    ensures WellHeaded(e, files, Apply(e, w, op).w)
  {
    hide FlushBuf, WriteTo, AddNote, CloseLog, WellHeaded;
    match op
    case Write(p) => WriteHeads(e, files, w, p);
    case MakeNote(text) => NoteHeads(e, files, w, text);
    case DoFlush => FlushHeads(e, files, w);
    case DoClose => CloseHeads(e, files, w);
    case Describe(dev, baud) =>
      HeadlessBuf(e, files, w);
      HeadsFrame(e, files, w, w.(dev := dev, baud := baud));
  }

  /** Each file that starts empty gets one header, at its start, and a file that had
      contents gets none: over any run, clock and pattern of faults. The header is whole
      exactly if the operation that wrote it did not fail. */
  lemma {:induction false} OneHeaderPerNewFile(e: World, stamp: bool, files: map<Day, seq<Item>>, ops: seq<Op>)
    ensures WellHeaded(e, files, ApplyAll(e, FreshLog(stamp, files), ops))
    decreases |ops|
  {
    hide Apply;
    if ops != [] {
      OneHeaderPerNewFile(e, stamp, files, ops[..|ops| - 1]);
      OpHeads(e, files, ApplyAll(e, FreshLog(stamp, files), ops[..|ops| - 1]), ops[|ops| - 1]);
    }
  }

  // ------------------------------------------------------------- files only grow

  predicate Grows(files: map<Day, seq<Item>>, files': map<Day, seq<Item>>) {
    forall d | d in files :: d in files' && files[d] <= files'[d]
  }

  lemma GrowsOn(a: map<Day, seq<Item>>, b: map<Day, seq<Item>>, c: map<Day, seq<Item>>)
    requires Grows(a, b) && Grows(b, c)
    ensures Grows(a, c)
  {
    forall d | d in a ensures a[d] <= c[d] {
      assert a[d] <= b[d] && b[d] <= c[d];
      assert a[d] == c[d][..|a[d]|];
    }
  }

  lemma EnsureGrows(e: World, w: Log)
    ensures Grows(w.files, Ensure(e, w).w.files)
  {
    hide OpenDay, HeadedBy;
    var d := e.day(e.clock(w.ticks));
    OpenDayOpens(e, w.(ticks := w.ticks + 1), d);
  }

  lemma FlushGrows(e: World, w: Log)
    ensures Grows(w.files, FlushBuf(e, w).w.files)
  {
    hide Ensure;
    EnsureGrows(e, w);
    GrowsOn(w.files, Ensure(e, w).w.files, FlushBuf(e, w).w.files);
  }

  lemma {:induction false} FeedKeepsFiles(e: World, w: Log, p: bytes)
    ensures FeedAll(e, w, p).files == w.files
    decreases |p|
  {
    if p != [] { FeedKeepsFiles(e, w, p[..|p| - 1]); }
  }

  lemma CallGrows(e: World, w: Log, op: Op)
    ensures Grows(w.files, Apply(e, w, op).w.files)
  {
    hide FlushBuf, FeedAll, Size;
    match op
    case Write(p) =>
      var w1 := w.(total := w.total + |p|);
      FeedKeepsFiles(e, w1, p);
      FlushGrows(e, FeedAll(e, w1, p));
    case MakeNote(text) =>
      var w1 := if w.buf == [] then w else FlushBuf(e, w).w;
      var w2 := w1.(buf := w1.buf + [Note(e.clock(w1.ticks), text)], ticks := w1.ticks + 1, atBol := true);
      FlushGrows(e, w);
      FlushGrows(e, w2);
      GrowsOn(w.files, w1.files, FlushBuf(e, w2).w.files);
    case _ => FlushGrows(e, w);
  }

  lemma SameGrows(files: map<Day, seq<Item>>)
    ensures Grows(files, files)
  {
  }

  /** No call of any run takes back or changes what is in a file. */
  lemma {:induction false} FilesOnlyGrow(e: World, w: Log, ops: seq<Op>)
    ensures Grows(w.files, ApplyAll(e, w, ops).files)
    decreases |ops|
  {
    hide Apply, Grows;
    if ops == [] {
      SameGrows(w.files);
    } else {
      var front := ops[..|ops| - 1];
      FilesOnlyGrow(e, w, front);
      CallGrows(e, ApplyAll(e, w, front), ops[|ops| - 1]);
      GrowsOn(w.files, ApplyAll(e, w, front).files, ApplyAll(e, w, ops).files);
    }
  }

  /** So the first thing in a file is there for good: a torn header stays, and there is
      never a whole one in that file. */
  lemma FirstItemStays(e: World, w: Log, ops: seq<Op>, d: Day)
    requires FileOf(w.files, d) != []
    ensures var files := ApplyAll(e, w, ops).files; d in files && files[d] != [] && files[d][0] == w.files[d][0]
  {
    FilesOnlyGrow(e, w, ops);
  }

  /** A run that tears a header: the second file operation of a new log, the one that
      writes the header, fails after a part. The log has not failed, and whatever is
      done later the file begins with the torn header. */
  lemma TornHeaderStays(e: World, text: string, ops: seq<Op>)
    requires e.fault(0).None? && e.fault(1) == Some(1)
    ensures var d, w := e.day(e.clock(1)), ApplyAll(e, FreshLog(true, map[]), [MakeNote(text)]);
            && !w.failed && d in w.files && w.files[d] == [Header(e.clock(2), "", 0, false)]
            && var later := ApplyAll(e, w, ops);
               d in later.files && later.files[d] != [] && later.files[d][0] == Header(e.clock(2), "", 0, false)
  {
    var d, start := e.day(e.clock(1)), FreshLog(true, map[]);
    var w := ApplyAll(e, start, [MakeNote(text)]);
    assert [MakeNote(text)][..0] == [] && ApplyAll(e, start, []) == start;
    var noted := start.(buf := [] + [Note(e.clock(0), text)], ticks := 1, atBol := true);
    assert w == FlushBuf(e, noted).w;
    assert FlushBuf(e, noted).w.files == map[d := [Header(e.clock(2), "", 0, false)]];
    FirstItemStays(e, w, ops, d);
  }
}
