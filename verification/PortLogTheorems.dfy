/** Conservation, stamping, headers and buffering of the port log. */
module PortLogTheorems {
  import opened Prelude
  import opened PortLog

  ghost predicate NoFaults(e: World) { forall i: nat :: e.fault(i).None? }

  /** Time never runs backwards, and neither do days. */
  ghost predicate Steady(e: World) {
    && (forall i: nat, j: nat :: i <= j ==> e.clock(i) <= e.clock(j))
    && (forall t: nat, u: nat :: t <= u ==> e.day(t) <= e.day(u))
  }

  // ----------------------------------------------------------- what should be there

  /** What is fed to the log, however it is chunked. */
  datatype Event = B(b: byte) | N(text: string)

  /** What is seen in the log, times and headers aside. */
  datatype Mark = MByte(b: byte) | MStamp | MNote(text: string)

  function EventsOf(op: Op): (r: seq<Event>) {
    match op
    case Write(p) => seq(|p|, i requires 0 <= i < |p| => B(p[i]))
    case MakeNote(text) => [N(text)]
    case _ => []
  }

  function AllEvents(ops: seq<Op>): (r: seq<Event>) {
    if ops == [] then [] else AllEvents(ops[..|ops| - 1]) + EventsOf(ops[|ops| - 1])
  }

  /** At the beginning of a line: at the start, after a newline, and after a note. */
  predicate AtBol(evs: seq<Event>) {
    evs == [] || evs[|evs| - 1].N? || evs[|evs| - 1].b == NEWLINE
  }

  function Adds(stamped: bool, ev: Event): (r: seq<Mark>) {
    match ev
    case B(b) => (if stamped then [MStamp] else []) + [MByte(b)]
    case N(text) => [MNote(text)]
  }

  /** The layout of a stream: a stamp before the first byte of each line. */
  function Layout(stamp: bool, evs: seq<Event>): (r: seq<Mark>) {
    if evs == [] then []
    else
      var front := evs[..|evs| - 1];
      Layout(stamp, front) + Adds(stamp && AtBol(front), evs[|evs| - 1])
  }

  function MarkOf(i: Item): (r: seq<Mark>) {
    match i
    case Byte(b) => [MByte(b)]
    case Stamp(_) => [MStamp]
    case Note(_, text) => [MNote(text)]
    case Header(_, _, _, _) => []
  }

  function Marks(items: seq<Item>): (r: seq<Mark>) {
    if items == [] then [] else Marks(items[..|items| - 1]) + MarkOf(items[|items| - 1])
  }

  function BytesOf(marks: seq<Mark>): (r: bytes) {
    if marks == [] then []
    else BytesOf(marks[..|marks| - 1]) + match marks[|marks| - 1] case MByte(b) => [b] case _ => []
  }

  function Written(ops: seq<Op>): (r: bytes) {
    if ops == [] then []
    else Written(ops[..|ops| - 1]) + match ops[|ops| - 1] case Write(p) => p case _ => []
  }

  /** The day files below day n, one after the other. */
  function Cat(files: map<Day, seq<Item>>, n: Day): (r: seq<Item>) {
    if n == 0 then [] else Cat(files, n - 1) + FileOf(files, n - 1)
  }

  lemma {:induction false} MarksConcat(a: seq<Item>, b: seq<Item>)
    ensures Marks(a + b) == Marks(a) + Marks(b)
    decreases |b|
  {
    hide MarkOf;
    if b == [] {
      assert a + b == a;
    } else {
      MarksConcat(a, b[..|b| - 1]);
      assert (a + b)[..|a + b| - 1] == a + b[..|b| - 1];
    }
  }

  lemma {:induction false} BytesConcat(a: seq<Mark>, b: seq<Mark>)
    ensures BytesOf(a + b) == BytesOf(a) + BytesOf(b)
    decreases |b|
  {
    if b == [] {
      assert a + b == a;
    } else {
      BytesConcat(a, b[..|b| - 1]);
      assert (a + b)[..|a + b| - 1] == a + b[..|b| - 1];
    }
  }

  lemma {:induction false} CatSame(a: map<Day, seq<Item>>, b: map<Day, seq<Item>>, n: Day)
    requires forall k | 0 <= k < n :: FileOf(a, k) == FileOf(b, k)
    ensures Cat(a, n) == Cat(b, n)
  {
    if n > 0 { CatSame(a, b, n - 1); }
  }

  /** Growing the file of day d changes the whole by what is added, when later days are empty. */
  lemma {:induction false} CatAppend(files: map<Day, seq<Item>>, d: Day, x: seq<Item>, n: Day)
    requires d < n && forall k | d < k < n :: FileOf(files, k) == []
    ensures Cat(files[d := FileOf(files, d) + x], n) == Cat(files, n) + x
    decreases n
  {
    var files' := files[d := FileOf(files, d) + x];
    if n == d + 1 {
      CatSame(files, files', d);
      assert Cat(files, d) + (FileOf(files, d) + x) == (Cat(files, d) + FileOf(files, d)) + x;
    } else {
      CatAppend(files, d, x, n - 1);
      assert FileOf(files, n - 1) == [] == FileOf(files', n - 1);
      assert Cat(files, n) == Cat(files, n - 1) && Cat(files', n) == Cat(files', n - 1);
    }
  }

  // ------------------------------------------------------------------ conservation

  /** No file is of a later day than the next reading of the clock. */
  ghost predicate UpToDate(e: World, w: Log) {
    && (forall d | d in w.files :: d <= e.day(e.clock(w.ticks)))
    && (w.open ==> w.day in w.files)
  }

  /** Everything the log holds, on disk and in the buffer. */
  function Held(w: Log, n: Day): (r: seq<Mark>) { Marks(Cat(w.files, n) + w.buf) }

  lemma Later(e: World, i: nat, j: nat)
    requires Steady(e) && i <= j
    ensures e.day(e.clock(i)) <= e.day(e.clock(j))
  {
    assert e.clock(i) <= e.clock(j);
  }

  /** Files stay up to date as the clock is read. */
  lemma StaysUpToDate(e: World, w: Log, w': Log)
    requires Steady(e) && UpToDate(e, w) && w.ticks <= w'.ticks
    requires w'.files.Keys == w.files.Keys && (w'.open ==> w'.day in w'.files)
    ensures UpToDate(e, w')
  {
    Later(e, w.ticks, w'.ticks);
  }

  /** What a flush leaves alone. */
  predicate Keeps(w: Log, w': Log) {
    w'.atBol == w.atBol && w'.stamp == w.stamp && w'.failed == w.failed && w.ticks < w'.ticks <= w.ticks + 2
  }

  /** A brand-new file and its header add no mark. */
  lemma HeaderAddsNoMark(files: map<Day, seq<Item>>, d: Day, h: Item, n: Day)
    requires h.Header? && FileOf(files, d) == [] && d < n && forall k | d < k < n :: FileOf(files, k) == []
    ensures Marks(Cat(files[d := [h]], n)) == Marks(Cat(files, n))
  {
    assert FileOf(files, d) + [h] == [h];
    CatAppend(files, d, [h], n);
    MarksConcat(Cat(files, n), [h]);
    assert [h][..0] == [];
  }

  /** Without faults the file of today is open afterwards, and only that of a new day
      has changed: it was given a header. */
  predicate OpensToday(e: World, w: Log, w': Log) {
    var d, h := e.day(e.clock(w.ticks)), Header(e.clock(w.ticks + 1), w.dev, w.baud, true);
    && w'.open && w'.day == d && w'.buf == w.buf && Keeps(w, w') && d in w'.files
    && (w'.files == w.files || (FileOf(w.files, d) == [] && w'.files == w.files[d := [h]]))
  }

  lemma OpenDayWithoutFault(e: World, w: Log, d: Day)
    requires NoFaults(e)
    ensures var r, h := OpenDay(e, w, d), Header(e.clock(w.ticks), w.dev, w.baud, true);
            && r.ok && r.w.open && r.w.day == d && r.w.buf == w.buf
            && r.w.atBol == w.atBol && r.w.stamp == w.stamp && r.w.failed == w.failed
            && w.ticks <= r.w.ticks <= w.ticks + 1
            && r.w.files == if FileOf(w.files, d) == [] then w.files[d := [h]] else w.files
  {
    if FileOf(w.files, d) != [] {
      assert w.files[d := FileOf(w.files, d)] == w.files;
    } else {
      var h := Header(e.clock(w.ticks), w.dev, w.baud, true);
      assert w.files[d := FileOf(w.files, d)][d := [h]] == w.files[d := [h]];
    }
  }

  lemma EnsureOpensToday(e: World, w: Log)
    requires NoFaults(e) && (w.open ==> w.day in w.files)
    ensures Ensure(e, w).ok && OpensToday(e, w, Ensure(e, w).w)
  {
    hide OpenDay, NoFaults;
    OpenDayWithoutFault(e, w.(ticks := w.ticks + 1), e.day(e.clock(w.ticks)));
  }

  lemma EnsureConserves(e: World, w: Log, n: Day)
    requires NoFaults(e) && Steady(e) && UpToDate(e, w)
    requires e.day(e.clock(w.ticks)) < n
    ensures var r := Ensure(e, w);
            && r.ok && UpToDate(e, r.w) && r.w.open && r.w.day == e.day(e.clock(w.ticks))
            && r.w.buf == w.buf && Keeps(w, r.w)
            && Marks(Cat(r.w.files, n)) == Marks(Cat(w.files, n))
            && forall k | k in r.w.files :: k <= r.w.day
  {
    hide Steady, NoFaults, Marks, Cat, Ensure;
    var d := e.day(e.clock(w.ticks));
    var r := Ensure(e, w);
    EnsureOpensToday(e, w);
    Later(e, w.ticks, r.w.ticks);
    if r.w.files != w.files {
      HeaderAddsNoMark(w.files, d, Header(e.clock(w.ticks + 1), w.dev, w.baud, true), n);
    }
  }

  lemma FlushMoves(w: Log, w': Log, n: Day)
    requires w'.buf == [] && w.day < n && forall k | k in w.files :: k <= w.day
    requires w'.files == w.files[w.day := FileOf(w.files, w.day) + w.buf]
    ensures Held(w', n) == Held(w, n)
  {
    CatAppend(w.files, w.day, w.buf, n);
    assert Cat(w'.files, n) + [] == Cat(w'.files, n);
  }

  lemma FlushConserves(e: World, w: Log, n: Day)
    requires NoFaults(e) && Steady(e) && UpToDate(e, w)
    requires e.day(e.clock(w.ticks)) < n
    ensures var r := FlushBuf(e, w);
            && r.ok && UpToDate(e, r.w) && r.w.buf == [] && Held(r.w, n) == Held(w, n) && Keeps(w, r.w)
  {
    hide Steady, Ensure, Marks, Cat;
    EnsureConserves(e, w, n);
    var m := Ensure(e, w).w;
    MarksConcat(Cat(w.files, n), w.buf);
    MarksConcat(Cat(m.files, n), m.buf);
    if m.buf != [] { FlushMoves(m, FlushBuf(e, w).w, n); }
  }

  /** Feeding touches only the buffer, the line position and the clock. */
  predicate Fed(w: Log, w': Log, n: nat) {
    w' == w.(buf := w'.buf, atBol := w'.atBol, ticks := w'.ticks) && w.ticks <= w'.ticks <= w.ticks + n
  }

  lemma ByteMarks(t: nat, b: byte)
    ensures Marks([Byte(b)]) == [MByte(b)] && Marks([Stamp(t), Byte(b)]) == [MStamp, MByte(b)]
  {
    assert [Byte(b)][..0] == [] && [Stamp(t), Byte(b)][..1] == [Stamp(t)] && [Stamp(t)][..0] == [];
  }

  lemma LayoutStep(stamp: bool, evs: seq<Event>, ev: Event)
    ensures Layout(stamp, evs + [ev]) == Layout(stamp, evs) + Adds(stamp && AtBol(evs), ev)
  {
    assert (evs + [ev])[..|evs|] == evs;
  }

  lemma FeedOne(e: World, w: Log, b: byte, n: Day, evs: seq<Event>)
    requires w.atBol <==> AtBol(evs)
    ensures var r := Feed(e, w, b);
            && Fed(w, r, 1) && (r.atBol <==> AtBol(evs + [B(b)]))
            && Held(r, n) == Held(w, n) + Adds(w.stamp && AtBol(evs), B(b))
  {
    hide Cat, Marks;
    var r := Feed(e, w, b);
    var added := if w.stamp && w.atBol then [Stamp(e.clock(w.ticks)), Byte(b)] else [Byte(b)];
    assert r.buf == w.buf + added;
    assert Cat(w.files, n) + r.buf == (Cat(w.files, n) + w.buf) + added;
    MarksConcat(Cat(w.files, n) + w.buf, added);
    ByteMarks(e.clock(w.ticks), b);
  }

  lemma {:induction false} FeedConserves(e: World, w: Log, p: bytes, n: Day, before: seq<Mark>, evs: seq<Event>)
    requires w.atBol <==> AtBol(evs)
    requires Held(w, n) == before + Layout(w.stamp, evs)
    ensures var r := FeedAll(e, w, p);
            && Fed(w, r, |p|) && (r.atBol <==> AtBol(evs + EventsOf(Write(p))))
            && Held(r, n) == before + Layout(w.stamp, evs + EventsOf(Write(p)))
    decreases |p|
  {
    hide Held, Layout, Feed, Adds;
    if p == [] {
      assert evs + EventsOf(Write(p)) == evs;
    } else {
      var front, b := p[..|p| - 1], p[|p| - 1];
      FeedConserves(e, w, front, n, before, evs);
      var evs1 := evs + EventsOf(Write(front));
      assert evs + EventsOf(Write(p)) == evs1 + [B(b)];
      FeedOne(e, FeedAll(e, w, front), b, n, evs1);
      LayoutStep(w.stamp, evs1, B(b));
    }
  }

  /** One call: what is held stays the layout of what was fed; and the buffer is small
      and holds no finished line. */
  ghost predicate Faithful(e: World, w: Log, n: Day, before: seq<Mark>, evs: seq<Event>) {
    && UpToDate(e, w) && !w.failed
    && (w.atBol <==> AtBol(evs))
    && Held(w, n) == before + Layout(w.stamp, evs)
  }

  predicate Unfinished(buf: seq<Item>) {
    forall i | 0 <= i < |buf| :: buf[i].Stamp? || (buf[i].Byte? && buf[i].b != NEWLINE)
  }

  /** The buffer is below the threshold and holds no finished line. */
  predicate Small(w: Log) {
    Size(w.buf) < FLUSH_AT && Unfinished(w.buf)
  }

  lemma WriteIsFaithful(e: World, w: Log, p: bytes, n: Day, before: seq<Mark>, evs: seq<Event>)
    requires NoFaults(e) && Steady(e) && Faithful(e, w, n, before, evs)
    requires forall i: nat | i <= w.ticks + |p| + 2 :: e.day(e.clock(i)) < n
    ensures var r := WriteTo(e, w, p);
            && r.ok && Faithful(e, r.w, n, before, evs + EventsOf(Write(p)))
            && r.w.stamp == w.stamp && r.w.ticks <= w.ticks + |p| + 2
  {
    hide Steady, NoFaults, FeedAll, FlushBuf, Layout, Cat, Marks, Size, AtBol, EventsOf;
    var w1 := w.(total := w.total + |p|);
    assert UpToDate(e, w1);
    FeedConserves(e, w1, p, n, before, evs);
    var w2 := FeedAll(e, w1, p);
    StaysUpToDate(e, w1, w2);
    FlushConserves(e, w2, n);
    var r := WriteTo(e, w, p);
    assert r.w == w2 || r.w == FlushBuf(e, w2).w.(failed := false);
  }

  lemma FlushIsFaithful(e: World, w: Log, n: Day, before: seq<Mark>, evs: seq<Event>)
    requires NoFaults(e) && Steady(e) && Faithful(e, w, n, before, evs)
    requires forall i: nat | i <= w.ticks + 2 :: e.day(e.clock(i)) < n
    ensures var r := FlushBuf(e, w); r.ok && Faithful(e, r.w, n, before, evs) && r.w.buf == [] && Keeps(w, r.w)
  {
    hide Steady, NoFaults, FlushBuf, Layout, Cat, Marks;
    FlushConserves(e, w, n);
  }

  lemma NoteMarks(t: nat, text: string)
    ensures Marks([Note(t, text)]) == [MNote(text)]
  {
    assert [Note(t, text)][..0] == [];
  }

  lemma NotedIsFaithful(e: World, w: Log, text: string, n: Day, before: seq<Mark>, evs: seq<Event>)
    requires Steady(e) && Faithful(e, w, n, before, evs) && w.buf == []
    ensures Faithful(e, w.(buf := [Note(e.clock(w.ticks), text)], ticks := w.ticks + 1, atBol := true), n, before,
                     evs + [N(text)])
  {
    hide Steady, Cat, Marks, Layout;
    var note := Note(e.clock(w.ticks), text);
    StaysUpToDate(e, w, w.(ticks := w.ticks + 1));
    assert Cat(w.files, n) + [] == Cat(w.files, n);
    MarksConcat(Cat(w.files, n), [note]);
    NoteMarks(note.t, text);
    LayoutStep(w.stamp, evs, N(text));
  }

  lemma FaithfulIsAlive(e: World, w: Log, n: Day, before: seq<Mark>, evs: seq<Event>)
    requires Faithful(e, w, n, before, evs)
    ensures !w.failed
  {
  }

  lemma NoteIsFaithful(e: World, w: Log, text: string, n: Day, before: seq<Mark>, evs: seq<Event>)
    requires NoFaults(e) && Steady(e) && Faithful(e, w, n, before, evs)
    requires forall i: nat | i <= w.ticks + 5 :: e.day(e.clock(i)) < n
    ensures var r := AddNote(e, w, text);
            r.ok && Faithful(e, r.w, n, before, evs + [N(text)]) && r.w.stamp == w.stamp && r.w.ticks <= w.ticks + 5
  {
    hide Steady, NoFaults, FlushBuf, Faithful, Held;
    assert !w.failed by { FaithfulIsAlive(e, w, n, before, evs); }
    var w1 := if w.buf == [] then w else FlushBuf(e, w).w;
    if w.buf != [] { FlushIsFaithful(e, w, n, before, evs); }
    var w2 := w1.(buf := [Note(e.clock(w1.ticks), text)], ticks := w1.ticks + 1, atBol := true);
    NotedIsFaithful(e, w1, text, n, before, evs);
    FlushIsFaithful(e, w2, n, before, evs + [N(text)]);
    assert w1.buf + [Note(e.clock(w1.ticks), text)] == w2.buf;
  }

  /** Clock readings one call can take. */
  function Readings(op: Op): (n: nat) { match op case Write(p) => |p| + 2 case _ => 5 }

  lemma ClosedIsFaithful(e: World, w: Log, n: Day, before: seq<Mark>, evs: seq<Event>)
    requires Faithful(e, w, n, before, evs)
    ensures Faithful(e, w.(open := false, ops := w.ops + 1), n, before, evs)
  {
  }

  lemma CloseIsFaithful(e: World, w: Log, n: Day, before: seq<Mark>, evs: seq<Event>)
    requires NoFaults(e) && Steady(e) && Faithful(e, w, n, before, evs)
    requires forall i: nat | i <= w.ticks + 5 :: e.day(e.clock(i)) < n
    ensures var r := CloseLog(e, w);
            r.ok && Faithful(e, r.w, n, before, evs) && r.w.stamp == w.stamp && r.w.ticks <= w.ticks + 5
  {
    hide Steady, FlushBuf, Faithful;
    FaithfulIsAlive(e, w, n, before, evs);
    if w.buf != [] { FlushIsFaithful(e, w, n, before, evs); }
    ClosedIsFaithful(e, if w.buf != [] then FlushBuf(e, w).w else w, n, before, evs);
  }

  lemma DescribedIsFaithful(e: World, w: Log, dev: string, baud: int, n: Day, before: seq<Mark>, evs: seq<Event>)
    requires Faithful(e, w, n, before, evs)
    ensures Faithful(e, w.(dev := dev, baud := baud), n, before, evs)
  {
  }

  lemma OpIsFaithful(e: World, w: Log, op: Op, n: Day, before: seq<Mark>, evs: seq<Event>)
    requires NoFaults(e) && Steady(e) && Faithful(e, w, n, before, evs)
    requires forall i: nat | i <= w.ticks + Readings(op) :: e.day(e.clock(i)) < n
    ensures var r := Apply(e, w, op);
            && r.ok && Faithful(e, r.w, n, before, evs + EventsOf(op))
            && r.w.stamp == w.stamp && r.w.ticks <= w.ticks + Readings(op)
  {
    hide Steady, NoFaults, FlushBuf, FeedAll, Ensure, AddNote, Held, UpToDate;
    match op
    case Write(p) => WriteIsFaithful(e, w, p, n, before, evs);
    case MakeNote(text) => NoteIsFaithful(e, w, text, n, before, evs);
    case DoFlush =>
      FlushIsFaithful(e, w, n, before, evs);
      assert evs + [] == evs;
    case DoClose =>
      CloseIsFaithful(e, w, n, before, evs);
      assert evs + [] == evs;
    case Describe(dev, baud) =>
      DescribedIsFaithful(e, w, dev, baud, n, before, evs);
      assert evs + [] == evs;
  }

  function AllReadings(ops: seq<Op>): (n: nat) {
    if ops == [] then 0 else AllReadings(ops[..|ops| - 1]) + Readings(ops[|ops| - 1])
  }

  /** A day later than any reading the run can take. */
  function Horizon(e: World, ops: seq<Op>): (n: Day) { e.day(e.clock(AllReadings(ops))) + 1 }

  lemma FreshIsFaithful(e: World, stamp: bool, files: map<Day, seq<Item>>, n: Day)
    requires UpToDate(e, FreshLog(stamp, files))
    ensures Faithful(e, FreshLog(stamp, files), n, Marks(Cat(files, n)), [])
  {
    assert Cat(files, n) + [] == Cat(files, n);
  }

  lemma {:induction false} RunIsFaithful(e: World, stamp: bool, files: map<Day, seq<Item>>, ops: seq<Op>, n: Day)
    requires NoFaults(e) && Steady(e) && n >= Horizon(e, ops)
    requires UpToDate(e, FreshLog(stamp, files))
    ensures var w := ApplyAll(e, FreshLog(stamp, files), ops);
            && Faithful(e, w, n, Marks(Cat(files, n)), AllEvents(ops))
            && w.stamp == stamp && w.ticks <= AllReadings(ops)
    decreases |ops|
  {
    hide Steady, NoFaults, Faithful, Apply;
    if ops == [] {
      FreshIsFaithful(e, stamp, files, n);
    } else {
      var front, op := ops[..|ops| - 1], ops[|ops| - 1];
      Later(e, AllReadings(front), AllReadings(ops));
      RunIsFaithful(e, stamp, files, front, n);
      var w := ApplyAll(e, FreshLog(stamp, files), front);
      forall i: nat | i <= w.ticks + Readings(op) ensures e.day(e.clock(i)) < n { Later(e, i, AllReadings(ops)); }
      OpIsFaithful(e, w, op, n, Marks(Cat(files, n)), AllEvents(front));
    }
  }

  /** Stamps stand at the beginning of lines and nowhere else, whatever the calls: the
      marks held are the layout of the byte stream and the notes. */
  lemma LogIsLayoutOfStream(e: World, stamp: bool, files: map<Day, seq<Item>>, ops: seq<Op>)
    requires NoFaults(e) && Steady(e) && UpToDate(e, FreshLog(stamp, files))
    ensures var n, w := Horizon(e, ops), ApplyAll(e, FreshLog(stamp, files), ops);
            Held(w, n) == Marks(Cat(files, n)) + Layout(stamp, AllEvents(ops))
  {
    RunIsFaithful(e, stamp, files, ops, Horizon(e, ops));
  }

  /** Two runs fed the same stream, in other chunks, with other flushes and at other
      times, hold the same marks. */
  lemma ChunkingDoesNotShow(e1: World, e2: World, stamp: bool, files: map<Day, seq<Item>>, ops1: seq<Op>,
                            ops2: seq<Op>, n: Day)
    requires NoFaults(e1) && Steady(e1) && UpToDate(e1, FreshLog(stamp, files)) && n >= Horizon(e1, ops1)
    requires NoFaults(e2) && Steady(e2) && UpToDate(e2, FreshLog(stamp, files)) && n >= Horizon(e2, ops2)
    requires AllEvents(ops1) == AllEvents(ops2)
    ensures Held(ApplyAll(e1, FreshLog(stamp, files), ops1), n) == Held(ApplyAll(e2, FreshLog(stamp, files), ops2), n)
  {
    hide Steady, NoFaults, ApplyAll;
    RunIsFaithful(e1, stamp, files, ops1, n);
    RunIsFaithful(e2, stamp, files, ops2, n);
  }

  function StreamOf(evs: seq<Event>): (r: bytes) {
    if evs == [] then []
    else StreamOf(evs[..|evs| - 1]) + match evs[|evs| - 1] case B(b) => [b] case N(_) => []
  }

  lemma {:induction false} LayoutKeepsBytes(stamp: bool, evs: seq<Event>)
    ensures BytesOf(Layout(stamp, evs)) == StreamOf(evs)
    decreases |evs|
  {
    if evs != [] {
      var front, ev := evs[..|evs| - 1], evs[|evs| - 1];
      var adds := Adds(stamp && AtBol(front), ev);
      LayoutKeepsBytes(stamp, front);
      BytesConcat(Layout(stamp, front), adds);
      assert adds[..|adds| - 1] == [] || (adds[..|adds| - 1] == [MStamp] && [MStamp][..0] == []);
    }
  }

  lemma {:induction false} StreamConcat(a: seq<Event>, b: seq<Event>)
    ensures StreamOf(a + b) == StreamOf(a) + StreamOf(b)
    decreases |b|
  {
    if b == [] {
      assert a + b == a;
    } else {
      StreamConcat(a, b[..|b| - 1]);
      assert (a + b)[..|a + b| - 1] == a + b[..|b| - 1];
    }
  }

  lemma {:induction false} StreamOfWrite(p: bytes)
    ensures StreamOf(EventsOf(Write(p))) == p
    decreases |p|
  {
    if p != [] {
      var front := p[..|p| - 1];
      StreamOfWrite(front);
      assert EventsOf(Write(p))[..|p| - 1] == EventsOf(Write(front));
      assert p == front + [p[|p| - 1]];
    }
  }

  lemma {:induction false} StreamOfRun(ops: seq<Op>)
    ensures StreamOf(AllEvents(ops)) == Written(ops)
    decreases |ops|
  {
    if ops != [] {
      var op := ops[|ops| - 1];
      StreamOfRun(ops[..|ops| - 1]);
      StreamConcat(AllEvents(ops[..|ops| - 1]), EventsOf(op));
      match op
      case Write(p) => StreamOfWrite(p);
      case MakeNote(text) => assert [N(text)][..0] == [];
      case _ =>
    }
  }

  /** Conservation: the day files in order, then the buffer, with headers, stamps and
      notes erased, are exactly the bytes written after what was there before. */
  lemma NoByteIsLostOrMoved(e: World, stamp: bool, files: map<Day, seq<Item>>, ops: seq<Op>)
    requires NoFaults(e) && Steady(e) && UpToDate(e, FreshLog(stamp, files))
    ensures var n, w := Horizon(e, ops), ApplyAll(e, FreshLog(stamp, files), ops);
            BytesOf(Held(w, n)) == BytesOf(Marks(Cat(files, n))) + Written(ops)
  {
    hide Steady, NoFaults, ApplyAll;
    var n := Horizon(e, ops);
    LogIsLayoutOfStream(e, stamp, files, ops);
    BytesConcat(Marks(Cat(files, n)), Layout(stamp, AllEvents(ops)));
    LayoutKeepsBytes(stamp, AllEvents(ops));
    StreamOfRun(ops);
  }

  // ------------------------------------------------------------ the buffer, and errors

  lemma {:induction false} FeedStaysSmall(e: World, w: Log, p: bytes)
    requires NEWLINE !in p && Unfinished(w.buf)
    ensures Unfinished(FeedAll(e, w, p).buf)
    decreases |p|
  {
    if p != [] { FeedStaysSmall(e, w, p[..|p| - 1]); }
  }

  lemma EnsureKeepsBuf(e: World, w: Log)
    ensures Ensure(e, w).w.buf == w.buf
  {
  }

  lemma FlushEmpties(e: World, w: Log)
    ensures FlushBuf(e, w).w.buf == if FlushBuf(e, w).ok then [] else w.buf
  {
    hide Ensure;
    EnsureKeepsBuf(e, w);
  }

  /** A call keeps the buffer small unless it is a Write or a Note that fails. */
  lemma CallKeepsBufferSmall(e: World, w: Log, op: Op)
    requires Small(w) && (Apply(e, w, op).ok || !(op.Write? || op.MakeNote?))
    ensures Small(Apply(e, w, op).w)
  {
    hide FlushBuf, FeedAll;
    FlushEmpties(e, w);
    match op
    case Write(p) =>
      var w2 := FeedAll(e, w.(total := w.total + |p|), p);
      FlushEmpties(e, w2);
      if NEWLINE !in p { FeedStaysSmall(e, w.(total := w.total + |p|), p); }
    case MakeNote(text) =>
      var w1 := if w.buf == [] then w else FlushBuf(e, w).w;
      FlushEmpties(e, w1.(buf := w1.buf + [Note(e.clock(w1.ticks), text)], ticks := w1.ticks + 1, atBol := true));
    case _ =>
  }

  /** No Write and no Note of the run failed. */
  predicate Untroubled(e: World, w: Log, ops: seq<Op>) {
    ops == []
    || (Untroubled(e, w, ops[..|ops| - 1])
        && var op := ops[|ops| - 1];
           op.Write? || op.MakeNote? ==> Apply(e, ApplyAll(e, w, ops[..|ops| - 1]), op).ok)
  }

  lemma EmptyIsSmall(w: Log)
    requires w.buf == []
    ensures Small(w)
  {
  }

  /** After every call of such a run the buffer is below the flush threshold and holds no
      finished line. */
  lemma {:induction false} BufferStaysSmall(e: World, stamp: bool, files: map<Day, seq<Item>>, ops: seq<Op>)
    requires Untroubled(e, FreshLog(stamp, files), ops)
    ensures Small(ApplyAll(e, FreshLog(stamp, files), ops))
    decreases |ops|
  {
    hide Apply, Small;
    if ops == [] {
      EmptyIsSmall(FreshLog(stamp, files));
    } else {
      var front := ops[..|ops| - 1];
      BufferStaysSmall(e, stamp, files, front);
      CallKeepsBufferSmall(e, ApplyAll(e, FreshLog(stamp, files), front), ops[|ops| - 1]);
    }
  }

  lemma NoFaultsEnsure(e: World, w: Log)
    requires NoFaults(e)
    ensures Ensure(e, w).ok && Ensure(e, w).w.failed == w.failed
  {
  }

  lemma NoFaultsFlush(e: World, w: Log)
    requires NoFaults(e)
    ensures FlushBuf(e, w).ok && FlushBuf(e, w).w.failed == w.failed
  {
    hide Ensure;
    NoFaultsEnsure(e, w);
  }

  lemma {:induction false} FeedKeepsFailed(e: World, w: Log, p: bytes)
    ensures FeedAll(e, w, p).failed == w.failed
    decreases |p|
  {
    if p != [] { FeedKeepsFailed(e, w, p[..|p| - 1]); }
  }

  lemma FaultlessCall(e: World, w: Log, op: Op)
    requires NoFaults(e) && !w.failed
    ensures Apply(e, w, op).ok && !Apply(e, w, op).w.failed
  {
    hide FlushBuf, FeedAll, Size;
    NoFaultsFlush(e, w);
    match op
    case Write(p) =>
      var w1 := w.(total := w.total + |p|);
      FeedKeepsFailed(e, w1, p);
      NoFaultsFlush(e, FeedAll(e, w1, p));
    case MakeNote(text) =>
      var w1 := if w.buf == [] then w else FlushBuf(e, w).w;
      NoFaultsFlush(e, w1.(buf := w1.buf + [Note(e.clock(w1.ticks), text)], ticks := w1.ticks + 1, atBol := true));
    case _ =>
  }

  /** Without file errors every call of a run succeeds, so every run is such a run. */
  lemma {:induction false} FaultlessIsUntroubled(e: World, w: Log, ops: seq<Op>)
    requires NoFaults(e) && !w.failed
    ensures Untroubled(e, w, ops) && !ApplyAll(e, w, ops).failed
    decreases |ops|
  {
    hide Apply, NoFaults;
    if ops != [] {
      var front := ops[..|ops| - 1];
      FaultlessIsUntroubled(e, w, front);
      FaultlessCall(e, ApplyAll(e, w, front), ops[|ops| - 1]);
    }
  }

  lemma FailedLogStays(e: World, w: Log, op: Op)
    requires w.failed
    ensures var r := Apply(e, w, op).w;
            && r.failed && r.files == w.files && r.buf == w.buf
            && r.total == w.total + match op case Write(p) => |p| case _ => 0
  {
    hide FlushBuf, FeedAll;
  }

  /** A write error is remembered: from then on nothing reaches the files. */
  lemma {:induction false} WriteErrorIsSticky(e: World, w: Log, ops: seq<Op>)
    requires w.failed
    ensures var r := ApplyAll(e, w, ops);
            r.failed && r.files == w.files && r.buf == w.buf && r.total == w.total + |Written(ops)|
    decreases |ops|
  {
    hide Apply;
    if ops != [] {
      WriteErrorIsSticky(e, w, ops[..|ops| - 1]);
      FailedLogStays(e, ApplyAll(e, w, ops[..|ops| - 1]), ops[|ops| - 1]);
    }
  }
}
