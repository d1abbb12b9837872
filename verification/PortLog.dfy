/** The port log writer (internal/portlog/portlog.go): buffered, stamped, one file
    a day. Stamps, notes and headers are kept as items of their own instead of
    text, so that what is console output can never be mistaken for them. */
module PortLog {
  import opened Prelude

  type Day = nat

  const NEWLINE: byte := 10
  const FLUSH_AT := 32 * 1024

  /** A header is torn when writing it failed part-way. */
  datatype Item =
    | Byte(b: byte) | Stamp(t: nat) | Note(t: nat, text: string)
    | Header(t: nat, dev: string, baud: int, whole: bool)

  /** Bytes an item takes: stamps are 24 long, a note adds 36 to its text. */
  function Width(i: Item): (n: nat) {
    match i case Byte(_) => 1 case Stamp(_) => 24 case Note(_, text) => 36 + |text| case Header(_, dev, _, _) => |dev|
  }

  function Size(items: seq<Item>): (n: nat) {
    if items == [] then 0 else Size(items[..|items| - 1]) + Width(items[|items| - 1])
  }

  /** The n-th reading of the clock, the day a time falls on, and the outcome of the
      n-th file operation: None, or Some(k) for a failure after k items; a header that
      fails with k > 0 was written in part. */
  datatype World = World(clock: nat -> nat, day: nat -> Day, fault: nat -> Option<nat>)

  datatype Log = Log(
    stamp: bool, dev: string, baud: int,
    day: Day, open: bool, buf: seq<Item>, atBol: bool, total: nat, failed: bool,
    files: map<Day, seq<Item>>,   // the directory
    ticks: nat, ops: nat,         // clock readings and file operations so far
    tried: map<Day, nat>)         // history: the operation that last tried to write a day's header

  function FreshLog(stamp: bool, files: map<Day, seq<Item>>): (w: Log) {
    Log(stamp, "", 0, 0, false, [], true, 0, false, files, 0, 0, map[])
  }

  datatype Outcome = Outcome(w: Log, ok: bool)

  function FileOf(files: map<Day, seq<Item>>, d: Day): (r: seq<Item>) { if d in files then files[d] else [] }

  /** What is left in an empty file by writing a header to it. */
  function HeaderLeft(h: Item, fault: Option<nat>): (r: seq<Item>)
    requires h.Header?
  {
    match fault
    case None => [h]
    case Some(k) => if k == 0 then [] else [h.(whole := false)]
  }

  /** A file just opened: a header if it is empty (portlog.go:224-239). */
  function StartDay(e: World, w: Log, d: Day): (r: Outcome)
    requires d in w.files
  {
    if w.files[d] != [] then Outcome(w.(open := true, day := d), true)
    else
      var fault, h := e.fault(w.ops), Header(e.clock(w.ticks), w.dev, w.baud, true);
      var w1 := w.(ticks := w.ticks + 1, ops := w.ops + 1,
                   files := w.files[d := HeaderLeft(h, fault)], tried := w.tried[d := w.ops]);
      if fault.Some? then Outcome(w1, false) else Outcome(w1.(open := true, day := d), true)
  }

  /** The part of ensureLocked that opens the file of day d (portlog.go:214-239). */
  function OpenDay(e: World, w: Log, d: Day): (r: Outcome) {
    var w1 := w.(open := false, ops := w.ops + 1);
    if e.fault(w.ops).Some? then Outcome(w1, false)
    else StartDay(e, w1.(files := w1.files[d := FileOf(w1.files, d)]), d)
  }

  /** ensureLocked (portlog.go:209-240). */
  function Ensure(e: World, w: Log): (r: Outcome) {
    var d, w1 := e.day(e.clock(w.ticks)), w.(ticks := w.ticks + 1);
    if w.open && w.day == d then Outcome(w1, true) else OpenDay(e, w1, d)
  }

  /** flushLocked (portlog.go:195-207). */
  function FlushBuf(e: World, w: Log): (r: Outcome) {
    var r := Ensure(e, w);
    if !r.ok || r.w.buf == [] then r
    else
      var w1 := r.w.(ops := r.w.ops + 1);
      match e.fault(r.w.ops)
      case None => Outcome(w1.(files := w1.files[w1.day := FileOf(w1.files, w1.day) + w1.buf], buf := []), true)
      case Some(k) =>
        var part := if k <= |w1.buf| then w1.buf[..k] else w1.buf;
        Outcome(w1.(files := w1.files[w1.day := FileOf(w1.files, w1.day) + part]), false)
  }

  /** One byte of Write's loop. */
  function Feed(e: World, w: Log, b: byte): (r: Log) {
    var w1 := if w.atBol && w.stamp then w.(buf := w.buf + [Stamp(e.clock(w.ticks))], ticks := w.ticks + 1) else w;
    w1.(buf := w1.buf + [Byte(b)], atBol := b == NEWLINE)
  }

  function FeedAll(e: World, w: Log, p: bytes): (r: Log) {
    if p == [] then w else Feed(e, FeedAll(e, w, p[..|p| - 1]), p[|p| - 1])
  }

  function WriteTo(e: World, w: Log, p: bytes): (r: Outcome) {
    var w1 := w.(total := w.total + |p|);
    if w1.failed then Outcome(w1, false)
    else
      var w2 := FeedAll(e, w1, p);
      if NEWLINE in p || Size(w2.buf) >= FLUSH_AT then
        var r := FlushBuf(e, w2);
        Outcome(r.w.(failed := !r.ok), r.ok)
      else Outcome(w2, true)
  }

  function Flush(e: World, w: Log): (r: Outcome) {
    if w.failed then Outcome(w, false) else if w.buf == [] then Outcome(w, true) else FlushBuf(e, w)
  }

  function AddNote(e: World, w: Log, text: string): (r: Outcome) {
    if w.failed then Outcome(w, false)
    else
      var r := if w.buf == [] then Outcome(w, true) else FlushBuf(e, w);
      if !r.ok then r
      else FlushBuf(e, r.w.(buf := r.w.buf + [Note(e.clock(r.w.ticks), text)], ticks := r.w.ticks + 1, atBol := true))
  }

  /** Close: a flush, and closing the file, which may fail on its own. */
  function CloseLog(e: World, w: Log): (r: Outcome) {
    var r := if w.buf != [] && !w.failed then FlushBuf(e, w) else Outcome(w, true);
    if r.w.open then Outcome(r.w.(open := false, ops := r.w.ops + 1), r.ok && e.fault(r.w.ops).None?) else r
  }

  // ----------------------------------------------------------------------- runs

  datatype Op = Write(p: bytes) | MakeNote(text: string) | DoFlush | DoClose | Describe(dev: string, baud: int)

  function Apply(e: World, w: Log, op: Op): (r: Outcome) {
    match op
    case Write(p) => WriteTo(e, w, p)
    case MakeNote(text) => AddNote(e, w, text)
    case DoFlush => Flush(e, w)
    case DoClose => CloseLog(e, w)
    case Describe(dev, baud) => Outcome(w.(dev := dev, baud := baud), true)
  }

  function ApplyAll(e: World, w: Log, ops: seq<Op>): (r: Log) {
    if ops == [] then w else Apply(e, ApplyAll(e, w, ops[..|ops| - 1]), ops[|ops| - 1]).w
  }
}
