/** portlog.Writer as an object. */
module PortLogWriter {
  import opened Prelude
  import opened PortLog

  lemma {:induction false} FeedKeepsTotals(e: World, w: Log, p: bytes)
    ensures FeedAll(e, w, p).total == w.total && FeedAll(e, w, p).failed == w.failed
    decreases |p|
  {
    if p != [] { FeedKeepsTotals(e, w, p[..|p| - 1]); }
  }

  lemma EnsureKeepsTotals(e: World, w: Log)
    ensures Ensure(e, w).w.total == w.total && Ensure(e, w).w.failed == w.failed
  {
  }

  lemma FlushKeepsTotals(e: World, w: Log)
    ensures FlushBuf(e, w).w.total == w.total && FlushBuf(e, w).w.failed == w.failed
  {
    hide Ensure;
    EnsureKeepsTotals(e, w);
  }

  class Writer {
    const stamp: bool
    var dev: string
    var baud: int
    var day: Day
    var open: bool
    var buf: seq<Item>
    var atBol: bool
    var total: nat
    var failed: bool
    var files: map<Day, seq<Item>>
    var ticks: nat
    var ops: nat
    ghost var tried: map<Day, nat>

    constructor (stamp: bool, files: map<Day, seq<Item>>)
      ensures Abs() == FreshLog(stamp, files)
    {
      this.stamp := stamp;
      dev, baud, day, open, buf, atBol, total, failed := "", 0, 0, false, [], true, 0, false;
      this.files := files;
      ticks, ops, tried := 0, 0, map[];
    }

    ghost function Abs(): (w: Log)
      reads this
    {
      Log(stamp, dev, baud, day, open, buf, atBol, total, failed, files, ticks, ops, tried)
    }

    /** The next reading of the clock. */
    method Now(e: World) returns (t: nat)
      modifies this`ticks
      ensures t == e.clock(old(ticks)) && ticks == old(ticks) + 1
    {
      t := e.clock(ticks);
      ticks := ticks + 1;
    }

    /** The next file operation. */
    method Attempt(e: World) returns (fault: Option<nat>)
      modifies this`ops
      ensures fault == e.fault(old(ops)) && ops == old(ops) + 1
    {
      fault := e.fault(ops);
      ops := ops + 1;
    }

    /** ensureLocked: the file of today, opened if it is not the open one. */
    method EnsureLocked(e: World) returns (ok: bool)
      modifies this
      ensures Outcome(Abs(), ok) == Ensure(e, old(Abs()))
    {
      hide OpenDay;
      var t := Now(e);
      var today := e.day(t);
      if open && day == today { return true; }
      ok := OpenToday(e, today);
    }

    /** Opens today's file, with a header if it is brand new. */
    method OpenToday(e: World, today: Day) returns (ok: bool)
      modifies this
      ensures Outcome(Abs(), ok) == OpenDay(e, old(Abs()), today)
    {
      hide StartDay;
      if open { open := false; }
      var fault := Attempt(e);
      if fault.Some? { return false; }
      CreateIfMissing(today);
      ok := StartToday(e, today);
    }

    method StartToday(e: World, today: Day) returns (ok: bool)
      requires today in files && !open
      modifies this
      ensures Outcome(Abs(), ok) == StartDay(e, old(Abs()), today)
    {
      hide HeaderLeft;
      if |files[today]| == 0 {
        ok := WriteHeader(e, today);
        if !ok { return; }
      }
      open := true;
      day := today;
      return true;
    }

    /** O_CREATE. */
    method CreateIfMissing(today: Day)
      modifies this`files
      ensures files == old(files)[today := FileOf(old(files), today)]
    {
      if today !in files { files := files[today := []]; }
    }

    method WriteHeader(e: World, today: Day) returns (ok: bool)
      modifies this`ticks, this`ops, this`files, this`tried
      ensures tried == old(tried)[today := old(ops)]
      ensures ticks == old(ticks) + 1 && ops == old(ops) + 1 && ok == e.fault(old(ops)).None?
      ensures files == old(files)[today := HeaderLeft(Header(e.clock(old(ticks)), dev, baud, true), e.fault(old(ops)))]
    {
      tried := tried[today := ops];
      var t := Now(e);
      var fault := Attempt(e);
      files := files[today := HeaderLeft(Header(t, dev, baud, true), fault)];
      return fault.None?;
    }

    method FlushLocked(e: World) returns (ok: bool)
      modifies this
      ensures Outcome(Abs(), ok) == FlushBuf(e, old(Abs()))
    {
      hide Ensure, FileOf;
      ok := EnsureLocked(e);
      if !ok || |buf| == 0 { return; }
      var fault := Attempt(e);
      match fault {
        case None =>
          files := files[day := FileOf(files, day) + buf];
          buf := [];
          ok := true;
        case Some(k) =>
          var part := if k <= |buf| then buf[..k] else buf;
          files := files[day := FileOf(files, day) + part];
          ok := false;
      }
    }

    /** One byte: a stamp before the first of a line, then the byte. */
    method AppendByte(e: World, b: byte)
      modifies this
      ensures Abs() == Feed(e, old(Abs()), b)
    {
      if atBol {
        if stamp {
          var t := Now(e);
          buf := buf + [Stamp(t)];
        }
        atBol := false;
      }
      buf := buf + [Byte(b)];
      if b == NEWLINE { atBol := true; }
    }

    /** Write's loop over the bytes, and whether a line ended. */
    method Append(e: World, p: bytes) returns (sawNewline: bool)
      modifies this
      ensures Abs() == FeedAll(e, old(Abs()), p) && (sawNewline <==> NEWLINE in p)
    {
      hide Feed;
      sawNewline := false;
      ghost var w := Abs();
      for i := 0 to |p|
        invariant Abs() == FeedAll(e, w, p[..i])
        invariant sawNewline <==> NEWLINE in p[..i]
      {
        assert p[..i + 1][..i] == p[..i] && p[..i + 1] == p[..i] + [p[i]];
        AppendByte(e, p[i]);
        if p[i] == NEWLINE { sawNewline := true; }
      }
      assert p[..|p|] == p;
    }

    /** Write: always reports the whole length, as the count is taken first. */
    method Write(e: World, p: bytes) returns (n: nat, ok: bool)
      modifies this
      ensures Outcome(Abs(), ok) == WriteTo(e, old(Abs()), p)
      ensures n == |p| && total == old(total) + |p|
    {
      hide FeedAll, FlushBuf;
      n := |p|;
      total := total + |p|;
      if failed { return n, false; }
      ghost var w := Abs();
      var sawNewline := Append(e, p);
      FeedKeepsTotals(e, w, p);
      if sawNewline || Size(buf) >= FLUSH_AT {
        FlushKeepsTotals(e, Abs());
        ok := FlushLocked(e);
        failed := !ok;
        return n, ok;
      }
      return n, true;
    }

    method Flush(e: World) returns (ok: bool)
      modifies this
      ensures Outcome(Abs(), ok) == PortLog.Flush(e, old(Abs()))
    {
      if failed { return false; }
      if |buf| == 0 { return true; }
      ok := FlushLocked(e);
    }

    method Note(e: World, text: string) returns (ok: bool)
      modifies this
      ensures Outcome(Abs(), ok) == AddNote(e, old(Abs()), text)
    {
      hide FlushBuf;
      if failed { return false; }
      if |buf| > 0 {
        ok := FlushLocked(e);
        if !ok { return; }
      }
      var t := Now(e);
      buf := buf + [Item.Note(t, text)];
      atBol := true;
      ok := FlushLocked(e);
    }

    method Close(e: World) returns (ok: bool)
      modifies this
      ensures Outcome(Abs(), ok) == CloseLog(e, old(Abs()))
    {
      ok := true;
      if |buf| > 0 && !failed { ok := FlushLocked(e); }
      if open {
        var fault := Attempt(e);
        ok := ok && fault.None?;
        open := false;
      }
    }
  }
}
