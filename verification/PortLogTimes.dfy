/** When things were written: the times in the log, the days its lines are filed under,
    and what a call that fails has done. */
module PortLogTimes {
  import opened Prelude
  import opened PortLog
  import opened PortLogTheorems
  import H = PortLogHeaders

  // ------------------------------------------------------ what one call adds, and when

  function TimeOf(i: Item): (t: nat)
    requires !i.Byte?
  {
    i.t
  }

  /** The clock showed t at one of the readings from lo on and below hi. */
  ghost predicate ReadIn(e: World, t: nat, lo: nat, hi: nat) { exists n: nat :: lo <= n < hi && t == e.clock(n) }

  ghost predicate DayIn(e: World, d: Day, lo: nat, hi: nat) { exists n: nat :: lo <= n < hi && d == e.day(e.clock(n)) }

  /** Stamps, notes and headers among some items carry times read then. */
  ghost predicate AllRead(e: World, items: seq<Item>, lo: nat, hi: nat) {
    forall x | x in items && !x.Byte? :: ReadIn(e, TimeOf(x), lo, hi)
  }

  /** What a file has more than before: items of src, and headers written in between. */
  ghost predicate TailFrom(e: World, w: Log, tail: seq<Item>, src: seq<Item>, lo: nat, hi: nat) {
    forall x | x in tail :: x in src || (x.Header? && x.dev == w.dev && x.baud == w.baud && ReadIn(e, x.t, lo, hi))
  }

  /** Files are added to, at their end, and only those of days read then. */
  ghost predicate Adds(e: World, a: Log, b: Log, src: seq<Item>, lo: nat, hi: nat) {
    && (forall d | d in a.files :: d in b.files)
    && (forall d | d in b.files ::
          && FileOf(a.files, d) <= b.files[d]
          && TailFrom(e, a, b.files[d][|FileOf(a.files, d)|..], src, lo, hi)
          && (b.files[d] != FileOf(a.files, d) ==> DayIn(e, d, lo, hi)))
  }

  lemma ReadEarlier(e: World, t: nat, lo: nat, hi: nat, lo': nat, hi': nat)
    requires lo' <= lo && hi <= hi'
    ensures ReadIn(e, t, lo, hi) ==> ReadIn(e, t, lo', hi')
    ensures DayIn(e, t, lo, hi) ==> DayIn(e, t, lo', hi')
  {
  }

  lemma TailWidens(e: World, w: Log, tail: seq<Item>, src: seq<Item>, lo: nat, hi: nat, w': Log, src': seq<Item>,
                   lo': nat, hi': nat)
    requires TailFrom(e, w, tail, src, lo, hi) && lo' <= lo && hi <= hi' && w'.dev == w.dev && w'.baud == w.baud
    requires forall x | x in src :: x in src'
    ensures TailFrom(e, w', tail, src', lo', hi')
  {
    hide ReadIn;
    forall x | x in tail && x !in src ensures ReadIn(e, x.t, lo', hi') { ReadEarlier(e, x.t, lo, hi, lo', hi'); }
  }

  lemma AddsWidens(e: World, a: Log, b: Log, src: seq<Item>, lo: nat, hi: nat, src': seq<Item>, lo': nat, hi': nat)
    requires Adds(e, a, b, src, lo, hi) && lo' <= lo && hi <= hi' && forall x | x in src :: x in src'
    ensures Adds(e, a, b, src', lo', hi')
  {
    hide ReadIn, DayIn, TailFrom;
    forall d | d in b.files
      ensures TailFrom(e, a, b.files[d][|FileOf(a.files, d)|..], src', lo', hi')
      ensures b.files[d] != FileOf(a.files, d) ==> DayIn(e, d, lo', hi')
    {
      TailWidens(e, a, b.files[d][|FileOf(a.files, d)|..], src, lo, hi, a, src', lo', hi');
      ReadEarlier(e, d, lo, hi, lo', hi');
    }
  }

  lemma TailsJoin(e: World, w: Log, s: seq<Item>, t: seq<Item>, src: seq<Item>, lo: nat, hi: nat)
    requires TailFrom(e, w, s, src, lo, hi) && TailFrom(e, w, t, src, lo, hi)
    ensures TailFrom(e, w, s + t, src, lo, hi)
  {
    hide ReadIn;
  }

  lemma AddedTwice(e: World, a: Log, b: Log, c: Log, src: seq<Item>, lo: nat, hi: nat, d: Day)
    requires Adds(e, a, b, src, lo, hi) && Adds(e, b, c, src, lo, hi) && d in c.files
    requires a.dev == b.dev && a.baud == b.baud
    ensures FileOf(a.files, d) <= c.files[d]
    ensures TailFrom(e, a, c.files[d][|FileOf(a.files, d)|..], src, lo, hi)
    ensures c.files[d] != FileOf(a.files, d) ==> DayIn(e, d, lo, hi)
  {
    hide TailFrom, ReadIn, DayIn;
    var f, g, h := FileOf(a.files, d), FileOf(b.files, d), c.files[d];
    TailWidens(e, b, h[|g|..], src, lo, hi, a, src, lo, hi);
    if d in b.files {
      TailsJoin(e, a, g[|f|..], h[|g|..], src, lo, hi);
      assert h[|f|..] == g[|f|..] + h[|g|..];
      assert f <= h by { assert f == g[..|f|] && g == h[..|g|]; }
    } else {
      assert f == [] && g == [];
    }
  }

  lemma AddsOn(e: World, a: Log, b: Log, c: Log, src: seq<Item>, lo: nat, hi: nat)
    requires Adds(e, a, b, src, lo, hi) && Adds(e, b, c, src, lo, hi)
    requires a.dev == b.dev && a.baud == b.baud
    ensures Adds(e, a, c, src, lo, hi)
  {
    hide TailFrom, ReadIn, DayIn;
    forall d | d in c.files
      ensures && FileOf(a.files, d) <= c.files[d]
              && TailFrom(e, a, c.files[d][|FileOf(a.files, d)|..], src, lo, hi)
              && (c.files[d] != FileOf(a.files, d) ==> DayIn(e, d, lo, hi))
    {
      AddedTwice(e, a, b, c, src, lo, hi, d);
    }
  }

  /** Only the files are looked at. */
  lemma AddsFrame(e: World, a: Log, b: Log, a': Log, b': Log, src: seq<Item>, lo: nat, hi: nat)
    requires Adds(e, a, b, src, lo, hi)
    requires a'.files == a.files && b'.files == b.files && a'.dev == a.dev && a'.baud == a.baud
    ensures Adds(e, a', b', src, lo, hi)
  {
    hide ReadIn, DayIn, TailFrom;
    forall d | d in b.files ensures TailFrom(e, a', b.files[d][|FileOf(a.files, d)|..], src, lo, hi) {
      TailWidens(e, a, b.files[d][|FileOf(a.files, d)|..], src, lo, hi, a', src, lo, hi);
    }
  }

  lemma SameFilesAdd(e: World, a: Log, b: Log, src: seq<Item>, lo: nat, hi: nat)
    requires b.files == a.files
    ensures Adds(e, a, b, src, lo, hi)
  {
  }

  // ------------------------------------------------------------------------ one flush

  lemma HeaderLeftIs(h: Item, fault: Option<nat>)
    requires h.Header?
    ensures forall x | x in HeaderLeft(h, fault) :: x.Header? && x.t == h.t && x.dev == h.dev && x.baud == h.baud
  {
  }

  lemma HeaderIsNews(e: World, w: Log, d: Day, h: Item, fault: Option<nat>, w': Log, lo: nat, hi: nat)
    requires FileOf(w.files, d) == [] && h.Header? && h.dev == w.dev && h.baud == w.baud
    requires ReadIn(e, h.t, lo, hi) && DayIn(e, d, lo, hi) && w'.files == w.files[d := HeaderLeft(h, fault)]
    ensures Adds(e, w, w', [], lo, hi)
  {
    hide ReadIn, DayIn, HeaderLeft;
    HeaderLeftIs(h, fault);
    assert HeaderLeft(h, fault)[0..] == HeaderLeft(h, fault);
  }

  lemma OpeningKeeps(e: World, w: Log, d: Day)
    ensures var r := OpenDay(e, w, d);
            && r.w.buf == w.buf && r.w.dev == w.dev && r.w.baud == w.baud
            && (r.ok ==> r.w.open && r.w.day == d) && w.ticks <= r.w.ticks
            && (FileOf(w.files, d) == [] && e.fault(w.ops).None? ==> w.ticks < r.w.ticks)
  {
  }

  lemma OpeningAdds(e: World, w: Log, d: Day)
    ensures var r := OpenDay(e, w, d).w;
            if FileOf(w.files, d) != [] || e.fault(w.ops).Some? then r.files == w.files
            else r.files == w.files[d := HeaderLeft(Header(e.clock(w.ticks), w.dev, w.baud, true), e.fault(w.ops + 1))]
  {
    hide HeaderLeft;
    if FileOf(w.files, d) != [] {
      assert w.files[d := FileOf(w.files, d)] == w.files;
    } else if e.fault(w.ops).None? {
      H.EmptyFileOpens(e, w, d);
    }
  }

  /** Opening today's file reads the clock for the day, and again for a header. */
  lemma EnsureAdds(e: World, w: Log)
    ensures var r := Ensure(e, w).w;
            && Adds(e, w, r, [], w.ticks, r.ticks) && r.buf == w.buf && r.dev == w.dev && r.baud == w.baud
            && w.ticks < r.ticks && (Ensure(e, w).ok ==> r.open && r.day == e.day(e.clock(w.ticks)))
  {
    hide Adds, HeaderLeft, OpenDay;
    var d, w1, r := e.day(e.clock(w.ticks)), w.(ticks := w.ticks + 1), Ensure(e, w).w;
    OpeningKeeps(e, w1, d);
    OpeningAdds(e, w1, d);
    if r.files == w.files {
      SameFilesAdd(e, w, r, [], w.ticks, r.ticks);
    } else {
      var h := Header(e.clock(w1.ticks), w.dev, w.baud, true);
      assert w.ticks <= w1.ticks < r.ticks;
      HeaderIsNews(e, w, d, h, e.fault(w1.ops + 1), r, w.ticks, r.ticks);
    }
  }

  lemma PartIsNews(e: World, w: Log, w': Log, part: seq<Item>, lo: nat, hi: nat)
    requires w'.files == w.files[w.day := FileOf(w.files, w.day) + part] && DayIn(e, w.day, lo, hi)
    requires forall x | x in part :: x in w.buf
    ensures Adds(e, w, w', w.buf, lo, hi)
  {
    hide ReadIn, DayIn;
    var f := FileOf(w.files, w.day);
    assert (f + part)[|f|..] == part;
  }

  /** A flush puts what is in the buffer, or the first part of it, behind today's file. */
  lemma FlushAdds(e: World, w: Log)
    ensures var r := FlushBuf(e, w).w;
            && Adds(e, w, r, w.buf, w.ticks, r.ticks) && r.dev == w.dev && r.baud == w.baud && w.ticks < r.ticks
            && (r.buf == w.buf || r.buf == [])
  {
    hide Ensure, Adds;
    EnsureAdds(e, w);
    var m, r := Ensure(e, w), FlushBuf(e, w).w;
    AddsWidens(e, w, m.w, [], w.ticks, m.w.ticks, w.buf, w.ticks, r.ticks);
    if !m.ok || m.w.buf == [] {
      SameFilesAdd(e, m.w, r, w.buf, w.ticks, r.ticks);
    } else {
      var part := match e.fault(m.w.ops)
        case None => m.w.buf
        case Some(k) => if k <= |m.w.buf| then m.w.buf[..k] else m.w.buf;
      assert w.ticks <= w.ticks < r.ticks;
      PartIsNews(e, m.w, r, part, w.ticks, r.ticks);
    }
    AddsOn(e, w, m.w, r, w.buf, w.ticks, r.ticks);
  }

  // -------------------------------------------------------------------------- one call

  /** Feeding adds the bytes, and stamps of readings taken meanwhile. */
  lemma {:induction false} FeedReads(e: World, w: Log, p: bytes)
    ensures var r := FeedAll(e, w, p);
            && r == w.(buf := r.buf, atBol := r.atBol, ticks := r.ticks) && w.ticks <= r.ticks
            && (forall x | x in r.buf && x !in w.buf && !x.Byte? :: x.Stamp? && ReadIn(e, x.t, w.ticks, r.ticks))
    decreases |p|
  {
    if p != [] {
      var m, r := FeedAll(e, w, p[..|p| - 1]), FeedAll(e, w, p);
      FeedReads(e, w, p[..|p| - 1]);
      forall x | x in r.buf && x !in w.buf && !x.Byte? ensures x.Stamp? && ReadIn(e, x.t, w.ticks, r.ticks) {
        if x in m.buf {
          ReadEarlier(e, x.t, w.ticks, m.ticks, w.ticks, r.ticks);
        } else {
          assert x == Stamp(e.clock(m.ticks)) && w.ticks <= m.ticks < r.ticks;
        }
      }
    }
  }

  /** x was in the buffer, or is a byte, or carries a time the clock showed during the call
      that leads from w to w'; a header names the device last described. */
  ghost predicate New(e: World, w: Log, w': Log, x: Item) {
    x in w.buf || x.Byte?
    || (ReadIn(e, TimeOf(x), w.ticks, w'.ticks) && (x.Header? ==> x.dev == w.dev && x.baud == w.baud))
  }

  /** All that a call adds to the files and the buffer is new in that sense; and a file it
      adds to is that of a day the clock showed during the call. */
  ghost predicate OfItsCall(e: World, w: Log, w': Log) {
    && w.ticks <= w'.ticks
    && (forall x | x in w'.buf :: New(e, w, w', x))
    && (forall d | d in w.files :: d in w'.files)
    && (forall d | d in w'.files ::
          && FileOf(w.files, d) <= w'.files[d]
          && (forall x | x in w'.files[d][|FileOf(w.files, d)|..] :: New(e, w, w', x))
          && (w'.files[d] != FileOf(w.files, d) ==> DayIn(e, d, w.ticks, w'.ticks)))
  }

  lemma FromSource(e: World, w: Log, w': Log, src: seq<Item>)
    requires w.ticks <= w'.ticks && Adds(e, w, w', src, w.ticks, w'.ticks)
    requires forall x | x in src || x in w'.buf :: New(e, w, w', x)
    ensures OfItsCall(e, w, w')
  {
    hide ReadIn, DayIn;
  }

  lemma ClosedFrame(e: World, w: Log, a: Log, b: Log)
    requires OfItsCall(e, w, a) && b.files == a.files && b.buf == a.buf && b.ticks == a.ticks
    ensures OfItsCall(e, w, b)
  {
    hide ReadIn, DayIn;
    assert forall x :: New(e, w, a, x) ==> New(e, w, b, x);
  }

  lemma NothingNew(e: World, w: Log, w': Log)
    requires w'.files == w.files && w'.buf == w.buf && w'.ticks == w.ticks
    ensures OfItsCall(e, w, w')
  {
  }

  lemma FlushIsOfItsCall(e: World, w: Log)
    ensures OfItsCall(e, w, FlushBuf(e, w).w)
  {
    hide FlushBuf, Adds, ReadIn;
    FlushAdds(e, w);
    FromSource(e, w, FlushBuf(e, w).w, w.buf);
  }

  lemma WriteIsOfItsCall(e: World, w: Log, p: bytes)
    ensures OfItsCall(e, w, WriteTo(e, w, p).w)
  {
    hide FlushBuf, FeedAll, Size, Adds, ReadIn, OfItsCall;
    var w1 := w.(total := w.total + |p|);
    var w2, r := FeedAll(e, w1, p), WriteTo(e, w, p).w;
    FeedReads(e, w1, p);
    FlushAdds(e, w2);
    if w.failed {
      NothingNew(e, w, r);
    } else {
      forall x | x in w2.buf && x !in w.buf && !x.Byte? ensures x.Stamp? && ReadIn(e, x.t, w.ticks, r.ticks) {
        ReadEarlier(e, x.t, w.ticks, w2.ticks, w.ticks, r.ticks);
      }
      if r.files == w.files {
        SameFilesAdd(e, w, r, w2.buf, w.ticks, r.ticks);
      } else {
        var f := FlushBuf(e, w2).w;
        AddsWidens(e, w2, f, w2.buf, w2.ticks, f.ticks, w2.buf, w.ticks, r.ticks);
        AddsFrame(e, w2, f, w, r, w2.buf, w.ticks, r.ticks);
      }
      FromSource(e, w, r, w2.buf);
    }
  }

  lemma NoteIsRead(e: World, note: Item, n: nat, lo: nat, hi: nat)
    requires note.Note? && note.t == e.clock(n) && lo <= n < hi
    ensures ReadIn(e, TimeOf(note), lo, hi)
  {
  }

  lemma NoteIsOfItsCall(e: World, w: Log, text: string)
    ensures OfItsCall(e, w, AddNote(e, w, text).w)
  {
    hide FlushBuf, Adds, ReadIn, OfItsCall;
    var w1 := if w.buf == [] then w else FlushBuf(e, w).w;
    var note := Note(e.clock(w1.ticks), text);
    var w2 := w1.(buf := w1.buf + [note], ticks := w1.ticks + 1, atBol := true);
    var f, r := FlushBuf(e, w2).w, AddNote(e, w, text).w;
    FlushAdds(e, w);
    FlushAdds(e, w2);
    if w.failed {
      NothingNew(e, w, r);
    } else if r == w1 {
      FlushIsOfItsCall(e, w);
      NothingNew(e, w, w);
    } else {
      var src := w.buf + [note];
      NoteIsRead(e, note, w1.ticks, w.ticks, r.ticks);
      if w.buf == [] { SameFilesAdd(e, w, w1, src, w.ticks, r.ticks); }
      else { AddsWidens(e, w, w1, w.buf, w.ticks, w1.ticks, src, w.ticks, r.ticks); }
      AddsWidens(e, w2, f, w2.buf, w2.ticks, f.ticks, src, w.ticks, r.ticks);
      AddsFrame(e, w2, f, w1, r, src, w.ticks, r.ticks);
      AddsOn(e, w, w1, r, src, w.ticks, r.ticks);
      FromSource(e, w, r, src);
    }
  }

  /** So it is for every call, whatever the clock shows and whatever fails. */
  lemma TimesAreOfTheirCall(e: World, w: Log, op: Op)
    ensures OfItsCall(e, w, Apply(e, w, op).w)
  {
    hide FlushBuf, WriteTo, AddNote, OfItsCall;
    FlushIsOfItsCall(e, w);
    NothingNew(e, w, w);
    match op
    case Write(p) => WriteIsOfItsCall(e, w, p);
    case MakeNote(text) => NoteIsOfItsCall(e, w, text);
    case DoFlush =>
    case DoClose => ClosedFrame(e, w, if w.buf != [] && !w.failed then FlushBuf(e, w).w else w, CloseLog(e, w).w);
    case Describe(dev, baud) => NothingNew(e, w, w.(dev := dev, baud := baud));
  }

  // ------------------------------------------------------------------ in order, over runs

  /** The times of the stamps and notes among some items; headers are dated apart. */
  function Times(items: seq<Item>): (r: seq<nat>) {
    if items == [] then []
    else
      var x := items[|items| - 1];
      Times(items[..|items| - 1]) + if x.Stamp? || x.Note? then [x.t] else []
  }

  lemma {:induction false} TimesConcat(a: seq<Item>, b: seq<Item>)
    ensures Times(a + b) == Times(a) + Times(b)
    decreases |b|
  {
    if b == [] {
      assert a + b == a;
    } else {
      TimesConcat(a, b[..|b| - 1]);
      assert (a + b)[..|a + b| - 1] == a + b[..|b| - 1];
    }
  }

  lemma TimesOfOne(x: Item)
    ensures Times([x]) == if x.Stamp? || x.Note? then [x.t] else []
  {
    assert [x][..0] == [];
  }

  /** What the clock shows at some of its readings. */
  function Shown(e: World, at: seq<nat>): (r: seq<nat>) {
    seq<nat>(|at|, i requires 0 <= i < |at| => e.clock(at[i]))
  }

  /** Readings one after the other, from lo on and below hi. */
  predicate Rising(at: seq<nat>, lo: nat, hi: nat) {
    && (forall i | 0 <= i < |at| :: lo <= at[i] < hi)
    && (forall i, j | 0 <= i < j < |at| :: at[i] < at[j])
  }

  lemma NoneShown(e: World)
    ensures Shown(e, []) == [] && Rising([], 0, 0)
  {
  }

  lemma ShownConcat(e: World, a: seq<nat>, b: seq<nat>)
    ensures Shown(e, a + b) == Shown(e, a) + Shown(e, b)
  {
  }

  function HeldTimes(w: Log, n: Day): (r: seq<nat>) { Times(Cat(w.files, n) + w.buf) }

  lemma EnsureKeepsTimes(e: World, w: Log, n: Day)
    requires NoFaults(e) && Steady(e) && UpToDate(e, w) && e.day(e.clock(w.ticks)) < n
    ensures Times(Cat(Ensure(e, w).w.files, n)) == Times(Cat(w.files, n))
  {
    hide NoFaults, Steady, Ensure, Times, Cat, Marks;
    var d, r := e.day(e.clock(w.ticks)), Ensure(e, w).w;
    EnsureConserves(e, w, n);
    EnsureOpensToday(e, w);
    if r.files != w.files {
      var h := Header(e.clock(w.ticks + 1), w.dev, w.baud, true);
      assert FileOf(w.files, d) + [h] == [h];
      CatAppend(w.files, d, [h], n);
      TimesConcat(Cat(w.files, n), [h]);
      TimesOfOne(h);
    }
  }

  /** A flush moves the buffer to the end, and no stamp or note past another. */
  lemma FlushKeepsTimes(e: World, w: Log, n: Day)
    requires NoFaults(e) && Steady(e) && UpToDate(e, w) && e.day(e.clock(w.ticks)) < n
    ensures HeldTimes(FlushBuf(e, w).w, n) == HeldTimes(w, n)
  {
    hide Steady, Ensure, Times, Cat, Marks;
    EnsureKeepsTimes(e, w, n);
    EnsureConserves(e, w, n);
    var m := Ensure(e, w).w;
    TimesConcat(Cat(w.files, n), w.buf);
    TimesConcat(Cat(m.files, n), m.buf);
    if m.buf != [] {
      CatAppend(m.files, m.day, m.buf, n);
      var r := FlushBuf(e, w).w;
      assert Cat(r.files, n) + [] == Cat(r.files, n);
    }
  }

  lemma RisingOn(at: seq<nat>, lo: nat, hi: nat, n: nat)
    requires Rising(at, lo, hi) && lo <= hi <= n
    ensures Rising(at, lo, n + 1) && Rising(at + [n], lo, n + 1)
  {
  }

  /** Stamps are of readings taken one by one, as the bytes come. */
  lemma {:induction false} FeedShows(e: World, w: Log, p: bytes) returns (at: seq<nat>)
    ensures var r := FeedAll(e, w, p);
            && w.ticks <= r.ticks <= w.ticks + |p| && Rising(at, w.ticks, r.ticks)
            && Times(r.buf) == Times(w.buf) + Shown(e, at)
    decreases |p|
  {
    hide Times;
    if p == [] { return []; }
    var front, b := p[..|p| - 1], p[|p| - 1];
    var m := FeedAll(e, w, front);
    at := FeedShows(e, w, front);
    TimesOfOne(Byte(b));
    if m.atBol && m.stamp {
      var stamp := Stamp(e.clock(m.ticks));
      TimesConcat(m.buf, [stamp]);
      TimesOfOne(stamp);
      TimesConcat(m.buf + [stamp], [Byte(b)]);
      ShownConcat(e, at, [m.ticks]);
      assert Shown(e, [m.ticks]) == [stamp.t];
      RisingOn(at, w.ticks, m.ticks, m.ticks);
      at := at + [m.ticks];
    } else {
      TimesConcat(m.buf, [Byte(b)]);
    }
  }

  lemma RisingJoins(a: seq<nat>, b: seq<nat>, lo: nat, mid: nat, hi: nat)
    requires Rising(a, lo, mid) && Rising(b, mid, hi) && lo <= mid <= hi
    ensures Rising(a + b, lo, hi)
  {
  }

  lemma RisingWidens(at: seq<nat>, lo: nat, hi: nat, lo': nat, hi': nat)
    requires Rising(at, lo, hi) && lo' <= lo && hi <= hi'
    ensures Rising(at, lo', hi')
  {
  }

  lemma WriteShows(e: World, w: Log, p: bytes, n: Day) returns (at: seq<nat>)
    requires NoFaults(e) && Steady(e) && UpToDate(e, w) && !w.failed
    requires forall i: nat | i <= w.ticks + |p| + 2 :: e.day(e.clock(i)) < n
    ensures var r := WriteTo(e, w, p).w;
            Rising(at, w.ticks, r.ticks) && HeldTimes(r, n) == HeldTimes(w, n) + Shown(e, at)
  {
    hide NoFaults, Steady, FeedAll, FlushBuf, Size, Times, Cat, Rising, Shown;
    var w1 := w.(total := w.total + |p|);
    var w2 := FeedAll(e, w1, p);
    at := FeedShows(e, w1, p);
    FeedReads(e, w1, p);
    StaysUpToDate(e, w1, w2);
    FlushKeepsTimes(e, w2, n);
    FlushAdds(e, w2);
    TimesConcat(Cat(w.files, n), w.buf);
    TimesConcat(Cat(w.files, n), w2.buf);
    RisingWidens(at, w.ticks, w2.ticks, w.ticks, WriteTo(e, w, p).w.ticks);
  }

  lemma NotedShows(e: World, w: Log, text: string, n: Day)
    requires Steady(e) && UpToDate(e, w)
    ensures var w2 := w.(buf := w.buf + [Note(e.clock(w.ticks), text)], ticks := w.ticks + 1, atBol := true);
            UpToDate(e, w2) && HeldTimes(w2, n) == HeldTimes(w, n) + Shown(e, [w.ticks])
  {
    hide Times, Cat, Steady;
    var note := Note(e.clock(w.ticks), text);
    StaysUpToDate(e, w, w.(buf := w.buf + [note], ticks := w.ticks + 1, atBol := true));
    assert Cat(w.files, n) + (w.buf + [note]) == (Cat(w.files, n) + w.buf) + [note];
    TimesConcat(Cat(w.files, n) + w.buf, [note]);
    TimesOfOne(note);
    assert Shown(e, [w.ticks]) == [note.t];
  }

  lemma NoteShows(e: World, w: Log, text: string, n: Day) returns (at: seq<nat>)
    requires NoFaults(e) && Steady(e) && UpToDate(e, w) && !w.failed
    requires forall i: nat | i <= w.ticks + 5 :: e.day(e.clock(i)) < n
    ensures var r := AddNote(e, w, text).w;
            Rising(at, w.ticks, r.ticks) && HeldTimes(r, n) == HeldTimes(w, n) + Shown(e, at)
  {
    hide NoFaults, Steady, UpToDate, FlushBuf, HeldTimes, Held, Shown;
    var w1 := if w.buf == [] then w else FlushBuf(e, w).w;
    FlushConserves(e, w, n);
    FlushKeepsTimes(e, w, n);
    NotedShows(e, w1, text, n);
    var w2 := w1.(buf := w1.buf + [Note(e.clock(w1.ticks), text)], ticks := w1.ticks + 1, atBol := true);
    FlushConserves(e, w2, n);
    FlushKeepsTimes(e, w2, n);
    at := [w1.ticks];
  }

  lemma CallShows(e: World, w: Log, op: Op, n: Day) returns (at: seq<nat>)
    requires NoFaults(e) && Steady(e) && UpToDate(e, w) && !w.failed
    requires forall i: nat | i <= w.ticks + Readings(op) :: e.day(e.clock(i)) < n
    ensures var r := Apply(e, w, op).w;
            Rising(at, w.ticks, r.ticks) && HeldTimes(r, n) == HeldTimes(w, n) + Shown(e, at)
  {
    hide NoFaults, Steady, WriteTo, AddNote, FlushBuf, UpToDate, Times, Cat;
    match op
    case Write(p) => at := WriteShows(e, w, p, n);
    case MakeNote(text) => at := NoteShows(e, w, text, n);
    case _ =>
      at := [];
      FlushKeepsTimes(e, w, n);
      FlushAdds(e, w);
      assert HeldTimes(w, n) + Shown(e, at) == HeldTimes(w, n);
  }

  /** The stamps and notes of a run carry the times of readings taken one after the other,
      a reading for each: the times of what the log holds, in order, are those that were
      there before and then these. */
  lemma {:induction false} TimesAreReadInOrder(e: World, stamp: bool, files: map<Day, seq<Item>>, ops: seq<Op>, n: Day)
    returns (at: seq<nat>)
    requires NoFaults(e) && Steady(e) && n >= Horizon(e, ops) && UpToDate(e, FreshLog(stamp, files))
    ensures var w := ApplyAll(e, FreshLog(stamp, files), ops);
            Rising(at, 0, w.ticks) && HeldTimes(w, n) == Times(Cat(files, n)) + Shown(e, at)
    decreases |ops|
  {
    hide NoFaults, Steady, Apply, Times, Cat, Marks, Layout, AllEvents, UpToDate, New, Rising, Shown;
    if ops == [] {
      NoneShown(e);
      assert Cat(files, n) + [] == Cat(files, n);
      at := [];
    } else {
      var front, op := ops[..|ops| - 1], ops[|ops| - 1];
      Later(e, AllReadings(front), AllReadings(ops));
      RunIsFaithful(e, stamp, files, front, n);
      var w := ApplyAll(e, FreshLog(stamp, files), front);
      forall i: nat | i <= w.ticks + Readings(op) ensures e.day(e.clock(i)) < n { Later(e, i, AllReadings(ops)); }
      var before := TimesAreReadInOrder(e, stamp, files, front, n);
      var now := CallShows(e, w, op, n);
      at := before + now;
      ShownConcat(e, before, now);
      TimesAreOfTheirCall(e, w, op);
      RisingJoins(before, now, 0, w.ticks, Apply(e, w, op).w.ticks);
    }
  }

  lemma {:induction false} NothingThere(n: Day)
    ensures Times(Cat(map[], n)) == []
  {
    if n > 0 {
      NothingThere(n - 1);
      assert Cat(map[], n - 1) + [] == Cat(map[], n - 1);
    }
  }

  /** So with a clock that never runs backwards the times never go back along the log. */
  lemma TimesNeverGoBack(e: World, stamp: bool, ops: seq<Op>, i: nat, j: nat)
    requires NoFaults(e) && Steady(e)
    requires var w := ApplyAll(e, FreshLog(stamp, map[]), ops); i < j < |HeldTimes(w, Horizon(e, ops))|
    ensures var times := HeldTimes(ApplyAll(e, FreshLog(stamp, map[]), ops), Horizon(e, ops)); times[i] <= times[j]
  {
    hide NoFaults, ApplyAll;
    var n := Horizon(e, ops);
    NothingThere(n);
    var at := TimesAreReadInOrder(e, stamp, map[], ops, n);
  }
}
