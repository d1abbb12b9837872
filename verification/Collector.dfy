/** The transcript that `sercon run` matches patterns against: a bounded buffer fed
    by one goroutine and searched by another (cmd/sercon/run.go:318-384). */
module Collector {
  import opened Prelude
  import opened Ring

  const MAX_COLLECT: nat := 0x40_0000

  /** A pattern: where its leftmost match in a window ends, if there is one. */
  type Pattern = f: bytes -> Option<nat> | forall w :: f(w).Some? ==> f(w).value <= |w| witness (w: bytes) => None

  datatype Transcript = Transcript(buf: bytes, consumed: nat)

  predicate Ok(c: Transcript) { c.consumed <= |c.buf| }

  function Fed(c: Transcript, p: bytes): (r: Transcript) {
    var buf := c.buf + p;
    if |buf| <= MAX_COLLECT then c.(buf := buf)
    else
      var drop := |buf| - MAX_COLLECT;
      Transcript(buf[drop..], if c.consumed < drop then 0 else c.consumed - drop)
  }

  datatype Polled = Polled(c: Transcript, hit: Option<bytes>)

  function Poll(c: Transcript, pattern: Pattern): (r: Polled)
    requires Ok(c)
  {
    var window := c.buf[c.consumed..];
    match pattern(window)
    case None => Polled(c, None)
    case Some(end) => Polled(c.(consumed := c.consumed + end), Some(window[..end]))
  }

  class CollectorObject {
    var buf: bytes
    var consumed: int

    constructor ()
      ensures Valid() && Abs() == Transcript([], 0)
    {
      buf, consumed := [], 0;
    }

    predicate Valid()
      reads this
    {
      0 <= consumed <= |buf|
    }

    function Abs(): (c: Transcript)
      requires Valid()
      reads this
    {
      Transcript(buf, consumed)
    }

    /** feed, under c.mu. */
    method Feed(p: bytes)
      requires Valid()
      modifies this
      ensures Valid() && Abs() == Fed(old(Abs()), p)
    {
      buf := buf + p;
      if |buf| > MAX_COLLECT {
        var drop := |buf| - MAX_COLLECT;
        buf := buf[drop..];
        consumed := consumed - drop;
        if consumed < 0 { consumed := 0; }
      }
    }

    /** One turn of wait's loop, under c.mu. */
    method TryMatch(pattern: Pattern) returns (hit: Option<bytes>)
      requires Valid()
      modifies this`consumed
      ensures Valid() && Polled(Abs(), hit) == Poll(old(Abs()), pattern)
    {
      var window := buf[consumed..];
      var loc := pattern(window);
      if loc.None? { return None; }
      hit := Some(window[..loc.value]);
      consumed := consumed + loc.value;
    }
  }

  // ------------------------------------------------------------------- any history

  datatype Event = Feed(p: bytes) | Wait(pattern: Pattern)

  /** A returned match and where it lies in everything ever fed. */
  datatype Hit = Hit(text: bytes, from: nat, to: nat)

  /** The transcript with its past: all that was fed, the matches returned, and
      whether bytes were dropped before any wait had consumed them. */
  datatype Past = Past(c: Transcript, fed: bytes, hits: seq<Hit>, lost: bool)

  const START := Past(Transcript([], 0), [], [], false)

  /** How far into the stream the next wait starts to look. */
  function Position(s: Past): (n: int) { |s.fed| - |s.c.buf| + s.c.consumed }

  function Apply(s: Past, e: Event): (r: Past)
    requires Ok(s.c)
  {
    match e
    case Feed(p) =>
      var drop := |s.c.buf| + |p| - MAX_COLLECT;
      Past(Fed(s.c, p), s.fed + p, s.hits, s.lost || drop > s.c.consumed)
    case Wait(pattern) =>
      var r := Poll(s.c, pattern);
      var hits := if r.hit.None? || Position(s) < 0 then s.hits
                  else s.hits + [Hit(r.hit.value, Position(s), Position(s) + |r.hit.value|)];
      s.(c := r.c, hits := hits)
  }

  function Run(es: seq<Event>): (r: Past)
    ensures Ok(r.c)
  {
    if es == [] then START else Apply(Run(es[..|es| - 1]), es[|es| - 1])
  }

  predicate HitsOk(s: Past) {
    && (forall i | 0 <= i < |s.hits| ::
          && s.hits[i].from <= s.hits[i].to <= Position(s) && s.hits[i].to <= |s.fed|
          && s.hits[i].text == s.fed[s.hits[i].from..s.hits[i].to])
    && (forall i, j | 0 <= i < j < |s.hits| :: s.hits[i].to <= s.hits[j].from)
  }

  function Texts(hits: seq<Hit>): (r: bytes) {
    if hits == [] then [] else Texts(hits[..|hits| - 1]) + hits[|hits| - 1].text
  }

  predicate PastOk(s: Past) {
    && s.c.buf == Last(MAX_COLLECT, s.fed)
    && Ok(s.c) && HitsOk(s)
    && (!s.lost ==> Position(s) <= |s.fed| && Texts(s.hits) == s.fed[..Position(s)])
  }

  lemma FedIsLast(c: Transcript, p: bytes)
    requires Ok(c) && |c.buf| <= MAX_COLLECT
    ensures var r := Fed(c, p);
            && r.buf == Last(MAX_COLLECT, c.buf + p) && Ok(r)
            && |c.buf| + |p| - |r.buf| + r.consumed >= c.consumed
            && (|c.buf| + |p| - MAX_COLLECT <= c.consumed ==> |c.buf| + |p| - |r.buf| + r.consumed == c.consumed)
  {
  }

  /** Growing the stream leaves the recorded matches where they were. */
  lemma HitsStay(s: Past, r: Past)
    requires HitsOk(s) && r.hits == s.hits && s.fed <= r.fed && Position(r) >= Position(s)
    ensures HitsOk(r)
  {
    forall i | 0 <= i < |s.hits| ensures s.hits[i].text == r.fed[s.hits[i].from..s.hits[i].to] {
      assert r.fed[s.hits[i].from..s.hits[i].to] == s.fed[s.hits[i].from..s.hits[i].to];
    }
  }

  lemma LastIsShort(s: Past)
    requires s.c.buf == Last(MAX_COLLECT, s.fed)
    ensures |s.c.buf| <= MAX_COLLECT && |s.c.buf| <= |s.fed|
  {
  }

  lemma FeedKeepsPast(s: Past, p: bytes)
    requires PastOk(s)
    ensures var r := Apply(s, Feed(p));
            PastOk(r) && Position(r) >= Position(s) && (!r.lost ==> Position(r) == Position(s))
  {
    hide Fed, Last, Texts, HitsOk;
    LastIsShort(s);
    FedIsLast(s.c, p);
    LastOfLast(MAX_COLLECT, s.fed, p);
    var r := Apply(s, Feed(p));
    HitsStay(s, r);
    if !s.lost { assert r.fed[..Position(s)] == s.fed[..Position(s)]; }
  }

  lemma WindowIsStream(s: Past, n: nat)
    requires s.c.buf == Last(MAX_COLLECT, s.fed) && Ok(s.c) && n <= |s.c.buf| - s.c.consumed
    ensures 0 <= Position(s) <= Position(s) + n <= |s.fed|
    ensures s.c.buf[s.c.consumed..][..n] == s.fed[Position(s)..Position(s) + n]
  {
    var start := |s.fed| - |s.c.buf|;
    assert s.c.buf == s.fed[start..];
  }

  lemma HitAdded(s: Past, r: Past, text: bytes)
    requires PastOk(s) && 0 <= Position(s) <= Position(s) + |text| <= |s.fed|
    requires text == s.fed[Position(s)..Position(s) + |text|]
    requires r.fed == s.fed && r.hits == s.hits + [Hit(text, Position(s), Position(s) + |text|)]
    requires Position(r) == Position(s) + |text|
    ensures HitsOk(r) && (!s.lost ==> Texts(r.hits) == s.fed[..Position(r)])
  {
    assert r.hits[..|s.hits|] == s.hits;
    if !s.lost { assert s.fed[..Position(s)] + text == s.fed[..Position(r)]; }
  }

  lemma WaitKeepsPast(s: Past, pattern: Pattern)
    requires PastOk(s)
    ensures var r := Apply(s, Wait(pattern)); PastOk(r) && Position(r) >= Position(s) >= 0
  {
    hide Last, Texts, HitsOk;
    LastIsShort(s);
    var hit := Poll(s.c, pattern).hit;
    if hit.Some? {
      WindowIsStream(s, |hit.value|);
      HitAdded(s, Apply(s, Wait(pattern)), hit.value);
    }
  }

  lemma {:induction false} RunKeepsPast(es: seq<Event>)
    ensures PastOk(Run(es))
    decreases |es|
  {
    if es != [] {
      RunKeepsPast(es[..|es| - 1]);
      var s := Run(es[..|es| - 1]);
      match es[|es| - 1]
      case Feed(p) => FeedKeepsPast(s, p);
      case Wait(pattern) => WaitKeepsPast(s, pattern);
    }
  }

  /** The buffer is the last MAX_COLLECT bytes fed; matches are disjoint slices of the
      stream, in order; and while nothing was dropped unread they tile it from the start. */
  lemma WaitsSliceTheStream(es: seq<Event>)
    ensures var s := Run(es);
            && s.c.buf == Last(MAX_COLLECT, s.fed) && HitsOk(s)
            && (!s.lost ==> Texts(s.hits) <= s.fed && |Texts(s.hits)| == Position(s))
  {
    RunKeepsPast(es);
  }

  /** The place the next wait starts from never moves back. */
  lemma PositionNeverMovesBack(es: seq<Event>, e: Event)
    ensures Position(Run(es + [e])) >= Position(Run(es))
  {
    RunKeepsPast(es);
    assert (es + [e])[..|es|] == es;
    match e
    case Feed(p) => FeedKeepsPast(Run(es), p);
    case Wait(pattern) => WaitKeepsPast(Run(es), pattern);
  }

  /** What a wait makes of the bytes nobody has waited for yet. */
  predicate Waited(s: Past, r: Past, pattern: Pattern)
    requires 0 <= Position(s) <= |s.fed|
  {
    && r.fed == s.fed && r.c.buf == s.c.buf
    && match pattern(s.fed[Position(s)..])
       case None => r == s
       case Some(n) =>
         && Position(r) == Position(s) + n
         && r.hits == s.hits + [Hit(s.fed[Position(s)..][..n], Position(s), Position(s) + n)]
  }

  lemma UnreadIsWindow(s: Past)
    requires PastOk(s)
    ensures 0 <= Position(s) <= |s.fed| && s.fed[Position(s)..] == s.c.buf[s.c.consumed..]
  {
    hide Last, Texts, HitsOk;
    LastIsShort(s);
    WindowIsStream(s, |s.c.buf| - s.c.consumed);
    var window := s.c.buf[s.c.consumed..];
    assert window[..|window|] == window;
  }

  lemma WaitLooksAtUnread(s: Past, pattern: Pattern)
    requires Ok(s.c) && 0 <= Position(s) <= |s.fed| && s.fed[Position(s)..] == s.c.buf[s.c.consumed..]
    ensures Waited(s, Apply(s, Wait(pattern)), pattern)
  {
  }

  /** A wait looks at what was fed behind the last position, and only at that. If the
      pattern ends its match there after n bytes, these are the hit, and the next wait
      starts behind them; if it does not match, nothing has happened. */
  lemma WaitTakesUpToTheMatch(es: seq<Event>, pattern: Pattern)
    ensures 0 <= Position(Run(es)) <= |Run(es).fed| && Waited(Run(es), Run(es + [Wait(pattern)]), pattern)
  {
    hide Last, Texts, HitsOk, Waited;
    RunKeepsPast(es);
    assert (es + [Wait(pattern)])[..|es|] == es;
    UnreadIsWindow(Run(es));
    WaitLooksAtUnread(Run(es), pattern);
  }

  /** Feeding moves the position only where it must: to the first byte still held. */
  lemma FeedSkipsOnlyWhatIsDropped(es: seq<Event>, p: bytes)
    ensures var s, r := Run(es), Run(es + [Feed(p)]);
            && r.fed == s.fed + p && r.hits == s.hits
            && Position(r) == if |r.fed| - MAX_COLLECT > Position(s) then |r.fed| - MAX_COLLECT else Position(s)
  {
    hide Last, Texts, HitsOk;
    RunKeepsPast(es);
    assert (es + [Feed(p)])[..|es|] == es;
    LastIsShort(Run(es));
  }
}
