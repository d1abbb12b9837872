/** The framed wire protocol (internal/proto/proto.go) and the client's readUntil
    (cmd/sercon/main.go). */
module Frames {
  import opened Prelude

  const DATA: byte := 1
  const CTRL: byte := 2
  const MAX_PAYLOAD := 0x10_0000

  datatype Frame = Frame(typ: byte, payload: bytes)

  datatype ReadError = Eof | UnexpectedEof | BadType(t: byte) | TooLarge(n: nat)

  datatype Read<+T> = Got(value: T) | Failed(error: ReadError)

  predicate Sendable(f: Frame) { (f.typ == DATA || f.typ == CTRL) && |f.payload| <= MAX_PAYLOAD }

  predicate AllSendable(fs: seq<Frame>) { forall i | 0 <= i < |fs| :: Sendable(fs[i]) }

  /** A frame on the wire. */
  function Encode(f: Frame): (r: bytes)
    requires |f.payload| <= MAX_PAYLOAD
    ensures |r| == 5 + |f.payload|
  {
    [f.typ] + PutU32(|f.payload|) + f.payload
  }

  function EncodeAll(fs: seq<Frame>): (r: bytes)
    requires AllSendable(fs)
  {
    if fs == [] then [] else Encode(fs[0]) + EncodeAll(fs[1..])
  }

  /** What io.ReadFull reports when fewer than n > 0 bytes are left. */
  function Short(left: bytes): (e: ReadError) { if left == [] then Eof else UnexpectedEof }

  datatype Step = Step(result: Read<Frame>, rest: bytes)

  /** Reader.Next on the bytes still to come (proto.go:62-79). */
  function NextFrame(s: bytes): (r: Step)
    ensures |r.rest| <= |s| && (r.result.Got? ==> |r.rest| < |s|)
  {
    if |s| < 5 then Step(Failed(Short(s)), [])
    else
      var t, n, body := s[0], GetU32(s[1..5]), s[5..];
      if t != DATA && t != CTRL then Step(Failed(BadType(t)), body)
      else if n > MAX_PAYLOAD then Step(Failed(TooLarge(n)), body)
      else if |body| < n then Step(Failed(Short(body)), [])
      else Step(Got(Frame(t, body[..n])), body[n..])
  }

  datatype Decoded = Decoded(frames: seq<Frame>, error: ReadError)

  /** Reading until the first error. */
  function DecodeAll(s: bytes): (r: Decoded)
    decreases |s|
  {
    var step := NextFrame(s);
    match step.result
    case Failed(error) => Decoded([], error)
    case Got(f) => var d := DecodeAll(step.rest); Decoded([f] + d.frames, d.error)
  }

  lemma EncodedHeader(f: Frame, rest: bytes)
    requires Sendable(f)
    ensures var s := Encode(f) + rest;
            |s| >= 5 && s[0] == f.typ && GetU32(s[1..5]) == |f.payload| && s[5..] == f.payload + rest
  {
    var s := Encode(f) + rest;
    GetPutU32(|f.payload|);
    assert s == [f.typ] + (PutU32(|f.payload|) + (f.payload + rest));
    assert s[1..5] == PutU32(|f.payload|);
  }

  /** One frame decodes to itself and leaves the rest. */
  lemma NextOfEncoded(f: Frame, rest: bytes)
    requires Sendable(f)
    ensures NextFrame(Encode(f) + rest) == Step(Got(f), rest)
  {
    EncodedHeader(f, rest);
    assert (f.payload + rest)[..|f.payload|] == f.payload && (f.payload + rest)[|f.payload|..] == rest;
  }

  /** Framing loses nothing and adds nothing. */
  lemma {:induction false} DecodeInvertsEncode(fs: seq<Frame>)
    requires AllSendable(fs)
    ensures DecodeAll(EncodeAll(fs)) == Decoded(fs, Eof)
  {
    if fs != [] {
      NextOfEncoded(fs[0], EncodeAll(fs[1..]));
      DecodeInvertsEncode(fs[1..]);
    }
  }

  lemma CutBehind(first: bytes, tail: bytes, s: bytes)
    requires s < first + tail && |s| >= |first|
    ensures s == first + s[|first|..] && s[|first|..] < tail
  {
    assert s == (first + tail)[..|s|];
    assert s[|first|..] == tail[..|s| - |first|];
  }

  lemma TakeShifts(fs: seq<Frame>, k: nat)
    requires k < |fs| && AllSendable(fs)
    ensures fs[..k + 1] == [fs[0]] + fs[1..][..k]
    ensures EncodeAll(fs[..k + 1]) == Encode(fs[0]) + EncodeAll(fs[1..][..k])
  {
    assert fs[..k + 1][1..] == fs[1..][..k];
  }

  lemma PrefixBehind(first: bytes, a: bytes, b: bytes)
    ensures a <= b ==> first + a <= first + b
    ensures a < b ==> first + a < first + b
  {
    if a <= b {
      assert b == a + b[|a|..];
      assert first + b == (first + a) + b[|a|..];
    }
  }

  lemma CutInsideFrame(f: Frame, tail: bytes, s: bytes)
    requires Sendable(f) && s <= Encode(f) + tail && |s| < |Encode(f)|
    ensures NextFrame(s).result.Failed? && (NextFrame(s).result.error.Eof? || NextFrame(s).result.error.UnexpectedEof?)
  {
    EncodedHeader(f, tail);
    if |s| >= 5 {
      assert s[1..5] == (Encode(f) + tail)[1..5];
    }
  }

  /** Cut anywhere, the bytes decode to the frames that are whole, then an end of file:
      no partial, merged or invented frame. */
  lemma {:induction false} CutStreamDecodesToPrefix(fs: seq<Frame>, s: bytes)
    requires AllSendable(fs)
    requires s < EncodeAll(fs)
    ensures var d := DecodeAll(s);
            && |d.frames| < |fs| && d.frames == fs[..|d.frames|]
            && (d.error.Eof? || d.error.UnexpectedEof?)
            && EncodeAll(fs[..|d.frames|]) <= s < EncodeAll(fs[..|d.frames| + 1])
    decreases |fs|
  {
    hide Encode, NextFrame;
    var first, tail := Encode(fs[0]), EncodeAll(fs[1..]);
    if |s| >= |first| {
      var rest := s[|first|..];
      CutBehind(first, tail, s);
      NextOfEncoded(fs[0], rest);
      CutStreamDecodesToPrefix(fs[1..], rest);
      TakeShifts(fs, |DecodeAll(rest).frames|);
      TakeShifts(fs, |DecodeAll(rest).frames| + 1);
      PrefixBehind(first, EncodeAll(fs[1..][..|DecodeAll(rest).frames|]), rest);
      PrefixBehind(first, rest, EncodeAll(fs[1..][..|DecodeAll(rest).frames| + 1]));
    } else {
      CutInsideFrame(fs[0], tail, s);
      TakeShifts(fs, 0);
      assert fs[1..][..0] == [] && first + [] == first;
      assert (first + tail)[..|s|] == first[..|s|];
    }
  }

  // ---------------------------------------------------------------------- writing

  /** What a writer has sent, and whether its stream has failed. */
  datatype Outbound = Outbound(sent: bytes, failed: bool)

  const NOTHING_SENT := Outbound([], false)

  function Up(s: bytes, k: nat): (r: bytes)
    ensures r <= s
  {
    if k <= |s| then s[..k] else s
  }

  /** Writer.Write (proto.go:96-114); the stream may fail after any number of bytes. */
  function WriteFrame(o: Outbound, f: Frame, fault: Option<nat>): (r: Outbound) {
    if |f.payload| > MAX_PAYLOAD || o.failed then o
    else
      match fault
      case None => o.(sent := o.sent + Encode(f))
      case Some(k) => Outbound(o.sent + Up(Encode(f), k), true)
  }

  function WriteAll(fs: seq<Frame>, faults: seq<Option<nat>>): (o: Outbound)
    requires |faults| == |fs|
  {
    if fs == [] then NOTHING_SENT
    else WriteFrame(WriteAll(fs[..|fs| - 1], faults[..|fs| - 1]), fs[|fs| - 1], faults[|fs| - 1])
  }

  /** The frames that are not too large. */
  function Fitting(fs: seq<Frame>): (r: seq<Frame>)
    ensures forall f | f in r :: |f.payload| <= MAX_PAYLOAD && f in fs
  {
    if fs == [] then []
    else Fitting(fs[..|fs| - 1]) + if |fs[|fs| - 1].payload| <= MAX_PAYLOAD then [fs[|fs| - 1]] else []
  }

  predicate KnownTypes(fs: seq<Frame>) { forall f | f in fs :: f.typ == DATA || f.typ == CTRL }

  lemma {:induction false} EncodeAllAppend(fs: seq<Frame>, f: Frame)
    requires AllSendable(fs) && Sendable(f)
    ensures EncodeAll(fs + [f]) == EncodeAll(fs) + Encode(f)
  {
    hide Encode;
    if fs == [] {
      assert [] + [f] == [f] && [f][1..] == [];
      assert Encode(f) + [] == [] + Encode(f);
    } else {
      EncodeAllAppend(fs[1..], f);
      assert (fs + [f])[1..] == fs[1..] + [f];
      assert Encode(fs[0]) + (EncodeAll(fs[1..]) + Encode(f)) == EncodeAll(fs) + Encode(f);
    }
  }

  lemma FittingIsSendable(fs: seq<Frame>)
    requires KnownTypes(fs)
    ensures AllSendable(Fitting(fs))
  {
    forall i | 0 <= i < |Fitting(fs)| ensures Sendable(Fitting(fs)[i]) {
      assert Fitting(fs)[i] in Fitting(fs);
    }
  }

  /** All that was due was sent, or only the first part of it. */
  predicate SentOf(o: Outbound, due: bytes) {
    o.sent <= due && (!o.failed ==> o.sent == due)
  }

  lemma NothingDue()
    ensures SentOf(NOTHING_SENT, EncodeAll([]))
  {
  }

  lemma WriteKeepsSentOf(o: Outbound, f: Frame, fault: Option<nat>, due: bytes)
    requires SentOf(o, due)
    ensures SentOf(WriteFrame(o, f, fault), if |f.payload| <= MAX_PAYLOAD then due + Encode(f) else due)
  {
    hide Encode, Up;
    if |f.payload| <= MAX_PAYLOAD {
      assert due <= due + Encode(f);
      if !o.failed && fault.Some? { PrefixBehind(due, Up(Encode(f), fault.value), Encode(f)); }
    }
  }

  lemma {:induction false} SentIsPrefix(fs: seq<Frame>, faults: seq<Option<nat>>)
    requires |faults| == |fs| && KnownTypes(fs)
    ensures AllSendable(Fitting(fs)) && SentOf(WriteAll(fs, faults), EncodeAll(Fitting(fs)))
    decreases |fs|
  {
    hide Encode, WriteFrame, EncodeAll, SentOf, AllSendable;
    FittingIsSendable(fs);
    if fs == [] {
      NothingDue();
    } else {
      var front, last, fault := fs[..|fs| - 1], fs[|fs| - 1], faults[|fs| - 1];
      SentIsPrefix(front, faults[..|fs| - 1]);
      WriteKeepsSentOf(WriteAll(front, faults[..|fs| - 1]), last, fault, EncodeAll(Fitting(front)));
      if |last.payload| <= MAX_PAYLOAD {
        EncodeAllAppend(Fitting(front), last);
      } else {
        assert Fitting(front) + [] == Fitting(front);
      }
    }
  }

  /** Whatever frames are written and wherever the stream fails, the other end reads a
      prefix of the frames that fit, each whole, and then an end of file; all of them if
      nothing failed. */
  lemma WrittenFramesAreRead(fs: seq<Frame>, faults: seq<Option<nat>>)
    requires |faults| == |fs| && KnownTypes(fs)
    ensures var o := WriteAll(fs, faults); var d := DecodeAll(o.sent);
            && d.frames <= Fitting(fs) && (d.error.Eof? || d.error.UnexpectedEof?)
            && (!o.failed ==> d == Decoded(Fitting(fs), Eof))
  {
    hide WriteAll, DecodeAll, EncodeAll, Encode;
    SentIsPrefix(fs, faults);
    DecodeInvertsEncode(Fitting(fs));
    var sent := WriteAll(fs, faults).sent;
    if sent != EncodeAll(Fitting(fs)) { CutStreamDecodesToPrefix(Fitting(fs), sent); }
  }

  // ------------------------------------------------------------------ the objects

  /** proto.Reader over what its connection will deliver. */
  class Reader {
    var rest: bytes
    const hdr: array<byte>

    constructor (input: bytes)
      ensures rest == input && hdr.Length == 5 && fresh(hdr)
    {
      rest := input;
      hdr := new byte[5](_ => 0);
    }

    /** io.ReadFull into the header buffer. */
    method ReadHeader() returns (error: Option<ReadError>)
      requires hdr.Length == 5
      modifies this, hdr
      ensures |old(rest)| < 5 ==> error == Some(Short(old(rest))) && rest == []
      ensures |old(rest)| >= 5 ==> error == None && hdr[..] == old(rest)[..5] && rest == old(rest)[5..]
    {
      if |rest| < 5 {
        error := Some(Short(rest));
        rest := [];
        return;
      }
      for i := 0 to 5
        invariant rest == old(rest)
        invariant forall k | 0 <= k < i :: hdr[k] == rest[k]
      {
        hdr[i] := rest[i];
      }
      rest := rest[5..];
      error := None;
    }

    method Next() returns (r: Read<Frame>)
      requires hdr.Length == 5
      modifies this, hdr
      ensures NextFrame(old(rest)) == Step(r, rest)
    {
      var error := ReadHeader();
      if error.Some? { return Failed(error.value); }
      var t := hdr[0];
      if t != DATA && t != CTRL { return Failed(BadType(t)); }
      assert hdr[1..5] == old(rest)[1..5];
      var n := GetU32(hdr[1..5]);
      if n > MAX_PAYLOAD { return Failed(TooLarge(n)); }
      if |rest| < n {
        r := Failed(Short(rest));
        rest := [];
        return;
      }
      r := Got(Frame(t, rest[..n]));
      rest := rest[n..];
    }
  }

  /** proto.Writer over what it has sent; a failed buffered writer sends nothing more. */
  class Writer {
    var sent: bytes
    var failed: bool
    const hdr: array<byte>

    constructor ()
      ensures Out() == NOTHING_SENT && hdr.Length == 5 && fresh(hdr)
    {
      sent, failed := [], false;
      hdr := new byte[5](_ => 0);
    }

    function Out(): (o: Outbound)
      reads this
    {
      Outbound(sent, failed)
    }

    /** Write: the header buffer is filled and flushed with the payload; a frame that is
        too large is refused and leaves no trace. */
    method Write(t: byte, p: bytes, fault: Option<nat>) returns (ok: bool)
      requires hdr.Length == 5
      modifies this, hdr
      ensures Out() == WriteFrame(old(Out()), Frame(t, p), fault)
      ensures ok <==> |p| <= MAX_PAYLOAD && !old(failed) && fault.None?
    {
      if |p| > MAX_PAYLOAD { return false; }
      var size := PutU32(|p|);
      hdr[0], hdr[1], hdr[2], hdr[3], hdr[4] := t, size[0], size[1], size[2], size[3];
      assert hdr[..] == [t] + size;
      if failed { return false; }
      var frame := hdr[..];
      if |p| > 0 { frame := frame + p; }
      assert frame == Encode(Frame(t, p));
      match fault {
        case None => sent := sent + frame;
        case Some(k) => sent, failed := sent + Up(frame, k), true;
      }
      return fault.None?;
    }
  }

  // -------------------------------------------------------------------- readUntil

  datatype Message = Message(op: string, text: string)

  datatype Reply = Wanted(msg: Message) | ServerError(text: string) | LinkError(error: ReadError)

  datatype Until = Until(reply: Reply, pending: bytes, rest: bytes)

  /** readUntil (main.go:404-427); `parse` is the JSON decoder. */
  function ReadUntil(s: bytes, want: string, parse: bytes -> Option<Message>): (r: Until)
    decreases |s|
  {
    var step := NextFrame(s);
    match step.result
    case Failed(error) => Until(LinkError(error), [], step.rest)
    case Got(f) =>
      if f.typ == DATA then
        var u := ReadUntil(step.rest, want, parse);
        u.(pending := f.payload + u.pending)
      else
        match parse(f.payload)
        case None => ReadUntil(step.rest, want, parse)
        case Some(msg) =>
          if msg.op == "error" then Until(ServerError(msg.text), [], step.rest)
          else if msg.op == want then Until(Wanted(msg), [], step.rest)
          else ReadUntil(step.rest, want, parse)
  }

  method ReadUntilReply(rd: Reader, want: string, parse: bytes -> Option<Message>)
    returns (reply: Reply, pending: bytes)
    requires rd.hdr.Length == 5
    modifies rd, rd.hdr
    ensures ReadUntil(old(rd.rest), want, parse) == Until(reply, pending, rd.rest)
  {
    pending := [];
    while true
      invariant var whole := ReadUntil(old(rd.rest), want, parse); var now := ReadUntil(rd.rest, want, parse);
                whole == now.(pending := pending + now.pending)
      decreases |rd.rest|
    {
      ghost var now := ReadUntil(rd.rest, want, parse);
      var r := rd.Next();
      match r {
        case Failed(error) =>
          assert pending + [] == pending;
          return LinkError(error), pending;
        case Got(f) =>
          if f.typ == DATA {
            assert pending + now.pending == (pending + f.payload) + ReadUntil(rd.rest, want, parse).pending;
            pending := pending + f.payload;
          } else {
            var parsed := parse(f.payload);
            if parsed.Some? {
              assert pending + [] == pending;
              if parsed.value.op == "error" { return ServerError(parsed.value.text), pending; }
              if parsed.value.op == want { return Wanted(parsed.value), pending; }
            }
          }
      }
    }
  }

  /** The console output carried by some frames. */
  function DataIn(fs: seq<Frame>): (r: bytes) {
    if fs == [] then [] else (if fs[0].typ == DATA then fs[0].payload else []) + DataIn(fs[1..])
  }

  lemma NothingPending(want: string, parse: bytes -> Option<Message>)
    ensures EncodeAll([]) == [] && ReadUntil([], want, parse) == Until(LinkError(Eof), [], [])
    ensures DecodeAll([]).frames == []
  {
  }

  lemma EncodeStep(fs: seq<Frame>)
    requires AllSendable(fs) && fs != []
    ensures EncodeAll(fs) == Encode(fs[0]) + EncodeAll(fs[1..])
  {
  }

  /** readUntil on one frame more. */
  lemma PendingStep(f: Frame, tail: bytes, want: string, parse: bytes -> Option<Message>)
    requires Sendable(f)
    ensures var u, v := ReadUntil(Encode(f) + tail, want, parse), ReadUntil(tail, want, parse);
            if f.typ == DATA then u.pending == f.payload + v.pending && u.rest == v.rest
            else (u.pending == v.pending && u.rest == v.rest) || (u.pending == [] && u.rest == tail)
  {
    hide Encode, NextFrame;
    NextOfEncoded(f, tail);
  }

  /** Serial data that overtakes the reply is not lost: what readUntil hands back and
      what is still to be read make up the whole output, in order. */
  lemma {:induction false} PendingThenRestIsAll(fs: seq<Frame>, want: string, parse: bytes -> Option<Message>)
    requires AllSendable(fs)
    ensures var u := ReadUntil(EncodeAll(fs), want, parse); u.pending + DataIn(DecodeAll(u.rest).frames) == DataIn(fs)
  {
    hide Encode, NextFrame, EncodeAll, DecodeAll, ReadUntil;
    if fs == [] {
      NothingPending(want, parse);
    } else {
      EncodeStep(fs);
      DecodeInvertsEncode(fs[1..]);
      PendingThenRestIsAll(fs[1..], want, parse);
      PendingStep(fs[0], EncodeAll(fs[1..]), want, parse);
      var u := ReadUntil(EncodeAll(fs[1..]), want, parse);
      var rest := DataIn(DecodeAll(u.rest).frames);
      assert (fs[0].payload + u.pending) + rest == fs[0].payload + (u.pending + rest);
    }
  }
}
