/** What reading a connection comes to: which frame is the reply readUntil returns, and
    what any bytes at all are decoded to. */
module FrameReplies {
  import opened Prelude
  import opened Frames

  // ----------------------------------------------------------------- readUntil's reply

  /** A control frame that readUntil does not pass over. */
  predicate Answers(f: Frame, want: string, parse: bytes -> Option<Message>) {
    f.typ == CTRL && parse(f.payload).Some? && parse(f.payload).value.op in {"error", want}
  }

  predicate NoneAnswers(fs: seq<Frame>, want: string, parse: bytes -> Option<Message>) {
    forall i | 0 <= i < |fs| :: !Answers(fs[i], want, parse)
  }

  lemma SkippedFrame(f: Frame, tail: bytes, want: string, parse: bytes -> Option<Message>)
    requires Sendable(f) && !Answers(f, want, parse)
    ensures var u, v := ReadUntil(Encode(f) + tail, want, parse), ReadUntil(tail, want, parse);
            u == v.(pending := (if f.typ == DATA then f.payload else []) + v.pending)
  {
    hide Encode, NextFrame;
    NextOfEncoded(f, tail);
    assert [] + ReadUntil(tail, want, parse).pending == ReadUntil(tail, want, parse).pending;
  }

  lemma AnsweringFrame(f: Frame, tail: bytes, want: string, parse: bytes -> Option<Message>)
    requires Sendable(f) && Answers(f, want, parse)
    ensures var u, msg := ReadUntil(Encode(f) + tail, want, parse), parse(f.payload).value;
            u == Until(if msg.op == "error" then ServerError(msg.text) else Wanted(msg), [], tail)
  {
    hide Encode, NextFrame;
    NextOfEncoded(f, tail);
  }

  /** Frames that do not answer leave their data behind and nothing else. */
  lemma {:induction false} SkippedFrames(fs: seq<Frame>, tail: bytes, want: string, parse: bytes -> Option<Message>)
    requires AllSendable(fs) && NoneAnswers(fs, want, parse)
    ensures var u, v := ReadUntil(EncodeAll(fs) + tail, want, parse), ReadUntil(tail, want, parse);
            u == v.(pending := DataIn(fs) + v.pending)
  {
    hide ReadUntil, Encode, Answers;
    var v := ReadUntil(tail, want, parse);
    if fs == [] {
      assert [] + tail == tail && [] + v.pending == v.pending;
    } else {
      var rest := EncodeAll(fs[1..]) + tail;
      assert EncodeAll(fs) + tail == Encode(fs[0]) + rest;
      SkippedFrames(fs[1..], tail, want, parse);
      SkippedFrame(fs[0], rest, want, parse);
      var own := if fs[0].typ == DATA then fs[0].payload else [];
      assert own + (DataIn(fs[1..]) + v.pending) == DataIn(fs) + v.pending;
    }
  }

  lemma {:induction false} EncodeAllConcat(a: seq<Frame>, b: seq<Frame>)
    requires AllSendable(a) && AllSendable(b)
    ensures EncodeAll(a + b) == EncodeAll(a) + EncodeAll(b)
  {
    hide Encode;
    if a == [] {
      assert a + b == b && [] + EncodeAll(b) == EncodeAll(b);
    } else {
      assert (a + b)[1..] == a[1..] + b;
      EncodeAllConcat(a[1..], b);
      assert Encode(a[0]) + (EncodeAll(a[1..]) + EncodeAll(b)) == EncodeAll(a) + EncodeAll(b);
    }
  }

  /** The first frame that answers is the reply, the server's error as an error and the
      wanted reply as itself; the data before it is handed back, and whatever bytes come
      behind it are left to be read. */
  lemma FirstAnswerIsTheReply(fs: seq<Frame>, i: nat, tail: bytes, want: string, parse: bytes -> Option<Message>)
    requires AllSendable(fs) && i < |fs| && Answers(fs[i], want, parse) && NoneAnswers(fs[..i], want, parse)
    ensures var u, msg := ReadUntil(EncodeAll(fs) + tail, want, parse), parse(fs[i].payload).value;
            && (msg.op == "error" <==> u.reply == ServerError(msg.text))
            && (msg.op != "error" <==> u.reply == Wanted(msg)) && (u.reply.Wanted? ==> msg.op == want)
            && u.pending == DataIn(fs[..i]) && u.rest == EncodeAll(fs[i + 1..]) + tail
  {
    hide ReadUntil, Encode, EncodeAll, DataIn;
    var rest := EncodeAll(fs[i + 1..]) + tail;
    EncodeAllConcat(fs[..i], fs[i..]);
    assert fs[..i] + fs[i..] == fs && fs[i..][1..] == fs[i + 1..];
    EncodeStep(fs[i..]);
    assert EncodeAll(fs) + tail == EncodeAll(fs[..i]) + (Encode(fs[i]) + rest);
    AnsweringFrame(fs[i], rest, want, parse);
    SkippedFrames(fs[..i], Encode(fs[i]) + rest, want, parse);
    assert DataIn(fs[..i]) + [] == DataIn(fs[..i]);
  }

  /** Without an answer the call ends with the connection, and loses no data. */
  lemma NoAnswerIsEof(fs: seq<Frame>, want: string, parse: bytes -> Option<Message>)
    requires AllSendable(fs) && NoneAnswers(fs, want, parse)
    ensures ReadUntil(EncodeAll(fs), want, parse) == Until(LinkError(Eof), DataIn(fs), [])
  {
    hide EncodeAll;
    SkippedFrames(fs, [], want, parse);
    NothingPending(want, parse);
    assert EncodeAll(fs) + [] == EncodeAll(fs) && DataIn(fs) + [] == DataIn(fs);
  }

  // ------------------------------------------------------------------------- any bytes

  /** Why no frame can be read from some bytes: nothing left, a frame that is cut short, a
      type there is not, or a size over the limit. */
  predicate Explains(e: ReadError, left: bytes) {
    match e
    case Eof => left == [] || (|left| == 5 && GetU32(left[1..5]) > 0)
    case UnexpectedEof => 0 < |left| < 5 || (|left| > 5 && |left| - 5 < GetU32(left[1..5]))
    case BadType(t) => |left| >= 5 && left[0] == t && t !in {DATA, CTRL}
    case TooLarge(n) => |left| >= 5 && n == GetU32(left[1..5]) > MAX_PAYLOAD
  }

  lemma FrameIsThere(s: bytes)
    requires NextFrame(s).result.Got?
    ensures var step := NextFrame(s); Sendable(step.result.value) && s == Encode(step.result.value) + step.rest
  {
    var n := GetU32(s[1..5]);
    PutGetU32(s[1..5]);
    assert s == [s[0]] + (s[1..5] + (s[5..][..n] + s[5..][n..]));
  }

  lemma FailureIsExplained(s: bytes)
    requires NextFrame(s).result.Failed?
    ensures Explains(NextFrame(s).result.error, s)
  {
  }

  /** Reading invents nothing and skips nothing, whatever the bytes: they are the frames
      that were read, each within the limit, and then something that is no frame. */
  lemma {:induction false} AnyBytesAreFramesThenWhy(s: bytes)
    ensures var d := DecodeAll(s);
            && AllSendable(d.frames) && EncodeAll(d.frames) <= s
            && Explains(d.error, s[|EncodeAll(d.frames)|..])
    decreases |s|
  {
    hide Encode, NextFrame, Explains;
    var step := NextFrame(s);
    if step.result.Failed? {
      FailureIsExplained(s);
      assert s[0..] == s;
    } else {
      var f, d := step.result.value, DecodeAll(step.rest);
      FrameIsThere(s);
      AnyBytesAreFramesThenWhy(step.rest);
      EncodeStep([f] + d.frames);
      assert ([f] + d.frames)[1..] == d.frames;
      PrefixBehind(Encode(f), EncodeAll(d.frames), step.rest);
      assert s[|EncodeAll([f] + d.frames)|..] == step.rest[|EncodeAll(d.frames)|..];
    }
  }
}
