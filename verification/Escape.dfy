/** The Ctrl-A escape machine of an interactive session (cmd/sercon/attach.go:356-442). */
module Escape {
  import opened Prelude

  const ESCAPE_KEY: byte := 1

  datatype End = Running | Quit | Reconnect

  /** What a command key does besides ending the session. */
  datatype Side = ToggleLog | SendBreak | AskStatus | ShowHelp

  datatype Action = Action(emit: bytes, end: End, side: Option<Side>)

  /** escape: the key after Ctrl-A, in either case where it is a letter. */
  function EscapeKey(b: byte): (r: Action) {
    var c := b as char;
    if c == 'x' || c == 'X' || c == 'q' || c == 'Q' then Action([], Quit, None)
    else if c == 'a' || c == 'A' then Action([ESCAPE_KEY], Running, None)
    else if c == 'l' || c == 'L' then Action([], Running, Some(ToggleLog))
    else if c == 'r' || c == 'R' then Action([], Reconnect, None)
    else if c == 'b' || c == 'B' then Action([], Running, Some(SendBreak))
    else if c == 's' || c == 'S' then Action([], Running, Some(AskStatus))
    else if c == 'z' || c == 'Z' || c == '?' || c == 'h' || c == 'H' then Action([], Running, Some(ShowHelp))
    else Action([ESCAPE_KEY, b], Running, None)
  }

  /** What a stream of keys means: the data for the port, the commands on the way, and how
      it leaves the machine. Keys behind a quit or reconnect are not looked at. */
  datatype Meaning = Meaning(data: bytes, sides: seq<Side>, escaping: bool, end: End)

  function MeanKey(m: Meaning, b: byte): (r: Meaning) {
    if m.escaping then
      var a := EscapeKey(b);
      Meaning(m.data + a.emit, m.sides + (if a.side.Some? then [a.side.value] else []), false, a.end)
    else if b == ESCAPE_KEY then m.(escaping := true)
    else m.(data := m.data + [b])
  }

  function Mean(escaping: bool, keys: bytes): (r: Meaning) {
    if keys == [] then Meaning([], [], escaping, Running)
    else
      var m := Mean(escaping, keys[..|keys| - 1]);
      if m.end != Running then m else MeanKey(m, keys[|keys| - 1])
  }

  lemma MeanNothing(escaping: bool, p: bytes)
    ensures Mean(escaping, p[..0]) == Meaning([], [], escaping, Running)
  {
  }

  lemma MeanStep(escaping: bool, p: bytes, i: nat)
    requires i < |p|
    ensures var m := Mean(escaping, p[..i]);
            Mean(escaping, p[..i + 1]) == if m.end != Running then m else MeanKey(m, p[i])
  {
    assert p[..i + 1][..i] == p[..i];
  }

  lemma KeyEmits(b: byte)
    ensures |EscapeKey(b).emit| <= 2
    ensures EscapeKey(b).end != Running ==> EscapeKey(b).emit == [] && EscapeKey(b).side.None?
    ensures EscapeKey('a' as int) == Action([ESCAPE_KEY], Running, None)
  {
  }

  /** Nothing behind the key that ends the session counts. */
  lemma {:induction false} StopIsFinal(escaping: bool, keys: bytes, n: nat)
    requires n <= |keys| && Mean(escaping, keys[..n]).end != Running
    ensures Mean(escaping, keys) == Mean(escaping, keys[..n])
    decreases |keys| - n
  {
    if n < |keys| {
      assert keys[..n + 1][..n] == keys[..n];
      StopIsFinal(escaping, keys, n + 1);
    } else {
      assert keys[..n] == keys;
    }
  }

  class Session {
    var escaping: bool
    var sent: seq<bytes>   // data frames written to the daemon
    var sides: seq<Side>   // commands carried out on the way

    constructor ()
      ensures !escaping && sent == [] && sides == []
    {
      escaping, sent, sides := false, [], [];
    }

    /** The flush closure: one frame, unless there is nothing to send. */
    method Flush(pending: bytes)
      modifies this`sent
      ensures sent == if pending == [] then old(sent) else old(sent) + [pending]
    {
      if |pending| == 0 { return; }
      sent := sent + [pending];
    }

    /** handleKeys: one read from the terminal. Its data goes out in at most one frame, at
        most one byte longer than the read; a reconnect drops what that read had pending. */
    method HandleKeys(p: bytes) returns (end: End)
      modifies this
      ensures var m := Mean(old(escaping), p);
              && end == m.end && escaping == m.escaping && sides == old(sides) + m.sides
              && sent == (if m.data == [] || end == Reconnect then old(sent) else old(sent) + [m.data])
              && |m.data| <= |p| + (if old(escaping) then 1 else 0)
    {
      hide Mean, EscapeKey;
      var pending: bytes := [];
      ghost var done: seq<Side> := [];
      MeanNothing(old(escaping), p);
      for i := 0 to |p|
        invariant Mean(old(escaping), p[..i]) == Meaning(pending, done, escaping, Running)
        invariant sent == old(sent) && sides == old(sides) + done
        invariant |pending| + (if escaping then 1 else 0) <= i + (if old(escaping) then 1 else 0)
      {
        var b := p[i];
        MeanStep(old(escaping), p, i);
        if escaping {
          escaping := false;
          var a := EscapeKey(b);
          KeyEmits(b);
          if a.end == Quit {
            StopIsFinal(old(escaping), p, i + 1);
            assert pending + a.emit == pending && done + [] == done;
            Flush(pending);
            return Quit;
          }
          if a.end == Reconnect {
            StopIsFinal(old(escaping), p, i + 1);
            assert done + [] == done;
            return Reconnect;
          }
          if a.side.Some? {
            sides := sides + [a.side.value];
            done := done + [a.side.value];
          }
          pending := pending + a.emit;
        } else if b == ESCAPE_KEY {
          escaping := true;
        } else {
          pending := pending + [b];
        }
      }
      assert p[..|p|] == p;
      Flush(pending);
      return Running;
    }
  }

  /** What was sent and done before, with what n comes to. */
  function Behind(m: Meaning, n: Meaning): (r: Meaning) {
    n.(data := m.data + n.data, sides := m.sides + n.sides)
  }

  lemma KeyBehind(m: Meaning, n: Meaning, b: byte)
    ensures MeanKey(Behind(m, n), b) == Behind(m, MeanKey(n, b))
  {
    hide EscapeKey;
  }

  /** Reading in two parts is reading in one. */
  lemma {:induction false} MeanConcat(escaping: bool, a: bytes, b: bytes)
    ensures var m := Mean(escaping, a);
            Mean(escaping, a + b) == if m.end != Running then m else Behind(m, Mean(m.escaping, b))
    decreases |b|
  {
    hide MeanKey;
    if b == [] {
      assert a + b == a;
    } else {
      var m := Mean(escaping, a);
      MeanConcat(escaping, a, b[..|b| - 1]);
      KeyBehind(m, Mean(m.escaping, b[..|b| - 1]), b[|b| - 1]);
      assert (a + b)[..|a + b| - 1] == a + b[..|b| - 1];
    }
  }

  predicate Among(b: byte, keys: string) { (b as char) in keys }

  /** What the keys are bound to: after Ctrl-A the session is quit by x or q and reconnected
      by r, l, b, s and the help keys carry out their command, each in either case and none
      of them sending anything; a sends a Ctrl-A; anything else is sent with its Ctrl-A.
      Without Ctrl-A a key is sent. */
  predicate Bound(m: Meaning, b: byte, n: Meaning) {
    if !m.escaping then n == if b == ESCAPE_KEY then m.(escaping := true) else m.(data := m.data + [b])
    else
      && !n.escaping
      && (n.end == Quit <==> Among(b, "xXqQ")) && (n.end == Reconnect <==> Among(b, "rR"))
      && n.sides == m.sides + (if Among(b, "lL") then [ToggleLog] else if Among(b, "bB") then [SendBreak]
                               else if Among(b, "sS") then [AskStatus]
                               else if Among(b, "zZ?hH") then [ShowHelp] else [])
      && n.data == m.data + if Among(b, "xXqQrRlLbBsSzZ?hH") then []
                            else if Among(b, "aA") then [ESCAPE_KEY] else [ESCAPE_KEY, b]
  }

  lemma KeyIsBound(m: Meaning, b: byte)
    requires m.end == Running
    ensures Bound(m, b, MeanKey(m, b))
  {
  }

  /** So it is wherever the key is typed while the session runs. */
  lemma WhatTheNextKeyDoes(keys: bytes, b: byte)
    requires Mean(false, keys).end == Running
    ensures Bound(Mean(false, keys), b, Mean(false, keys + [b]))
  {
    hide Mean, MeanKey, Bound;
    assert (keys + [b])[..|keys|] == keys && (keys + [b])[..|keys| + 1] == keys + [b];
    MeanStep(false, keys + [b], |keys|);
    KeyIsBound(Mean(false, keys), b);
  }

  /** What a session sends for a sequence of reads: the frames of HandleKeys, until it ends. */
  datatype Sent = Sent(frames: seq<bytes>, sides: seq<Side>, escaping: bool, end: End)

  function Reads(chunks: seq<bytes>): (r: Sent) {
    if chunks == [] then Sent([], [], false, Running)
    else
      var s := Reads(chunks[..|chunks| - 1]);
      if s.end != Running then s
      else
        var m := Mean(s.escaping, chunks[|chunks| - 1]);
        Sent(if m.data == [] || m.end == Reconnect then s.frames else s.frames + [m.data], s.sides + m.sides,
             m.escaping, m.end)
  }

  /** The division of the keystrokes into reads does not show, unless a reconnect drops
      pending data: the frames add up to the meaning of the whole stream, all that was
      typed before a quit included, and the commands are the same. */
  lemma {:induction false} ReadsDoNotShow(chunks: seq<bytes>)
    requires Mean(false, Flat(chunks)).end != Reconnect
    ensures var m, s := Mean(false, Flat(chunks)), Reads(chunks);
            Flat(s.frames) == m.data && s.sides == m.sides && s.escaping == m.escaping && s.end == m.end
    decreases |chunks|
  {
    if chunks != [] {
      var front, last := chunks[..|chunks| - 1], chunks[|chunks| - 1];
      MeanConcat(false, Flat(front), last);
      ReadsDoNotShow(front);
      var s := Reads(front);
      FlatAppend(s.frames, Mean(s.escaping, last).data);
    }
  }

  /** Every Ctrl-A typed as Ctrl-A a. */
  function Stuffed(s: bytes): (r: bytes) {
    if s == [] then []
    else Stuffed(s[..|s| - 1]) + if s[|s| - 1] == ESCAPE_KEY then [ESCAPE_KEY, 'a' as int] else [s[|s| - 1]]
  }

  lemma TypedMeansItself(b: byte)
    ensures Mean(false, if b == ESCAPE_KEY then [ESCAPE_KEY, 'a' as int] else [b]) == Meaning([b], [], false, Running)
  {
    var typed := if b == ESCAPE_KEY then [ESCAPE_KEY, 'a' as int] else [b];
    MeanNothing(false, typed);
    MeanStep(false, typed, 0);
    if b == ESCAPE_KEY {
      MeanStep(false, typed, 1);
      KeyEmits(b);
    }
    assert typed[..|typed|] == typed;
  }

  /** Any byte string can be typed. */
  lemma {:induction false} StuffedMeansItself(s: bytes)
    ensures Mean(false, Stuffed(s)) == Meaning(s, [], false, Running)
    decreases |s|
  {
    hide Mean;
    if s == [] {
      MeanNothing(false, []);
    } else {
      var front, b := s[..|s| - 1], s[|s| - 1];
      StuffedMeansItself(front);
      TypedMeansItself(b);
      MeanConcat(false, Stuffed(front), if b == ESCAPE_KEY then [ESCAPE_KEY, 'a' as int] else [b]);
      assert s == front + [b];
    }
  }
}
