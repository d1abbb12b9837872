/** Editing an authorized_keys file: parseKeys, AddAll, Remove and their helpers. */
module KeyFile {
  import opened Prelude
  import opened Text
  import opened AuthKeys

  // ---------------------------------------------------------------- as functions

  /** The keys of some lines, numbered from `first`. */
  function Numbered(cr: Crypto, lines: seq<string>, first: nat): (r: seq<Key>) {
    if lines == [] then []
    else
      Numbered(cr, lines[..|lines| - 1], first)
      + match ParseKey(cr, lines[|lines| - 1])
        case Accepted(k) => [k.(line := first + |lines| - 1)]
        case Skipped(_) => []
  }

  function KeyOf(cr: Crypto, line: string): (r: seq<Key>) {
    match ParseKey(cr, line) case Accepted(k) => [k] case Skipped(_) => []
  }

  /** The keys of some lines, whatever their numbers. */
  function KeysIn(cr: Crypto, lines: seq<string>): (r: seq<Key>) {
    if lines == [] then []
    else KeysIn(cr, lines[..|lines| - 1]) + KeyOf(cr, lines[|lines| - 1])
  }

  function Bare(keys: seq<Key>): (r: seq<Key>)
    ensures |r| == |keys|
    ensures forall i | 0 <= i < |keys| :: r[i] == keys[i].(line := 0)
  {
    seq(|keys|, i requires 0 <= i < |keys| => keys[i].(line := 0))
  }

  /** The fingerprints of some keys. */
  function Prints(keys: seq<Key>): (r: set<string>) { set k | k in keys :: k.fingerprint }

  function Replaced(s: string): (r: string) {
    if s == "" then "" else (if s[0] == '\r' then "\n" else [s[0]]) + Replaced(s[1..])
  }

  function Unified(s: string): (r: string)
    decreases |s|
  {
    if s == "" then ""
    else if s[0] == '\r' && |s| > 1 && s[1] == '\n' then "\n" + Unified(s[2..])
    else [s[0]] + Unified(s[1..])
  }

  /** splitLines: CRLF to LF, then CR to LF, then split. */
  function SplitLines(s: string): (r: seq<string>) { Lines(Replaced(Unified(s))) }

  function Render(lines: seq<string>): (r: string) {
    if lines == [] then "" else Join(lines, "\n") + "\n"
  }

  function NonBlank(lines: seq<string>): (r: seq<string>) {
    if lines == [] then []
    else
      var last := lines[|lines| - 1];
      NonBlank(lines[..|lines| - 1]) + if Trim(last) == "" then [] else [last]
  }

  /** The keys AddAll adds: those whose fingerprint is neither there nor added before. */
  function NewOnes(have: set<string>, add: seq<Key>): (r: seq<Key>) {
    if add == [] then []
    else
      var r, last := NewOnes(have, add[..|add| - 1]), add[|add| - 1];
      if last.fingerprint in have + Prints(r) then r else r + [last]
  }

  function Texts(keys: seq<Key>): (r: seq<string>)
    ensures |r| == |keys|
  {
    if keys == [] then [] else Texts(keys[..|keys| - 1]) + [KeyText(keys[|keys| - 1])]
  }

  function Added(existing: seq<Key>, content: string, add: seq<Key>): (r: string) {
    var added := NewOnes(Prints(existing), add);
    if added == [] then content else Render(NonBlank(SplitLines(content)) + Texts(added))
  }

  predicate IsVictim(cr: Crypto, victims: set<string>, line: string) {
    match ParseKey(cr, line) case Accepted(k) => k.fingerprint in victims case Skipped(_) => false
  }

  function Surviving(cr: Crypto, victims: set<string>, lines: seq<string>): (r: seq<string>)
    ensures |r| <= |lines|
  {
    if lines == [] then []
    else
      var last := lines[|lines| - 1];
      Surviving(cr, victims, lines[..|lines| - 1]) + if IsVictim(cr, victims, last) then [] else [last]
  }

  function Removed(cr: Crypto, content: string, victims: set<string>): (r: string) {
    var lines := SplitLines(content);
    var kept := Surviving(cr, victims, lines);
    if |kept| == |lines| then content else Render(kept)
  }

  // ------------------------------------------------------------ the source's loops

  /** parseKeys (sshauth.go:195-206). */
  method ParseKeys(cr: Crypto, content: string) returns (keys: seq<Key>)
    ensures keys == Numbered(cr, Lines(content), 1)
  {
    keys := [];
    var lines := Lines(content);
    for i := 0 to |lines|
      invariant keys == Numbered(cr, lines[..i], 1)
    {
      assert lines[..i + 1][..i] == lines[..i];
      match ParseKey(cr, lines[i]) {
        case Skipped(_) => continue;
        case Accepted(k) => keys := keys + [k.(line := i + 1)];
      }
    }
    assert lines[..|lines|] == lines;
  }

  /** keptLines (sshauth.go:279-288). */
  method KeptLines(content: string) returns (out: seq<string>)
    ensures out == NonBlank(SplitLines(content))
  {
    out := [];
    var lines := SplitLines(content);
    for i := 0 to |lines|
      invariant out == NonBlank(lines[..i])
    {
      assert lines[..i + 1][..i] == lines[..i];
      if Trim(lines[i]) == "" { continue; }
      out := out + [lines[i]];
    }
    assert lines[..|lines|] == lines;
  }

  lemma PrintsAppend(keys: seq<Key>, k: Key)
    ensures Prints(keys + [k]) == Prints(keys) + {k.fingerprint}
  {
    forall f | f in Prints(keys) + {k.fingerprint} ensures f in Prints(keys + [k]) {
      if f in Prints(keys) {
        var j :| j in keys && j.fingerprint == f;
        assert j in keys + [k];
      } else {
        assert k in keys + [k];
      }
    }
  }

  /** The seen-map of AddAll, filled from the existing keys. */
  method Seen(existing: seq<Key>) returns (have: set<string>)
    ensures have == Prints(existing)
  {
    have := {};
    for i := 0 to |existing|
      invariant have == Prints(existing[..i])
    {
      PrintsAppend(existing[..i], existing[i]);
      assert existing[..i + 1] == existing[..i] + [existing[i]];
      have := have + {existing[i].fingerprint};
    }
    assert existing[..|existing|] == existing;
  }

  lemma NothingYet(have: set<string>, add: seq<Key>)
    ensures NewOnes(have, add[..0]) == [] && Texts([]) == [] && Prints([]) == {}
  {
  }

  lemma NewOnesStep(have: set<string>, add: seq<Key>, i: nat)
    requires i < |add|
    ensures var r := NewOnes(have, add[..i]);
            NewOnes(have, add[..i + 1]) == if add[i].fingerprint in have + Prints(r) then r else r + [add[i]]
  {
    assert add[..i + 1][..i] == add[..i];
  }

  lemma TextsAppend(keys: seq<Key>, k: Key)
    ensures Texts(keys + [k]) == Texts(keys) + [KeyText(k)]
  {
    assert (keys + [k])[..|keys|] == keys;
  }

  /** AddAll (sshauth.go:221-243). */
  method AddAll(existing: seq<Key>, content: string, add: seq<Key>) returns (out: string, added: seq<Key>)
    ensures out == Added(existing, content, add) && added == NewOnes(Prints(existing), add)
  {
    hide Lines, Replaced, Unified, NonBlank, KeyText, Prints, NewOnes, Texts;
    var have := Seen(existing);
    ghost var present := have;
    var lines := KeptLines(content);
    ghost var kept := lines;
    added := [];
    NothingYet(present, add);
    for i := 0 to |add|
      invariant added == NewOnes(present, add[..i])
      invariant have == present + Prints(added)
      invariant lines == kept + Texts(added)
    {
      var k := add[i];
      NewOnesStep(present, add, i);
      if k.fingerprint !in have {
        PrintsAppend(added, k);
        TextsAppend(added, k);
        have := have + {k.fingerprint};
        added := added + [k];
        lines := lines + [KeyText(k)];
      }
    }
    assert add[..|add|] == add;
    out := if |added| == 0 then content else Render(lines);
  }

  /** Remove (sshauth.go:255-275). */
  method Remove(cr: Crypto, content: string, fingerprints: seq<string>) returns (out: string)
    ensures out == Removed(cr, content, set f | f in fingerprints)
  {
    hide SplitLines;
    var victims := set f | f in fingerprints;
    var kept: seq<string> := [];
    var matched := false;
    var lines := SplitLines(content);
    for i := 0 to |lines|
      invariant kept == Surviving(cr, victims, lines[..i])
      invariant matched <==> |kept| != i
    {
      assert lines[..i + 1][..i] == lines[..i];
      match ParseKey(cr, lines[i]) {
        case Accepted(k) =>
          if k.fingerprint in victims {
            matched := true;
            continue;
          }
        case Skipped(_) =>
      }
      kept := kept + [lines[i]];
    }
    assert lines[..|lines|] == lines;
    out := if !matched then content else Render(kept);
  }
}
