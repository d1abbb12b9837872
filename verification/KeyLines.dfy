/** Which lines of a key file are keys, and that each is listed once under its number. */
module KeyLines {
  import opened Prelude
  import opened Text
  import opened AuthKeys
  import opened KeyFile

  // ------------------------------------------------------------- which lines are keys

  lemma {:induction false} WordLenIgnoresTail(s: string, c: char)
    requires IsSpace(c)
    ensures WordLen(s + [c]) == WordLen(s)
  {
    if s != "" && !IsSpace(s[0]) {
      assert (s + [c])[1..] == s[1..] + [c];
      WordLenIgnoresTail(s[1..], c);
    }
  }

  lemma {:induction false} FieldsIgnoreTail(s: string, c: char)
    requires IsSpace(c)
    ensures Fields(s + [c]) == Fields(s)
    decreases |s|
  {
    if s == "" {
      assert s + [c] == [c] && [c][1..] == "";
    } else if IsSpace(s[0]) {
      assert (s + [c])[1..] == s[1..] + [c];
      FieldsIgnoreTail(s[1..], c);
    } else {
      WordLenIgnoresTail(s, c);
      var n := WordLen(s);
      assert (s + [c])[..n] == s[..n] && (s + [c])[n..] == s[n..] + [c];
      FieldsIgnoreTail(s[n..], c);
    }
  }

  lemma {:induction false} FieldsOfTrimRight(s: string)
    ensures Fields(TrimRight(s)) == Fields(s)
    decreases |s|
  {
    if s != "" && IsSpace(s[|s| - 1]) {
      FieldsOfTrimRight(s[..|s| - 1]);
      FieldsIgnoreTail(s[..|s| - 1], s[|s| - 1]);
      assert s[..|s| - 1] + [s[|s| - 1]] == s;
    }
  }

  lemma {:induction false} FieldsOfTrimLeft(s: string)
    ensures Fields(TrimLeft(s)) == Fields(s)
  {
    if s != "" && IsSpace(s[0]) { FieldsOfTrimLeft(s[1..]); }
  }

  lemma {:induction false} TrimLeftIsSolid(s: string)
    ensures var t := TrimLeft(s); t == "" || !IsSpace(t[0])
  {
    if s != "" && IsSpace(s[0]) { TrimLeftIsSolid(s[1..]); }
  }

  /** Space around the words of a line does not count. */
  lemma FieldsOfTrim(s: string)
    ensures Fields(Trim(s)) == Fields(s)
    ensures Trim(s) != "" ==> Fields(s) != [] && Fields(s)[0] != "" && Fields(s)[0][0] == Trim(s)[0]
    ensures Trim(s) == "" ==> Fields(s) == []
  {
    FieldsOfTrimRight(s);
    FieldsOfTrimLeft(TrimRight(s));
    TrimLeftIsSolid(TrimRight(s));
  }

  /** The words of a line that is a key. */
  predicate KeyWords(cr: Crypto, words: seq<string>) {
    && |words| >= 2 && words[0] in KEY_TYPES && cr.decode(words[1]).Some? && IsAscii(words[0])
    && CheckBlobHeader(cr.decode(words[1]).value, words[0]) == None
  }

  lemma ParseLooksAtWords(cr: Crypto, line: string)
    ensures ParseKey(cr, line).Accepted? <==> KeyWords(cr, Fields(line))
    ensures KeyWords(cr, Fields(line)) ==>
              var words := Fields(line);
              ParseKey(cr, line).key
              == Key(words[0], words[1], Join(words[2..], " "), cr.digest(cr.decode(words[1]).value), 0)
  {
    hide Fields, Trim, CheckBlobHeader;
    FieldsOfTrim(line);
    if Fields(line) != [] && Fields(line)[0] in KEY_TYPES { KeyTypesArePlain(Fields(line)[0]); }
  }

  lemma WordsOfText(cr: Crypto, k: Key)
    requires WellFormed(cr, k)
    ensures Fields(KeyText(k)) == [k.algorithm, k.blob] + Fields(k.comment)
  {
    TextIsWords(cr, k);
    FieldsOfJoin([k.algorithm, k.blob] + Fields(k.comment));
  }

  /** A line is the key k exactly if k is well formed and the line has the words of its
      text: how much space there is, and where, is all that may differ. So options before
      the algorithm, comments and cut blobs are no keys. */
  lemma LineIsKeyIff(cr: Crypto, line: string, k: Key)
    ensures ParseKey(cr, line) == Accepted(k) <==> WellFormed(cr, k) && Fields(line) == Fields(KeyText(k))
  {
    hide Fields, Trim, ParseKey, KeyText, CheckBlobHeader;
    ParseLooksAtWords(cr, line);
    if ParseKey(cr, line) == Accepted(k) {
      ParsedIsWellFormed(cr, line);
      WordsOfText(cr, k);
      FieldsAreWords(line);
      var words := Fields(line);
      FieldsOfJoin(words[2..]);
      assert words == [words[0], words[1]] + words[2..];
    }
    if WellFormed(cr, k) && Fields(line) == Fields(KeyText(k)) {
      ParseLooksAtWords(cr, KeyText(k));
      TextParsesBack(cr, k);
    }
  }

  /** Why a line is no key, told from its words. */
  predicate Excuses(cr: Crypto, words: seq<string>, e: KeyError) {
    if |words| < 2 || words[0] !in KEY_TYPES then e.NotAKey?
    else if cr.decode(words[1]).None? then e.BadBase64?
    else
      var raw := cr.decode(words[1]).value;
      match e
      case ShortBlob => |raw| < 4
      case HeaderOverruns => |raw| >= 4 && |raw| - 4 < GetU32(raw[..4])
      case WrongAlgorithm =>
        && |raw| >= 4 && GetU32(raw[..4]) <= |raw| - 4
        && IsAscii(words[0]) && raw[4..][..GetU32(raw[..4])] != Ascii(words[0])
      case _ => false
  }

  /** A line that is no key is skipped for the first of these reasons. */
  lemma SkippedForAReason(cr: Crypto, line: string)
    requires ParseKey(cr, line).Skipped?
    ensures Excuses(cr, Fields(line), ParseKey(cr, line).error)
  {
    hide Fields, Trim, Ascii;
    var words := Fields(line);
    FieldsOfTrim(line);
    if |words| >= 2 && words[0] in KEY_TYPES {
      KeyTypesArePlain(words[0]);
      if cr.decode(words[1]).Some? && |cr.decode(words[1]).value| >= 4 {
        var raw := cr.decode(words[1]).value;
        if GetU32(raw[..4]) + 4 <= |raw| { assert raw[4..][..GetU32(raw[..4])] == raw[4..4 + GetU32(raw[..4])]; }
      }
    }
  }

  // --------------------------------------------------------------- listed, with a number

  /** k is the key of the line its number names. */
  predicate Names(cr: Crypto, lines: seq<string>, k: Key) {
    1 <= k.line <= |lines| && ParseKey(cr, lines[k.line - 1]) == Accepted(k.(line := 0))
  }

  lemma ParsedHasNoNumber(cr: Crypto, line: string)
    ensures ParseKey(cr, line).Accepted? ==> ParseKey(cr, line).key.line == 0
  {
    if ParseKey(cr, line).Accepted? { ParsedIsWellFormed(cr, line); }
  }

  /** Every key among some lines once, in their order, under the number of its own line. */
  predicate Listed(cr: Crypto, lines: seq<string>, keys: seq<Key>) {
    && (forall i | 0 <= i < |keys| :: Names(cr, lines, keys[i]))
    && (forall i, j | 0 <= i < j < |keys| :: keys[i].line < keys[j].line)
    && (forall n | 0 <= n < |lines| && ParseKey(cr, lines[n]).Accepted? :: exists k :: k in keys && k.line == n + 1)
  }

  lemma NothingListed(cr: Crypto)
    ensures Listed(cr, [], [])
  {
  }

  lemma NextIsNoKey(cr: Crypto, front: seq<string>, before: seq<Key>, last: string)
    requires Listed(cr, front, before) && ParseKey(cr, last).Skipped?
    ensures Listed(cr, front + [last], before)
  {
    hide ParseKey;
    forall i | 0 <= i < |before| ensures Names(cr, front + [last], before[i]) {
      assert Names(cr, front, before[i]);
    }
  }

  lemma NextIsKey(cr: Crypto, front: seq<string>, before: seq<Key>, last: string, k: Key)
    requires Listed(cr, front, before) && ParseKey(cr, last) == Accepted(k)
    ensures Listed(cr, front + [last], before + [k.(line := |front| + 1)])
  {
    hide ParseKey;
    ParsedHasNoNumber(cr, last);
    var lines, keys := front + [last], before + [k.(line := |front| + 1)];
    forall i | 0 <= i < |keys| ensures Names(cr, lines, keys[i]) {
      if i < |before| { assert Names(cr, front, before[i]); }
    }
    forall n | 0 <= n < |lines| && ParseKey(cr, lines[n]).Accepted? ensures exists l :: l in keys && l.line == n + 1 {
      if n < |front| {
        var l :| l in before && l.line == n + 1;
        assert l in keys;
      } else {
        assert keys[|before|] in keys;
      }
    }
  }

  /** parseKeys lists every line that is a key, once, in order, under its own number. */
  lemma {:induction false} ListedByLine(cr: Crypto, lines: seq<string>)
    ensures Listed(cr, lines, Numbered(cr, lines, 1))
    decreases |lines|
  {
    hide ParseKey, Listed;
    if lines == [] {
      NothingListed(cr);
    } else {
      var front, last := lines[..|lines| - 1], lines[|lines| - 1];
      assert lines == front + [last];
      ListedByLine(cr, front);
      var before := Numbered(cr, front, 1);
      match ParseKey(cr, last)
      case Accepted(k) => NextIsKey(cr, front, before, last, k);
      case Skipped(_) =>
        NextIsNoKey(cr, front, before, last);
        assert before + [] == before;
    }
  }
}
