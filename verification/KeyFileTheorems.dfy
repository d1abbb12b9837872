/** The lines and keys of a key file, and what AddAll does to the keys sshd will find. */
module KeyFileTheorems {
  import opened Prelude
  import opened Text
  import opened AuthKeys
  import opened KeyFile

  /** parseKeys of a whole file. */
  function Parse(cr: Crypto, content: string): (r: seq<Key>) { Numbered(cr, Lines(content), 1) }

  /** A key ParseKey or parseKeys has returned. */
  predicate IsKey(cr: Crypto, k: Key) { WellFormed(cr, k.(line := 0)) }

  /** Every CR is half of a CRLF. */
  predicate OnlyCrlf(s: string) {
    forall i | 0 <= i < |s| && s[i] == '\r' :: i + 1 < |s| && s[i + 1] == '\n'
  }

  predicate Clean(line: string) { '\n' !in line && '\r' !in line }

  // -------------------------------------------------------------- keys of lines

  lemma {:induction false} KeysInConcat(cr: Crypto, a: seq<string>, b: seq<string>)
    ensures KeysIn(cr, a + b) == KeysIn(cr, a) + KeysIn(cr, b)
    decreases |b|
  {
    hide KeyOf;
    if b == [] {
      assert a + b == a;
    } else {
      var front := b[..|b| - 1];
      KeysInConcat(cr, a, front);
      assert (a + b)[..|a + b| - 1] == a + front;
    }
  }

  lemma ParsedHasNoLine(cr: Crypto, line: string)
    requires ParseKey(cr, line).Accepted?
    ensures ParseKey(cr, line).key.line == 0
  {
  }

  lemma {:induction false} BareOfNumbered(cr: Crypto, lines: seq<string>, first: nat)
    ensures Bare(Numbered(cr, lines, first)) == KeysIn(cr, lines)
    ensures forall k | k in Numbered(cr, lines, first) :: IsKey(cr, k)
    decreases |lines|
  {
    hide ParseKey, WellFormed;
    if lines != [] {
      var last := lines[|lines| - 1];
      BareOfNumbered(cr, lines[..|lines| - 1], first);
      if ParseKey(cr, last).Accepted? {
        ParsedIsWellFormed(cr, last);
        ParsedHasNoLine(cr, last);
      }
    }
  }

  lemma PrintsOfBare(keys: seq<Key>)
    ensures Prints(Bare(keys)) == Prints(keys)
  {
    forall f | f in Prints(keys) ensures f in Prints(Bare(keys)) {
      var i :| 0 <= i < |keys| && keys[i].fingerprint == f;
      assert Bare(keys)[i] in Bare(keys);
    }
    forall f | f in Prints(Bare(keys)) ensures f in Prints(keys) {
      var i :| 0 <= i < |keys| && Bare(keys)[i].fingerprint == f;
      assert keys[i] in keys;
    }
  }

  lemma {:induction false} KeysOfNonBlank(cr: Crypto, lines: seq<string>)
    ensures KeysIn(cr, NonBlank(lines)) == KeysIn(cr, lines)
    decreases |lines|
  {
    if lines != [] {
      var front, last := lines[..|lines| - 1], lines[|lines| - 1];
      KeysOfNonBlank(cr, front);
      KeysInConcat(cr, NonBlank(front), if Trim(last) == "" then [] else [last]);
      assert KeysIn(cr, [last]) == KeysIn(cr, []) + KeyOf(cr, last) by { assert [last][..0] == []; }
    }
  }

  lemma TextIsItsKey(cr: Crypto, k: Key)
    requires IsKey(cr, k)
    ensures KeyOf(cr, KeyText(k)) == [k.(line := 0)]
  {
    assert KeyText(k) == KeyText(k.(line := 0));
    TextParsesBack(cr, k.(line := 0));
  }

  lemma {:induction false} KeysOfTexts(cr: Crypto, keys: seq<Key>)
    requires forall k | k in keys :: IsKey(cr, k)
    ensures KeysIn(cr, Texts(keys)) == Bare(keys)
    decreases |keys|
  {
    hide ParseKey, IsKey, KeyText, KeyOf;
    if keys != [] {
      var front, last := keys[..|keys| - 1], keys[|keys| - 1];
      assert last in keys;
      KeysOfTexts(cr, front);
      assert Texts(keys)[..|Texts(keys)| - 1] == Texts(front);
      TextIsItsKey(cr, last);
    }
  }

  // ------------------------------------------------------------- lines of files

  lemma RenderStep(lines: seq<string>)
    requires lines != []
    ensures Render(lines) == lines[0] + "\n" + Render(lines[1..])
  {
    if |lines| > 1 {
      var tail := Join(lines[1..], "\n");
      assert (lines[0] + "\n" + tail) + "\n" == lines[0] + "\n" + (tail + "\n");
    }
  }

  lemma {:induction false} LinesOfRender(lines: seq<string>)
    requires forall l | l in lines :: '\n' !in l
    ensures Lines(Render(lines)) == lines + [""]
  {
    if lines != [] {
      hide Render, Lines;
      RenderStep(lines);
      assert lines[0] in lines;
      LinesOfRender(lines[1..]);
      LinesOfLine(lines[0], Render(lines[1..]));
      assert lines == [lines[0]] + lines[1..];
    }
  }

  lemma {:induction false} LinesAreLines(s: string)
    ensures forall l | l in Lines(s) :: '\n' !in l && ('\r' !in s ==> '\r' !in l)
  {
    if s != "" { LinesAreLines(s[1..]); }
  }

  lemma {:induction false} ReplacedHasNoCr(s: string)
    ensures '\r' !in Replaced(s) && ('\r' !in s ==> Replaced(s) == s)
  {
    if s != "" { ReplacedHasNoCr(s[1..]); }
  }

  lemma {:induction false} UnifiedWithoutCr(s: string)
    requires '\r' !in s
    ensures Unified(s) == s
    decreases |s|
  {
    if s != "" { UnifiedWithoutCr(s[1..]); }
  }

  lemma SplitLinesAreClean(s: string)
    ensures forall l | l in SplitLines(s) :: Clean(l)
    ensures '\r' !in s ==> SplitLines(s) == Lines(s)
  {
    ReplacedHasNoCr(Unified(s));
    LinesAreLines(Replaced(Unified(s)));
    if '\r' !in s { UnifiedWithoutCr(s); }
  }

  lemma {:induction false} RenderHasNoCr(lines: seq<string>)
    requires forall l | l in lines :: Clean(l)
    ensures '\r' !in Render(lines)
  {
    if lines != [] {
      assert lines[0] in lines;
      RenderStep(lines);
      RenderHasNoCr(lines[1..]);
    }
  }

  /** A rendered file splits back into its lines, by either way of splitting. */
  lemma RenderSplitsBack(lines: seq<string>)
    requires forall l | l in lines :: Clean(l)
    ensures Lines(Render(lines)) == SplitLines(Render(lines)) == lines + [""]
  {
    LinesOfRender(lines);
    RenderHasNoCr(lines);
    SplitLinesAreClean(Render(lines));
  }

  lemma {:induction false} JoinedWordsAreClean(words: seq<string>)
    requires forall w | w in words :: IsWord(w)
    ensures Clean(Join(words, " "))
  {
    if words != [] {
      assert words[0] in words;
      if |words| > 1 { JoinedWordsAreClean(words[1..]); }
    }
  }

  lemma KeyTextIsClean(cr: Crypto, k: Key)
    requires IsKey(cr, k)
    ensures Clean(KeyText(k))
  {
    TextIsWords(cr, k.(line := 0));
    JoinedWordsAreClean([k.algorithm, k.blob] + Fields(k.comment));
    assert KeyText(k) == KeyText(k.(line := 0));
  }

  lemma {:induction false} TextsAreClean(cr: Crypto, keys: seq<Key>)
    requires forall k | k in keys :: IsKey(cr, k)
    ensures forall l | l in Texts(keys) :: Clean(l)
    decreases |keys|
  {
    if keys != [] {
      TextsAreClean(cr, keys[..|keys| - 1]);
      KeyTextIsClean(cr, keys[|keys| - 1]);
    }
  }

  lemma {:induction false} NonBlankAreThere(lines: seq<string>)
    ensures forall l | l in NonBlank(lines) :: l in lines
    decreases |lines|
  {
    if lines != [] { NonBlankAreThere(lines[..|lines| - 1]); }
  }

  /** With CRLF files, splitting on LF alone differs only in a CR that every parser trims. */
  predicate SameButCr(a: seq<string>, b: seq<string>) {
    |a| == |b| && forall i | 0 <= i < |a| :: a[i] == b[i] || a[i] == b[i] + "\r"
  }

  lemma CrlfStep(s: string)
    requires s != "" && s[0] == '\r' && OnlyCrlf(s)
    ensures |s| > 1 && Unified(s) == "\n" + Unified(s[2..]) && Lines(s) == ["\r"] + Lines(s[2..])
  {
    assert s[1..] != "" && s[1..][0] == '\n' && s[1..][1..] == s[2..];
    assert Lines(s[1..]) == [""] + Lines(s[2..]);
    assert [s[0]] + "" == "\r";
  }

  lemma LinesStep(c: char, s: string)
    ensures Lines([c] + s) == if c == '\n' then [""] + Lines(s) else [[c] + Lines(s)[0]] + Lines(s)[1..]
  {
    assert ([c] + s)[1..] == s;
  }

  lemma CrlfTail(s: string, n: nat)
    requires OnlyCrlf(s) && n <= |s|
    ensures OnlyCrlf(s[n..])
  {
    forall i | 0 <= i < |s[n..]| && s[n..][i] == '\r' ensures i + 1 < |s[n..]| && s[n..][i + 1] == '\n' {
      assert s[n + i] == '\r';
    }
  }

  lemma {:induction false} CrlfLines(s: string)
    requires OnlyCrlf(s)
    ensures '\r' !in Unified(s) && SameButCr(Lines(s), Lines(Unified(s)))
    decreases |s|
  {
    hide Lines;
    if s == "" {
    } else if s[0] == '\r' {
      CrlfStep(s);
      CrlfTail(s, 2);
      CrlfLines(s[2..]);
      LinesStep('\n', Unified(s[2..]));
      assert "" + "\r" == "\r";
    } else {
      CrlfTail(s, 1);
      CrlfLines(s[1..]);
      LinesStep(s[0], s[1..]);
      LinesStep(s[0], Unified(s[1..]));
      assert [s[0]] + s[1..] == s;
    }
  }

  lemma KeyIgnoresCr(cr: Crypto, line: string)
    ensures KeyOf(cr, line + "\r") == KeyOf(cr, line)
  {
    TrimIgnoresTail(line, '\r');
    assert line + "\r" == line + ['\r'];
  }

  lemma {:induction false} SameButCrSameKeys(cr: Crypto, a: seq<string>, b: seq<string>)
    requires SameButCr(a, b)
    ensures KeysIn(cr, a) == KeysIn(cr, b)
    decreases |a|
  {
    hide ParseKey, KeyOf;
    if a != [] {
      SameButCrSameKeys(cr, a[..|a| - 1], b[..|b| - 1]);
      KeyIgnoresCr(cr, b[|b| - 1]);
    }
  }

  lemma CrlfSameKeys(cr: Crypto, s: string)
    requires OnlyCrlf(s)
    ensures KeysIn(cr, SplitLines(s)) == KeysIn(cr, Lines(s))
  {
    CrlfLines(s);
    ReplacedHasNoCr(Unified(s));
    SameButCrSameKeys(cr, Lines(s), Lines(Unified(s)));
  }

  // --------------------------------------------------------------------- adding

  lemma {:induction false} NewOnesAreNew(have: set<string>, add: seq<Key>)
    ensures forall k | k in NewOnes(have, add) :: k in add && k.fingerprint !in have
    ensures forall i, j | 0 <= i < j < |NewOnes(have, add)| ::
              NewOnes(have, add)[i].fingerprint != NewOnes(have, add)[j].fingerprint
    ensures forall k | k in add :: k.fingerprint in have + Prints(NewOnes(have, add))
    decreases |add|
  {
    if add != [] {
      var r, last := NewOnes(have, add[..|add| - 1]), add[|add| - 1];
      NewOnesAreNew(have, add[..|add| - 1]);
      PrintsAppend(r, last);
      forall i | 0 <= i < |r| && last.fingerprint !in Prints(r) ensures r[i].fingerprint != last.fingerprint {
        assert r[i] in r;
      }
    }
  }

  lemma {:induction false} NoneNew(have: set<string>, add: seq<Key>)
    requires forall k | k in add :: k.fingerprint in have
    ensures NewOnes(have, add) == []
    decreases |add|
  {
    if add != [] { NoneNew(have, add[..|add| - 1]); }
  }

  lemma KeysOfOne(cr: Crypto, line: string)
    ensures KeysIn(cr, [line]) == KeyOf(cr, line)
  {
    assert [line][..0] == [];
  }

  /** Whatever the file looked like, AddAll's result is its non-blank lines in order,
      then the new keys' lines; so its keys are those of the old lines, then the new ones. */
  lemma AddedHolds(cr: Crypto, existing: seq<Key>, content: string, add: seq<Key>)
    requires forall k | k in add :: IsKey(cr, k)
    requires NewOnes(Prints(existing), add) != []
    ensures var out, added := Added(existing, content, add), NewOnes(Prints(existing), add);
            && Lines(out) == SplitLines(out) == NonBlank(SplitLines(content)) + Texts(added) + [""]
            && KeysIn(cr, Lines(out)) == KeysIn(cr, SplitLines(content)) + Bare(added)
  {
    var added := NewOnes(Prints(existing), add);
    var kept := NonBlank(SplitLines(content));
    NewOnesAreNew(Prints(existing), add);
    SplitLinesAreClean(content);
    NonBlankAreThere(SplitLines(content));
    TextsAreClean(cr, added);
    RenderSplitsBack(kept + Texts(added));
    KeysOfNonBlank(cr, SplitLines(content));
    KeysOfTexts(cr, added);
    KeysInConcat(cr, kept, Texts(added));
    KeysInConcat(cr, kept + Texts(added), [""]);
    KeysOfOne(cr, "");
  }

  /** splitLines, which AddAll and Remove use, and Split on LF, which parseKeys uses,
      find the same keys. */
  predicate SplitsAgree(cr: Crypto, content: string) {
    KeysIn(cr, SplitLines(content)) == KeysIn(cr, Lines(content))
  }

  /** Requested keys that are listed already are seen by splitLines too. */
  predicate ListedAreSeen(cr: Crypto, content: string, add: seq<Key>) {
    forall k | k in add && k.fingerprint in Prints(Parse(cr, content)) ::
      k.fingerprint in Prints(KeysIn(cr, SplitLines(content)))
  }

  lemma NothingToAdd(existing: seq<Key>, content: string, add: seq<Key>)
    requires NewOnes(Prints(existing), add) == []
    ensures Added(existing, content, add) == content
    ensures Bare([]) == [] && Bare(existing) + [] == Bare(existing) && Prints([]) == {}
  {
  }

  lemma SameTail<T>(a: seq<T>, b: seq<T>, tail: seq<T>)
    ensures a + tail == b + tail <==> a == b
  {
    if a + tail == b + tail {
      assert a == (a + tail)[..|a|] && b == (b + tail)[..|b|];
    }
  }

  lemma PrintsOfConcat(a: seq<Key>, b: seq<Key>)
    ensures Prints(a + b) == Prints(a) + Prints(b)
  {
    forall f | f in Prints(a) + Prints(b) ensures f in Prints(a + b) {
      if f in Prints(a) {
        var k :| k in a && k.fingerprint == f;
        assert k in a + b;
      } else {
        var k :| k in b && k.fingerprint == f;
        assert k in a + b;
      }
    }
  }

  lemma PrintIsOfKey(keys: seq<Key>, f: string)
    requires f in Prints(keys)
    ensures exists k :: k in keys && k.fingerprint == f
  {
  }

  /** The fingerprints in AddAll's result: those splitLines saw, and the added ones. */
  lemma AddedPrints(cr: Crypto, content: string, add: seq<Key>)
    requires forall k | k in add :: IsKey(cr, k)
    requires NewOnes(Prints(Parse(cr, content)), add) != []
    ensures var existing := Parse(cr, content);
            var added, out := NewOnes(Prints(existing), add), Added(existing, content, add);
            && Prints(Parse(cr, out)) == Prints(KeysIn(cr, SplitLines(content))) + Prints(added)
            && ((forall k | k in add :: k.fingerprint in Prints(Parse(cr, out))) <==> ListedAreSeen(cr, content, add))
  {
    hide Lines, SplitLines, KeysIn, Numbered, Bare, NewOnes, IsKey, Added, NonBlank, Texts, Prints;
    var existing := Parse(cr, content);
    var added, out := NewOnes(Prints(existing), add), Added(existing, content, add);
    AddedHolds(cr, existing, content, add);
    BareOfNumbered(cr, Lines(out), 1);
    PrintsOfBare(Parse(cr, out));
    PrintsOfBare(added);
    PrintsOfConcat(KeysIn(cr, SplitLines(content)), Bare(added));
    NewOnesAreNew(Prints(existing), add);
    forall f | f in Prints(added) ensures f !in Prints(existing) { PrintIsOfKey(added, f); }
  }

  lemma NoneNewUnless(have: set<string>, add: seq<Key>)
    ensures (forall k | k in add :: k.fingerprint in have) ==> NewOnes(have, add) == []
  {
    if forall k | k in add :: k.fingerprint in have { NoneNew(have, add); }
  }

  /** A second AddAll leaves the content alone exactly when nothing is missing from it. */
  lemma AgainAddsIffMissing(cr: Crypto, content: string, add: seq<Key>)
    requires forall k | k in add :: IsKey(cr, k)
    requires NewOnes(Prints(Parse(cr, content)), add) != []
    ensures var out := Added(Parse(cr, content), content, add);
            Added(Parse(cr, out), out, add) == out <==> forall k | k in add :: k.fingerprint in Prints(Parse(cr, out))
  {
    hide Lines, SplitLines, KeysIn, Numbered, NewOnes, IsKey, Added, NonBlank, Texts, Prints;
    var existing := Parse(cr, content);
    var out := Added(existing, content, add);
    var keys := Parse(cr, out);
    AddedHolds(cr, existing, content, add);
    if NewOnes(Prints(keys), add) == [] {
      NothingToAdd(keys, out, add);
      NewOnesAreNew(Prints(keys), add);
    } else {
      AddedHolds(cr, keys, out, add);
      NoneNewUnless(Prints(keys), add);
    }
  }

  /** The law of AddAll, and exactly when the code meets it. For any content: no added
      key was there or is added twice. The result lists the old keys and then the added
      ones if and only if nothing is added or both ways of splitting see the same keys;
      and every requested key is listed, so that asking again changes nothing, if and
      only if nothing is added or splitLines sees the requested keys listed already. */
  lemma AddAllExactly(cr: Crypto, content: string, add: seq<Key>)
    requires forall k | k in add :: IsKey(cr, k)
    ensures var existing := Parse(cr, content);
            var added, out := NewOnes(Prints(existing), add), Added(existing, content, add);
            && (forall k | k in added :: k in add && k.fingerprint !in Prints(existing))
            && (forall i, j | 0 <= i < j < |added| :: added[i].fingerprint != added[j].fingerprint)
            && (Bare(Parse(cr, out)) == Bare(existing) + Bare(added) <==> added == [] || SplitsAgree(cr, content))
            && ((forall k | k in add :: k.fingerprint in Prints(Parse(cr, out)))
                <==> added == [] || ListedAreSeen(cr, content, add))
            && (Added(Parse(cr, out), out, add) == out <==> added == [] || ListedAreSeen(cr, content, add))
  {
    hide Lines, SplitLines, KeysIn, Numbered, Bare, Prints, NewOnes, IsKey, Added, NonBlank, Texts;
    var existing := Parse(cr, content);
    var added, out := NewOnes(Prints(existing), add), Added(existing, content, add);
    NewOnesAreNew(Prints(existing), add);
    if added == [] {
      NothingToAdd(existing, content, add);
      NoneNew(Prints(existing), add);
    } else {
      BareOfNumbered(cr, Lines(content), 1);
      BareOfNumbered(cr, Lines(out), 1);
      AddedHolds(cr, existing, content, add);
      SameTail(KeysIn(cr, SplitLines(content)), Bare(existing), Bare(added));
      AddedPrints(cr, content, add);
      AgainAddsIffMissing(cr, content, add);
    }
  }

  /** With CRs only in CRLF the law always holds: the old keys, then the new ones; every
      requested fingerprint is in; and asking again changes nothing. */
  lemma AddAllAdds(cr: Crypto, content: string, add: seq<Key>)
    requires OnlyCrlf(content) && forall k | k in add :: IsKey(cr, k)
    ensures var existing := Parse(cr, content);
            var added, out := NewOnes(Prints(existing), add), Added(existing, content, add);
            && Bare(Parse(cr, out)) == Bare(existing) + Bare(added)
            && (forall k | k in add :: k.fingerprint in Prints(Parse(cr, out)))
            && Added(Parse(cr, out), out, add) == out
  {
    hide Lines, SplitLines, KeysIn, Numbered, Bare, Prints, NewOnes, IsKey, Added;
    CrlfSameKeys(cr, content);
    AddAllExactly(cr, content, add);
    BareOfNumbered(cr, Lines(content), 1);
    PrintsOfBare(Parse(cr, content));
  }

  lemma TextIsNotEmpty(cr: Crypto, k: Key)
    requires IsKey(cr, k)
    ensures KeyText(k) != ""
  {
    TextIsWords(cr, k.(line := 0));
    JoinIsSolid([k.algorithm, k.blob] + Fields(k.comment));
    assert KeyText(k) == KeyText(k.(line := 0));
  }

  lemma {:induction false} OneLine(s: string)
    requires '\n' !in s
    ensures Lines(s) == [s]
  {
    if s != "" {
      OneLine(s[1..]);
      assert [s[0]] + s[1..] == s;
    }
  }

  lemma {:induction false} HashStays(line: string)
    requires line != "" && line[0] == '#'
    ensures TrimRight(line) != "" && TrimRight(line)[0] == '#'
    decreases |line|
  {
    if IsSpace(line[|line| - 1]) { HashStays(line[..|line| - 1]); }
  }

  lemma CommentIsSkipped(cr: Crypto, line: string)
    requires line != "" && line[0] == '#'
    ensures KeyOf(cr, line) == []
  {
    HashStays(line);
  }

  lemma {:induction false} UnifiedKeepsLoneCr(a: string, b: string)
    requires Clean(a) && Clean(b)
    ensures Unified(a + "\r" + b) == a + "\r" + b
  {
    var s := a + "\r" + b;
    if a == "" {
      UnifiedWithoutCr(b);
      assert s == "\r" + b && s[1..] == b;
    } else {
      UnifiedKeepsLoneCr(a[1..], b);
      assert s[1..] == a[1..] + "\r" + b;
      assert [a[0]] + (a[1..] + "\r" + b) == s;
    }
  }

  lemma ReplacedStep(c: char, s: string)
    ensures Replaced([c] + s) == (if c == '\r' then "\n" else [c]) + Replaced(s)
  {
    assert ([c] + s)[1..] == s;
  }

  lemma {:induction false} ReplacedTurnsCr(a: string, b: string)
    requires Clean(a) && Clean(b)
    ensures Replaced(a + "\r" + b) == a + "\n" + b
  {
    hide Replaced;
    if a == "" {
      ReplacedHasNoCr(b);
      assert "" + "\r" + b == "\r" + b && "" + "\n" + b == "\n" + b;
      ReplacedStep('\r', b);
    } else {
      ReplacedTurnsCr(a[1..], b);
      assert a + "\r" + b == [a[0]] + (a[1..] + "\r" + b);
      assert a + "\n" + b == [a[0]] + (a[1..] + "\n" + b);
      ReplacedStep(a[0], a[1..] + "\r" + b);
    }
  }

  /** A lone CR ends a line for splitLines. */
  lemma CrEndsLine(a: string, b: string)
    requires Clean(a) && Clean(b) && b != ""
    ensures SplitLines(a + "\r" + b) == [a, b]
  {
    hide Lines, Unified, Replaced;
    UnifiedKeepsLoneCr(a, b);
    ReplacedTurnsCr(a, b);
    LinesOfLine(a, b);
    OneLine(b);
  }

  /** parseKeys sees a comment line; splitLines sees a comment and a key. */
  lemma KeyBehindLoneCr(cr: Crypto, k: Key)
    requires IsKey(cr, k)
    ensures var content := "#\r" + KeyText(k);
            Parse(cr, content) == [] && KeysIn(cr, SplitLines(content)) == [k.(line := 0)]
  {
    hide ParseKey, KeyOf, IsKey, KeyText, Lines, Unified, Replaced;
    var text := KeyText(k);
    var content := "#\r" + text;
    KeyTextIsClean(cr, k);
    TextIsItsKey(cr, k);
    OneLine(content);
    CommentIsSkipped(cr, content);
    CommentIsSkipped(cr, "#");
    BareOfNumbered(cr, [content], 1);
    KeysOfOne(cr, content);
    TextIsNotEmpty(cr, k);
    CrEndsLine("#", text);
    assert "#" + "\r" + text == content && ["#"] + [text] == ["#", text];
    KeysInConcat(cr, ["#"], [text]);
    KeysOfOne(cr, "#");
    KeysOfOne(cr, text);
    assert [] + [k.(line := 0)] == [k.(line := 0)];
  }

  lemma OneIsNew(have: set<string>, k: Key)
    requires k.fingerprint !in have
    ensures NewOnes(have, [k]) == [k]
  {
    assert [k][..0] == [];
    assert NewOnes(have, []) == [] && Prints([]) == {};
  }

  lemma NoPrints(f: string)
    ensures f !in Prints([])
  {
  }

  /** Behind a lone CR, AddAll finds a key that parseKeys took for part of a comment, and
      writes it out as a line of its own. */
  lemma LoneCrRevivesKey(cr: Crypto, k: Key, k2: Key)
    requires IsKey(cr, k) && IsKey(cr, k2)
    ensures var content := "#\r" + KeyText(k);
            && Parse(cr, content) == []
            && Bare(Parse(cr, Added([], content, [k2]))) == [k.(line := 0)] + Bare([k2])
  {
    hide ParseKey, KeyOf, IsKey, KeyText, Lines, SplitLines, Added, KeysIn, Numbered;
    hide NewOnes, NonBlank, Texts, Prints, Render, Bare;
    var content := "#\r" + KeyText(k);
    KeyBehindLoneCr(cr, k);
    NoPrints(k2.fingerprint);
    OneIsNew(Prints([]), k2);
    AddedHolds(cr, [], content, [k2]);
    BareOfNumbered(cr, Lines(Added([], content, [k2])), 1);
  }

  lemma WordIsClean(w: string)
    requires IsWord(w)
    ensures Clean(w)
  {
  }

  lemma FieldsSkip(c: char, s: string)
    requires IsSpace(c)
    ensures Fields([c] + s) == Fields(s) && Fields("") == []
  {
    assert ([c] + s)[1..] == s;
  }

  lemma TwoFields(a: string, b: string)
    requires IsWord(a) && IsWord(b)
    ensures var line := a + "\r" + b; Trim(line) == line && Fields(line) == [a, b]
  {
    var line := a + "\r" + b;
    TrimKeepsSolid(line);
    hide Trim, Fields, IsWord;
    assert line == a + (['\r'] + b);
    FieldsOfWord(a, ['\r'] + b);
    FieldsSkip('\r', b);
    FieldsOfWord(b, "");
    assert b + "" == b;
  }

  lemma CrIsASpace(cr: Crypto, k: Key)
    requires WellFormed(cr, k) && k.comment == "" && IsWord(k.algorithm)
    ensures KeyOf(cr, k.algorithm + "\r" + k.blob) == [k]
  {
    hide Trim, Fields, IsWord, CheckBlobHeader, IsAscii;
    TwoFields(k.algorithm, k.blob);
    KeyTypesArePlain(k.algorithm);
  }

  lemma WordIsNoKey(cr: Crypto, w: string)
    requires IsWord(w)
    ensures KeyOf(cr, w) == []
  {
    TrimKeepsSolid(w);
    FieldsOfWord(w, "");
    assert w + "" == w;
  }

  /** The other way round: a lone CR inside a key's line, where parseKeys sees a space
      and splitLines the end of a line. */
  lemma KeyAcrossLoneCr(cr: Crypto, k: Key)
    requires WellFormed(cr, k) && k.comment == ""
    ensures var content := k.algorithm + "\r" + k.blob;
            && KeysIn(cr, Lines(content)) == [k]
            && SplitLines(content) == [k.algorithm, k.blob]
            && KeysIn(cr, SplitLines(content)) == []
  {
    hide ParseKey, KeyOf, KeyText, Lines, Unified, Replaced, SplitLines;
    var content := k.algorithm + "\r" + k.blob;
    KeyTypesArePlain(k.algorithm);
    WordIsClean(k.algorithm);
    WordIsClean(k.blob);
    OneLine(content);
    KeysOfOne(cr, content);
    CrIsASpace(cr, k);
    CrEndsLine(k.algorithm, k.blob);
    WordIsNoKey(cr, k.algorithm);
    WordIsNoKey(cr, k.blob);
    KeysInConcat(cr, [k.algorithm], [k.blob]);
    KeysOfOne(cr, k.algorithm);
    KeysOfOne(cr, k.blob);
    assert [k.algorithm] + [k.blob] == [k.algorithm, k.blob];
  }

  lemma PrintOfOne(k: Key)
    ensures Prints([k]) == {k.fingerprint}
  {
    PrintsAppend([], k);
    assert [] + [k] == [k] && Prints([]) == {};
  }
}
