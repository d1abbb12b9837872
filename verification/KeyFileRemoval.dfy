/** What Remove does to the keys of a file, and how far it undoes AddAll. */
module KeyFileRemoval {
  import opened Prelude
  import opened Text
  import opened AuthKeys
  import opened KeyFile
  import opened KeyFileTheorems

  function NotVictims(victims: set<string>, keys: seq<Key>): (r: seq<Key>) {
    if keys == [] then []
    else
      var last := keys[|keys| - 1];
      NotVictims(victims, keys[..|keys| - 1]) + if last.fingerprint in victims then [] else [last]
  }

  lemma {:induction false} NotVictimsConcat(victims: set<string>, a: seq<Key>, b: seq<Key>)
    ensures NotVictims(victims, a + b) == NotVictims(victims, a) + NotVictims(victims, b)
    decreases |b|
  {
    if b == [] {
      assert a + b == a;
    } else {
      NotVictimsConcat(victims, a, b[..|b| - 1]);
      assert (a + b)[..|a + b| - 1] == a + b[..|b| - 1];
    }
  }

  lemma VictimsByKey(cr: Crypto, victims: set<string>, line: string)
    ensures NotVictims(victims, KeyOf(cr, line)) == (if IsVictim(cr, victims, line) then [] else KeyOf(cr, line))
  {
    if ParseKey(cr, line).Accepted? { assert [ParseKey(cr, line).key][..0] == []; }
  }

  lemma {:induction false} SurvivingKeys(cr: Crypto, victims: set<string>, lines: seq<string>)
    ensures KeysIn(cr, Surviving(cr, victims, lines)) == NotVictims(victims, KeysIn(cr, lines))
    decreases |lines|
  {
    hide ParseKey, KeyOf, IsVictim;
    if lines != [] {
      var front, last := lines[..|lines| - 1], lines[|lines| - 1];
      SurvivingKeys(cr, victims, front);
      NotVictimsConcat(victims, KeysIn(cr, front), KeyOf(cr, last));
      KeysInConcat(cr, Surviving(cr, victims, front), if IsVictim(cr, victims, last) then [] else [last]);
      KeysOfOne(cr, last);
      VictimsByKey(cr, victims, last);
    }
  }

  lemma {:induction false} SurvivorsAreOthers(cr: Crypto, victims: set<string>, lines: seq<string>)
    ensures forall l | l in Surviving(cr, victims, lines) :: l in lines && !IsVictim(cr, victims, l)
    ensures |Surviving(cr, victims, lines)| == |lines| <==> forall l | l in lines :: !IsVictim(cr, victims, l)
    ensures |Surviving(cr, victims, lines)| == |lines| ==> Surviving(cr, victims, lines) == lines
    decreases |lines|
  {
    hide IsVictim;
    if lines != [] { SurvivorsAreOthers(cr, victims, lines[..|lines| - 1]); }
  }

  lemma BlankIsNoKey(cr: Crypto, victims: set<string>)
    ensures !IsVictim(cr, victims, "") && KeyOf(cr, "") == []
  {
  }

  /** Remove keeps every other line, in order, and leaves no victim behind. */
  lemma RemoveKeepsOtherLines(cr: Crypto, content: string, victims: set<string>)
    ensures var out, kept := Removed(cr, content, victims), Surviving(cr, victims, SplitLines(content));
            && ((out == content && kept == SplitLines(content)) || SplitLines(out) == kept + [""])
            && (forall l | l in SplitLines(out) :: !IsVictim(cr, victims, l))
            && KeysIn(cr, SplitLines(out)) == NotVictims(victims, KeysIn(cr, SplitLines(content)))
  {
    var lines := SplitLines(content);
    var kept := Surviving(cr, victims, lines);
    hide ParseKey, Unified, Replaced, Lines;
    SurvivingKeys(cr, victims, lines);
    SurvivorsAreOthers(cr, victims, lines);
    SplitLinesAreClean(content);
    RenderSplitsBack(kept);
    KeysInConcat(cr, kept, [""]);
    KeysOfOne(cr, "");
    BlankIsNoKey(cr, victims);
  }

  /** Removing twice is removing once. */
  lemma RemoveIsIdempotent(cr: Crypto, content: string, victims: set<string>)
    ensures var out := Removed(cr, content, victims); Removed(cr, out, victims) == out
  {
    var out := Removed(cr, content, victims);
    RemoveKeepsOtherLines(cr, content, victims);
    SurvivorsAreOthers(cr, victims, SplitLines(out));
  }

  /** What parseKeys finds after Remove. */
  lemma RemovedParses(cr: Crypto, content: string, victims: set<string>)
    ensures var lines := SplitLines(content);
            Bare(Parse(cr, Removed(cr, content, victims))) ==
            if exists l | l in lines :: IsVictim(cr, victims, l) then NotVictims(victims, KeysIn(cr, lines))
            else KeysIn(cr, Lines(content))
  {
    hide ParseKey, SplitLines, Lines, IsVictim, Surviving, Render, KeysIn, NotVictims, Numbered, Bare;
    var lines, out := SplitLines(content), Removed(cr, content, victims);
    BareOfNumbered(cr, Lines(out), 1);
    SurvivorsAreOthers(cr, victims, lines);
    if exists l | l in lines :: IsVictim(cr, victims, l) {
      var kept := Surviving(cr, victims, lines);
      SurvivingKeys(cr, victims, lines);
      SplitLinesAreClean(content);
      RenderSplitsBack(kept);
      KeysInConcat(cr, kept, [""]);
      KeysOfOne(cr, "");
      BlankIsNoKey(cr, victims);
    }
  }

  lemma {:induction false} FewerNotVictims(victims: set<string>, keys: seq<Key>)
    ensures |NotVictims(victims, keys)| <= |keys|
    decreases |keys|
  {
    if keys != [] { FewerNotVictims(victims, keys[..|keys| - 1]); }
  }

  lemma {:induction false} NoVictimsIff(victims: set<string>, keys: seq<Key>)
    ensures NotVictims(victims, keys) == keys <==> victims !! Prints(keys)
    decreases |keys|
  {
    if keys != [] {
      var front, last := keys[..|keys| - 1], keys[|keys| - 1];
      assert keys == front + [last];
      PrintsAppend(front, last);
      NoVictimsIff(victims, front);
      FewerNotVictims(victims, front);
    } else {
      assert Prints(keys) == {};
    }
  }

  /** The law of Remove, and exactly when the code meets it: afterwards the listed keys
      are those that are no victims, if and only if both ways of splitting see the same
      other keys, when splitLines sees a victim, or else no listed key is one. */
  lemma RemoveExactly(cr: Crypto, content: string, victims: set<string>)
    ensures var lines, listed := SplitLines(content), Bare(Parse(cr, content));
            Bare(Parse(cr, Removed(cr, content, victims))) == NotVictims(victims, listed)
            <==> if exists l | l in lines :: IsVictim(cr, victims, l)
                 then NotVictims(victims, KeysIn(cr, lines)) == NotVictims(victims, KeysIn(cr, Lines(content)))
                 else victims !! Prints(Parse(cr, content))
  {
    hide ParseKey, SplitLines, Lines, IsVictim, Removed, KeysIn, NotVictims, Numbered, Bare, Prints;
    RemovedParses(cr, content, victims);
    BareOfNumbered(cr, Lines(content), 1);
    PrintsOfBare(Parse(cr, content));
    NoVictimsIff(victims, KeysIn(cr, Lines(content)));
  }

  /** Without victims among the lines there are none among their keys. */
  lemma KeylessOfVictims(cr: Crypto, victims: set<string>, lines: seq<string>)
    requires forall l | l in lines :: !IsVictim(cr, victims, l)
    ensures NotVictims(victims, KeysIn(cr, lines)) == KeysIn(cr, lines)
  {
    hide ParseKey, IsVictim, Surviving, KeysIn, NotVictims;
    SurvivorsAreOthers(cr, victims, lines);
    SurvivingKeys(cr, victims, lines);
  }

  /** In a CRLF or LF file no key with a victim's fingerprint is left to parse, and the
      others are as they were. */
  lemma RemoveRemoves(cr: Crypto, content: string, victims: set<string>)
    requires OnlyCrlf(content)
    ensures Bare(Parse(cr, Removed(cr, content, victims))) == NotVictims(victims, Bare(Parse(cr, content)))
  {
    hide ParseKey, SplitLines, Lines, IsVictim, Removed, KeysIn, NotVictims, Numbered, Bare, Prints;
    CrlfSameKeys(cr, content);
    BareOfNumbered(cr, Lines(content), 1);
    RemovedParses(cr, content, victims);
    if forall l | l in SplitLines(content) :: !IsVictim(cr, victims, l) {
      KeylessOfVictims(cr, victims, SplitLines(content));
    }
  }

  lemma KeylessIsNoVictim(cr: Crypto, victims: set<string>, line: string)
    ensures KeyOf(cr, line) == [] ==> !IsVictim(cr, victims, line)
  {
    hide ParseKey;
  }

  /** Lines without any key all survive. */
  lemma {:induction false} KeylessSurvive(cr: Crypto, victims: set<string>, lines: seq<string>)
    requires KeysIn(cr, lines) == []
    ensures Surviving(cr, victims, lines) == lines
    decreases |lines|
  {
    hide KeyOf, IsVictim;
    if lines != [] {
      KeylessIsNoVictim(cr, victims, lines[|lines| - 1]);
      KeylessSurvive(cr, victims, lines[..|lines| - 1]);
    }
  }

  lemma AddedIsLf(cr: Crypto, existing: seq<Key>, content: string, k: Key)
    requires IsKey(cr, k) && NewOnes(Prints(existing), [k]) == [k]
    ensures OnlyCrlf(Added(existing, content, [k]))
  {
    SplitLinesAreClean(content);
    NonBlankAreThere(SplitLines(content));
    TextsAreClean(cr, [k]);
    RenderHasNoCr(NonBlank(SplitLines(content)) + Texts([k]));
  }

  lemma OnlyVictim(k: Key)
    ensures NotVictims({k.fingerprint}, Bare([k])) == []
  {
    assert Bare([k])[..0] == [];
  }

  /** Removing a key that was just added restores the listed keys exactly when
      splitLines sees, apart from that key, the keys that are listed. */
  lemma RemoveUndoesAddExactly(cr: Crypto, content: string, k: Key)
    requires IsKey(cr, k) && k.fingerprint !in Prints(Parse(cr, content))
    ensures var victims, listed := {k.fingerprint}, Bare(Parse(cr, content));
            Bare(Parse(cr, Removed(cr, Added(Parse(cr, content), content, [k]), victims))) == listed
            <==> NotVictims(victims, KeysIn(cr, SplitLines(content))) == listed
  {
    hide ParseKey, SplitLines, Lines, IsVictim, Removed, Added, KeysIn, NotVictims, Numbered, Bare, Prints, NewOnes;
    hide IsKey;
    var victims, existing := {k.fingerprint}, Parse(cr, content);
    var out := Added(existing, content, [k]);
    OneIsNew(Prints(existing), k);
    AddedHolds(cr, existing, content, [k]);
    AddedIsLf(cr, existing, content, k);
    RemoveRemoves(cr, out, victims);
    BareOfNumbered(cr, Lines(out), 1);
    NotVictimsConcat(victims, KeysIn(cr, SplitLines(content)), Bare([k]));
    OnlyVictim(k);
    var others := NotVictims(victims, KeysIn(cr, SplitLines(content)));
    assert others + [] == others;
  }

  /** In a CRLF or LF file Remove always undoes the addition of a key that was not there. */
  lemma RemoveUndoesAdd(cr: Crypto, content: string, k: Key)
    requires OnlyCrlf(content) && IsKey(cr, k) && k.fingerprint !in Prints(Parse(cr, content))
    ensures var out := Added(Parse(cr, content), content, [k]);
            Bare(Parse(cr, Removed(cr, out, {k.fingerprint}))) == Bare(Parse(cr, content))
  {
    hide ParseKey, SplitLines, Lines, Removed, Added, KeysIn, NotVictims, Numbered, Bare, Prints, IsKey;
    RemoveUndoesAddExactly(cr, content, k);
    CrlfSameKeys(cr, content);
    BareOfNumbered(cr, Lines(content), 1);
    PrintsOfBare(Parse(cr, content));
    NoVictimsIff({k.fingerprint}, Bare(Parse(cr, content)));
  }

  lemma {:induction false} NonBlankConcat(a: seq<string>, b: seq<string>)
    ensures NonBlank(a + b) == NonBlank(a) + NonBlank(b)
    decreases |b|
  {
    if b == [] {
      assert a + b == a;
    } else {
      NonBlankConcat(a, b[..|b| - 1]);
      assert (a + b)[..|a + b| - 1] == a + b[..|b| - 1];
    }
  }

  lemma {:induction false} SurvivingConcat(cr: Crypto, victims: set<string>, a: seq<string>, b: seq<string>)
    ensures Surviving(cr, victims, a + b) == Surviving(cr, victims, a) + Surviving(cr, victims, b)
    decreases |b|
  {
    hide IsVictim;
    if b == [] {
      assert a + b == a;
    } else {
      SurvivingConcat(cr, victims, a, b[..|b| - 1]);
      assert (a + b)[..|a + b| - 1] == a + b[..|b| - 1];
    }
  }

  /** What is left of non-blank lines is non-blank. */
  lemma {:induction false} SurvivorsStayNonBlank(cr: Crypto, victims: set<string>, lines: seq<string>)
    ensures var s := Surviving(cr, victims, NonBlank(lines)); NonBlank(s) == s
    decreases |lines|
  {
    hide IsVictim, Trim;
    if lines != [] {
      var front, last := NonBlank(lines[..|lines| - 1]), lines[|lines| - 1];
      SurvivorsStayNonBlank(cr, victims, lines[..|lines| - 1]);
      if Trim(last) == "" {
        assert front + [] == front;
      } else {
        SurvivingConcat(cr, victims, front, [last]);
        NonBlankConcat(Surviving(cr, victims, front), [last]);
        assert [last][..0] == [];
        assert [] + [last] == [last] && Surviving(cr, victims, front) + [] == Surviving(cr, victims, front);
      }
    }
  }

  lemma TextsOfOne(k: Key)
    ensures Texts([k]) == [KeyText(k)]
  {
    assert [k][..0] == [];
  }

  lemma OnlyTextIsVictim(cr: Crypto, k: Key)
    requires IsKey(cr, k)
    ensures IsVictim(cr, {k.fingerprint}, KeyText(k)) && !IsVictim(cr, {k.fingerprint}, "")
  {
    assert KeyText(k) == KeyText(k.(line := 0));
    TextParsesBack(cr, k.(line := 0));
  }

  lemma OnlyTextSurvivesNot(cr: Crypto, k: Key)
    requires IsKey(cr, k)
    ensures Surviving(cr, {k.fingerprint}, [KeyText(k)]) == [] && Surviving(cr, {k.fingerprint}, [""]) == [""]
  {
    hide ParseKey, KeyText, IsKey, IsVictim;
    OnlyTextIsVictim(cr, k);
    assert [KeyText(k)][..0] == [] && [""][..0] == [];
  }

  /** The bytes after adding a key and removing it again. */
  lemma AddedThenRemoved(cr: Crypto, existing: seq<Key>, content: string, k: Key)
    requires IsKey(cr, k) && k.fingerprint !in Prints(existing)
    ensures var victims := {k.fingerprint};
            Removed(cr, Added(existing, content, [k]), victims)
            == Render(Surviving(cr, victims, NonBlank(SplitLines(content))) + [""])
  {
    hide ParseKey, KeyText, IsKey, Lines, Unified, Replaced, IsVictim, NonBlank, Prints, NewOnes, Render, Surviving;
    hide Texts;
    hide SplitLines;
    var victims, kept := {k.fingerprint}, NonBlank(SplitLines(content));
    var out := Added(existing, content, [k]);
    OneIsNew(Prints(existing), k);
    TextsOfOne(k);
    SplitLinesAreClean(content);
    NonBlankAreThere(SplitLines(content));
    KeyTextIsClean(cr, k);
    RenderSplitsBack(kept + [KeyText(k)]);
    OnlyTextSurvivesNot(cr, k);
    SurvivingConcat(cr, victims, kept + [KeyText(k)], [""]);
    SurvivingConcat(cr, victims, kept, [KeyText(k)]);
    assert Surviving(cr, victims, kept) + [] == Surviving(cr, victims, kept);
  }

  lemma TwoBlanks(kept: seq<string>)
    ensures NonBlank(kept + [""] + [""]) == NonBlank(kept)
  {
    NonBlankConcat(kept + [""], [""]);
    NonBlankConcat(kept, [""]);
    assert [""][..0] == [];
  }

  /** Adding a key and removing it again gives back the same bytes for exactly these
      files: non-blank lines ending in LF, none of them the key's, and one empty line. */
  lemma RemoveRestoresBytes(cr: Crypto, content: string, k: Key)
    requires IsKey(cr, k) && k.fingerprint !in Prints(Parse(cr, content))
    ensures var lines := SplitLines(content);
            Removed(cr, Added(Parse(cr, content), content, [k]), {k.fingerprint}) == content
            <==> content == Render(NonBlank(lines) + [""])
                 && forall l | l in lines :: !IsVictim(cr, {k.fingerprint}, l)
  {
    hide ParseKey, KeyText, IsKey, Lines, SplitLines, IsVictim, NonBlank, Prints, Added, Removed, Render, Surviving;
    hide Numbered;
    var victims, lines := {k.fingerprint}, SplitLines(content);
    AddedThenRemoved(cr, Parse(cr, content), content, k);
    var kept := Surviving(cr, victims, NonBlank(lines));
    NonBlankAreThere(lines);
    SurvivorsAreOthers(cr, victims, NonBlank(lines));
    if content == Render(kept + [""]) {
      SplitLinesAreClean(content);
      RenderSplitsBack(kept + [""]);
      SurvivorsStayNonBlank(cr, victims, lines);
      TwoBlanks(kept);
      BlankIsNoKey(cr, victims);
    }
  }

  lemma NothingIsLeft(cr: Crypto, victims: set<string>)
    ensures Surviving(cr, victims, NonBlank(SplitLines(""))) == []
  {
    assert Unified("") == "" && Replaced("") == "" && SplitLines("") == [""];
    assert [""][..0] == [];
    assert NonBlank([""]) == [];
  }

  /** So not for an empty file, which comes back as one newline. */
  lemma RemoveIsNoByteInverse(cr: Crypto, k: Key)
    requires IsKey(cr, k)
    ensures Removed(cr, Added([], "", [k]), {k.fingerprint}) == "\n"
  {
    hide ParseKey, KeyText, IsKey, IsVictim, Lines, Replaced, Unified;
    NoPrints(k.fingerprint);
    AddedThenRemoved(cr, [], "", k);
    NothingIsLeft(cr, {k.fingerprint});
    assert [] + [""] == [""];
  }

  /** Such a key is listed, yet Remove does not find it, and adding another key loses it. */
  lemma LoneCrHidesKey(cr: Crypto, k: Key, k2: Key)
    requires WellFormed(cr, k) && k.comment == "" && IsKey(cr, k2) && k2.fingerprint != k.fingerprint
    ensures var content := k.algorithm + "\r" + k.blob; var existing := Parse(cr, content);
            && Bare(existing) == [k]
            && Removed(cr, content, {k.fingerprint}) == content
            && Bare(Parse(cr, Added(existing, content, [k2]))) == Bare([k2])
  {
    hide ParseKey, KeyOf, IsKey, KeyText, Lines, SplitLines, Added, KeysIn, Numbered;
    hide NewOnes, NonBlank, Texts, Prints, Render, Bare, WellFormed, IsVictim, Surviving;
    var content := k.algorithm + "\r" + k.blob;
    var existing := Parse(cr, content);
    KeyAcrossLoneCr(cr, k);
    BareOfNumbered(cr, Lines(content), 1);
    PrintsOfBare(existing);
    PrintOfOne(k);
    OneIsNew(Prints(existing), k2);
    AddedHolds(cr, existing, content, [k2]);
    BareOfNumbered(cr, Lines(Added(existing, content, [k2])), 1);
    KeylessSurvive(cr, {k.fingerprint}, SplitLines(content));
  }

  lemma KeyIsItsOwnBare(cr: Crypto, k: Key)
    requires WellFormed(cr, k)
    ensures IsKey(cr, k)
  {
    assert k.(line := 0) == k;
  }

  lemma OnlySecondIsNew(have: set<string>, k: Key, k2: Key)
    requires k.fingerprint in have && k2.fingerprint !in have
    ensures NewOnes(have, [k, k2]) == [k2]
  {
    assert [k, k2][..1] == [k] && [k][..0] == [];
    assert NewOnes(have, []) == [] && NewOnes(have, [k]) == [] && Prints([]) == {};
  }

  /** And if that key is requested along with a new one, AddAll takes it for present and
      loses it: it is not in the result, and asking again changes the result. */
  lemma LoneCrLosesRequestedKey(cr: Crypto, k: Key, k2: Key)
    requires WellFormed(cr, k) && k.comment == "" && IsKey(cr, k2) && k2.fingerprint != k.fingerprint
    ensures var content := k.algorithm + "\r" + k.blob; var existing := Parse(cr, content);
            var out := Added(existing, content, [k, k2]);
            && k.fingerprint in Prints(existing) && k.fingerprint !in Prints(Parse(cr, out))
            && Added(Parse(cr, out), out, [k, k2]) != out
  {
    hide ParseKey, KeyOf, IsKey, KeyText, Lines, SplitLines, Added, KeysIn, Numbered;
    hide NewOnes, Prints, Bare, WellFormed;
    var content := k.algorithm + "\r" + k.blob;
    var existing, add := Parse(cr, content), [k, k2];
    KeyIsItsOwnBare(cr, k);
    KeyAcrossLoneCr(cr, k);
    BareOfNumbered(cr, Lines(content), 1);
    PrintsOfBare(existing);
    PrintOfOne(k);
    PrintOfOne(k2);
    NoPrints(k.fingerprint);
    OnlySecondIsNew(Prints(existing), k, k2);
    AddedPrints(cr, content, add);
    AddAllExactly(cr, content, add);
    assert k in add;
  }

  /** Nor does Remove undo AddAll where AddAll has revived a key: that key stays. */
  lemma RevivedKeyOutlivesUndo(cr: Crypto, k: Key, k2: Key)
    requires IsKey(cr, k) && IsKey(cr, k2) && k2.fingerprint != k.fingerprint
    ensures var content := "#\r" + KeyText(k); var existing := Parse(cr, content);
            && existing == []
            && Bare(Parse(cr, Removed(cr, Added(existing, content, [k2]), {k2.fingerprint}))) == [k.(line := 0)]
  {
    hide ParseKey, KeyOf, IsKey, KeyText, Lines, SplitLines, Added, KeysIn, Numbered, Removed;
    hide NewOnes, Prints, Bare, NotVictims;
    var content, victims := "#\r" + KeyText(k), {k2.fingerprint};
    var out := Added([], content, [k2]);
    LoneCrRevivesKey(cr, k, k2);
    NoPrints(k2.fingerprint);
    OneIsNew(Prints([]), k2);
    AddedIsLf(cr, [], content, k2);
    RemoveRemoves(cr, out, victims);
    NotVictimsConcat(victims, [k.(line := 0)], Bare([k2]));
    OnlyVictim(k2);
    PrintOfOne(k.(line := 0));
    NoVictimsIff(victims, [k.(line := 0)]);
    assert [k.(line := 0)] + [] == [k.(line := 0)];
  }
}
