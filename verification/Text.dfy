/** The string operations of the Go library that the key file editor and the
    client use: TrimSpace, Fields, Join, Split on newline. Characters are Unicode
    code points. */
module Text {

  /** unicode.IsSpace. */
  predicate IsSpace(c: char) {
    || '\t' <= c <= '\r' || c == ' '
    || c as int == 0x85 || c as int == 0xA0 || c as int == 0x1680 || 0x2000 <= c as int <= 0x200A
    || c as int == 0x2028 || c as int == 0x2029 || c as int == 0x202F || c as int == 0x205F || c as int == 0x3000
  }

  /** A non-empty run of non-spaces. */
  predicate IsWord(w: string) {
    w != "" && forall i | 0 <= i < |w| :: !IsSpace(w[i])
  }

  function TrimRight(s: string): (r: string) {
    if s != "" && IsSpace(s[|s| - 1]) then TrimRight(s[..|s| - 1]) else s
  }

  function TrimLeft(s: string): (r: string) {
    if s != "" && IsSpace(s[0]) then TrimLeft(s[1..]) else s
  }

  /** strings.TrimSpace. */
  function Trim(s: string): (r: string) { TrimLeft(TrimRight(s)) }

  lemma TrimKeepsSolid(s: string)
    requires s != "" && !IsSpace(s[0]) && !IsSpace(s[|s| - 1])
    ensures Trim(s) == s
  {
  }

  lemma TrimIgnoresTail(s: string, c: char)
    requires IsSpace(c)
    ensures Trim(s + [c]) == Trim(s)
  {
    assert (s + [c])[..|s|] == s;
  }

  /** How many characters the word at the start of s has. */
  function WordLen(s: string): (n: nat)
    ensures n <= |s| && (s != "" && !IsSpace(s[0]) ==> n > 0)
  {
    if s == "" || IsSpace(s[0]) then 0 else 1 + WordLen(s[1..])
  }

  /** strings.Fields. */
  function Fields(s: string): (r: seq<string>)
    decreases |s|
  {
    if s == "" then []
    else if IsSpace(s[0]) then Fields(s[1..])
    else [s[..WordLen(s)]] + Fields(s[WordLen(s)..])
  }

  lemma {:induction false} WordLenIsWord(s: string)
    ensures forall i | 0 <= i < WordLen(s) :: !IsSpace(s[i])
  {
    if s != "" && !IsSpace(s[0]) {
      WordLenIsWord(s[1..]);
      forall i | 0 <= i < WordLen(s) ensures !IsSpace(s[i]) {
        if i > 0 { assert s[1..][i - 1] == s[i]; }
      }
    }
  }

  lemma {:induction false} WordLenOf(w: string, rest: string)
    requires forall i | 0 <= i < |w| :: !IsSpace(w[i])
    requires rest == "" || IsSpace(rest[0])
    ensures WordLen(w + rest) == |w|
  {
    if w == "" {
      assert w + rest == rest;
    } else {
      assert (w + rest)[1..] == w[1..] + rest;
      WordLenOf(w[1..], rest);
    }
  }

  lemma {:induction false} FieldsAreWords(s: string)
    ensures forall w | w in Fields(s) :: IsWord(w)
    decreases |s|
  {
    if s != "" {
      if IsSpace(s[0]) {
        FieldsAreWords(s[1..]);
      } else {
        WordLenIsWord(s);
        FieldsAreWords(s[WordLen(s)..]);
      }
    }
  }

  lemma FieldsOfWord(w: string, rest: string)
    requires IsWord(w) && (rest == "" || IsSpace(rest[0]))
    ensures Fields(w + rest) == [w] + Fields(rest)
  {
    WordLenOf(w, rest);
    assert (w + rest)[..|w|] == w && (w + rest)[|w|..] == rest;
  }

  /** strings.Join. */
  function Join(parts: seq<string>, sep: string): (r: string) {
    if parts == [] then ""
    else if |parts| == 1 then parts[0]
    else parts[0] + sep + Join(parts[1..], sep)
  }

  lemma {:induction false} FieldsOfJoin(words: seq<string>)
    requires forall w | w in words :: IsWord(w)
    ensures Fields(Join(words, " ")) == words
  {
    if |words| == 1 {
      FieldsOfWord(words[0], "");
      assert words[0] + "" == words[0];
    } else if |words| > 1 {
      var tail := Join(words[1..], " ");
      FieldsOfJoin(words[1..]);
      FieldsOfWord(words[0], " " + tail);
      assert words[0] + " " + tail == words[0] + (" " + tail);
      assert (" " + tail)[1..] == tail;
    }
  }

  lemma {:induction false} JoinIsSolid(words: seq<string>)
    requires words != [] && forall w | w in words :: IsWord(w)
    ensures var s := Join(words, " ");
            words[0] != "" && s != "" && s[0] == words[0][0] && !IsSpace(s[0]) && !IsSpace(s[|s| - 1])
  {
    assert words[0] in words;
    if |words| > 1 {
      JoinIsSolid(words[1..]);
    }
  }

  /** A joined tail may be joined again. */
  lemma {:induction false} JoinNests(head: seq<string>, tail: seq<string>)
    requires tail != []
    ensures Join(head + [Join(tail, " ")], " ") == Join(head + tail, " ")
  {
    if head == [] {
      assert head + tail == tail;
      assert head + [Join(tail, " ")] == [Join(tail, " ")];
    } else {
      JoinNests(head[1..], tail);
      assert (head + tail)[1..] == head[1..] + tail;
      assert (head + [Join(tail, " ")])[1..] == head[1..] + [Join(tail, " ")];
    }
  }

  /** strings.Split(s, "\n"). */
  function Lines(s: string): (r: seq<string>)
    ensures r != []
  {
    if s == "" then [""]
    else
      var rest := Lines(s[1..]);
      if s[0] == '\n' then [""] + rest else [[s[0]] + rest[0]] + rest[1..]
  }

  lemma {:induction false} LinesOfLine(line: string, rest: string)
    requires '\n' !in line
    ensures Lines(line + "\n" + rest) == [line] + Lines(rest)
  {
    if line == "" {
      assert line + "\n" + rest == "\n" + rest && ("\n" + rest)[1..] == rest;
    } else {
      LinesOfLine(line[1..], rest);
      assert (line + "\n" + rest)[1..] == line[1..] + "\n" + rest;
      assert [line[0]] + line[1..] == line;
    }
  }
}
