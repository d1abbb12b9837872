/** Shell quoting of the remote command (cmd/sercon/main.go:259-311), against a lexer
    for the words of the POSIX shell command language. */
module Quote {
  import opened Prelude
  import opened Text

  predicate IsSafe(c: char) {
    'a' <= c <= 'z' || 'A' <= c <= 'Z' || '0' <= c <= '9' || c in "/._-@:,+="
  }

  predicate AllSafe(s: string) { s == "" || (IsSafe(s[0]) && AllSafe(s[1..])) }

  /** strings.ReplaceAll(s, "'", `'\''`). */
  function Escaped(s: string): (r: string) {
    if s == "" then "" else (if s[0] == '\'' then "'\\''" else [s[0]]) + Escaped(s[1..])
  }

  function QuoteToken(s: string): (r: string) {
    if s == "" then "''" else if AllSafe(s) then s else "'" + Escaped(s) + "'"
  }

  /** quoteToken with the source's loop over the characters. */
  method QuoteTokenByLoop(s: string) returns (r: string)
    ensures r == QuoteToken(s)
  {
    if s == "" { return "''"; }
    for i := 0 to |s|
      invariant AllSafe(s) == AllSafe(s[i..])
    {
      if !IsSafe(s[i]) { return "'" + Escaped(s) + "'"; }
      assert s[i..][1..] == s[i + 1..];
    }
    return s;
  }

  predicate HasTilde(s: string) { s == "~" || "~/" <= s }

  function ShellQuote(s: string): (r: string) {
    if s == "~" then "~" else if "~/" <= s then "~/" + QuoteToken(s[2..]) else QuoteToken(s)
  }

  function QuoteAll(args: seq<string>): (r: seq<string>)
    ensures |r| == |args|
  {
    seq(|args|, i requires 0 <= i < |args| => ShellQuote(args[i]))
  }

  /** remoteCommand (main.go:264-273), with its loop over the extra arguments. */
  method RemoteCommand(bin: string, sock: string, sub: string, extra: seq<string>) returns (r: string)
    ensures r == Join(QuoteAll([bin, sub] + (if sock != "" then ["--socket", sock] else []) + extra), " ")
  {
    hide ShellQuote, Join;
    var parts := [ShellQuote(bin), ShellQuote(sub)];
    if sock != "" { parts := parts + [ShellQuote("--socket"), ShellQuote(sock)]; }
    ghost var fixed := parts;
    for i := 0 to |extra|
      invariant parts == fixed + QuoteAll(extra[..i])
    {
      assert QuoteAll(extra[..i + 1]) == QuoteAll(extra[..i]) + [ShellQuote(extra[i])];
      parts := parts + [ShellQuote(extra[i])];
    }
    assert extra[..|extra|] == extra;
    assert fixed == QuoteAll([bin, sub] + if sock != "" then ["--socket", sock] else []);
    var front := [bin, sub] + if sock != "" then ["--socket", sock] else [];
    assert QuoteAll(front + extra) == fixed + QuoteAll(extra);
    r := Join(parts, " ");
  }

  // ------------------------------------------------------------------ what is quoted

  const LOWER := "abcdefghijklmnopqrstuvwxyz"
  const UPPER := "ABCDEFGHIJKLMNOPQRSTUVWXYZ"
  const DIGITS := "0123456789"

  predicate Harmless(c: char) { c in LOWER || c in UPPER || c in DIGITS || c in "/._-@:,+=" }

  lemma LowerCase(c: char)
    ensures 'a' <= c <= 'z' <==> c in LOWER
  {
    if 'a' <= c <= 'z' { assert LOWER[c as int - 'a' as int] == c; }
  }

  lemma UpperCase(c: char)
    ensures 'A' <= c <= 'Z' <==> c in UPPER
  {
    if 'A' <= c <= 'Z' { assert UPPER[c as int - 'A' as int] == c; }
  }

  lemma Digits(c: char)
    ensures '0' <= c <= '9' <==> c in DIGITS
  {
    if '0' <= c <= '9' { assert DIGITS[c as int - '0' as int] == c; }
  }

  lemma SafeIsHarmless(c: char)
    ensures IsSafe(c) <==> Harmless(c)
  {
    LowerCase(c);
    UpperCase(c);
    Digits(c);
  }

  lemma {:induction false} AllSafeIff(s: string)
    ensures AllSafe(s) <==> forall c | c in s :: Harmless(c)
  {
    hide IsSafe, Harmless;
    if s != "" {
      SafeIsHarmless(s[0]);
      AllSafeIff(s[1..]);
      assert s == [s[0]] + s[1..];
    }
  }

  lemma {:induction false} EscapedIsNoShorter(s: string)
    ensures |Escaped(s)| >= |s|
  {
    if s != "" { EscapedIsNoShorter(s[1..]); }
  }

  /** An argument is left as it is exactly if it is `~`, or not empty, a leading `~/` aside,
      and made of letters, digits and these signs only. */
  lemma LeftAloneIff(s: string)
    ensures ShellQuote(s) == s <==>
            var token := if "~/" <= s then s[2..] else s;
            s == "~" || (token != "" && forall c | c in token :: Harmless(c))
  {
    hide Harmless;
    var token := if "~/" <= s then s[2..] else s;
    AllSafeIff(token);
    EscapedIsNoShorter(token);
    if "~/" <= s { assert s == "~/" + token; }
    if token != "" && !AllSafe(token) { assert |QuoteToken(token)| > |token|; }
  }

  // ------------------------------------------------------------------ the shell side

  /** A word after quote removal, and whether it began with an unquoted tilde prefix
      that is just `~`. */
  datatype Word = Word(text: string, tilde: bool)

  /** Between words, in a word outside quotes, or inside single quotes. */
  datatype Mode = Between | Plain(w: Word) | Single(w: Word)

  /** Characters that outside quotes are operators, expansions, patterns or other quoting. */
  predicate Special(c: char) { c in "|&;<>()$`\"*?[\n" }

  predicate IsBlank(c: char) { c == ' ' || c == '\t' }

  function Emit(w: Word, rest: Option<seq<Word>>): (r: Option<seq<Word>>) {
    match rest case None => None case Some(ws) => Some([w] + ws)
  }

  /** The words of a command (sections 2.2.1, 2.2.2, 2.6.1 and 2.6.7 of the POSIX Shell
      Command Language); None where more than word splitting would happen. */
  function Lex(s: string, mode: Mode): (r: Option<seq<Word>>)
    decreases |s|, if mode.Between? then 1 else 0
  {
    match mode
    case Between =>
      if s == "" then Some([])
      else if IsBlank(s[0]) then Lex(s[1..], Between)
      else if s[0] == '#' then None
      else if s[0] == '~' then
        if |s| == 1 || IsBlank(s[1]) || s[1] == '/' then Lex(s[1..], Plain(Word("~", true))) else None
      else Lex(s, Plain(Word("", false)))
    case Plain(w) =>
      if s == "" then Some([w])
      else if IsBlank(s[0]) then Emit(w, Lex(s[1..], Between))
      else if s[0] == '\'' then Lex(s[1..], Single(w))
      else if s[0] == '\\' then
        if |s| == 1 || s[1] == '\n' then None else Lex(s[2..], Plain(w.(text := w.text + [s[1]])))
      else if Special(s[0]) then None
      else Lex(s[1..], Plain(w.(text := w.text + [s[0]])))
    case Single(w) =>
      if s == "" then None
      else if s[0] == '\'' then Lex(s[1..], Plain(w))
      else Lex(s[1..], Single(w.(text := w.text + [s[0]])))
  }

  // Each rule of the lexer, on its own.

  lemma LexEnd(w: Word)
    ensures Lex("", Plain(w)) == Some([w]) && Lex("", Between) == Some([])
  {
  }

  lemma SlashIsSafe()
    ensures IsSafe('/')
  {
  }

  /** No safe character means anything to the shell. */
  lemma SafeIsOrdinary(c: char)
    requires IsSafe(c)
    ensures !IsBlank(c) && c != '\'' && c != '\\' && !Special(c)
  {
  }

  lemma LexLetter(c: char, rest: string, w: Word)
    requires IsSafe(c)
    ensures Lex([c] + rest, Plain(w)) == Lex(rest, Plain(w.(text := w.text + [c])))
  {
    hide IsSafe, Special, IsBlank, Emit;
    SafeIsOrdinary(c);
    assert ([c] + rest)[1..] == rest;
  }

  lemma LexSpace(rest: string, w: Word)
    ensures Lex(" " + rest, Plain(w)) == Emit(w, Lex(rest, Between))
  {
    assert (" " + rest)[1..] == rest;
  }

  lemma LexOpen(rest: string, w: Word)
    ensures Lex("'" + rest, Plain(w)) == Lex(rest, Single(w)) && Lex("'" + rest, Single(w)) == Lex(rest, Plain(w))
  {
    assert ("'" + rest)[1..] == rest;
  }

  lemma LexQuoted(c: char, rest: string, w: Word)
    requires c != '\''
    ensures Lex([c] + rest, Single(w)) == Lex(rest, Single(w.(text := w.text + [c])))
  {
    assert ([c] + rest)[1..] == rest;
  }

  lemma LexEscape(rest: string, w: Word)
    ensures Lex("\\'" + rest, Plain(w)) == Lex(rest, Plain(w.(text := w.text + ['\''])))
  {
    assert ("\\'" + rest)[2..] == rest;
  }

  lemma LexStart(s: string)
    requires s != "" && (IsSafe(s[0]) || s[0] == '\'')
    ensures Lex(s, Between) == Lex(s, Plain(Word("", false)))
  {
  }

  lemma LexTilde(rest: string)
    requires rest == "" || rest[0] == ' ' || rest[0] == '/'
    ensures Lex("~" + rest, Between) == Lex(rest, Plain(Word("~", true)))
  {
    assert ("~" + rest)[1..] == rest;
  }

  lemma {:induction false} SafeIsLiteral(s: string, rest: string, w: Word)
    requires AllSafe(s)
    ensures Lex(s + rest, Plain(w)) == Lex(rest, Plain(w.(text := w.text + s)))
  {
    hide Lex;
    if s == "" {
      assert s + rest == rest && w.text + s == w.text;
    } else {
      LexLetter(s[0], s[1..] + rest, w);
      SafeIsLiteral(s[1..], rest, w.(text := w.text + [s[0]]));
      assert s + rest == [s[0]] + (s[1..] + rest) && (w.text + [s[0]]) + s[1..] == w.text + s;
    }
  }

  /** Leaving the quotes, an escaped quote, and back in: one quote character. */
  lemma QuoteInQuotes(tail: string, w: Word)
    ensures Lex("'\\''" + tail, Single(w)) == Lex(tail, Single(w.(text := w.text + ['\''])))
  {
    hide Lex;
    assert "'\\''" + tail == "'" + ("\\'" + ("'" + tail));
    LexOpen("\\'" + ("'" + tail), w);
    LexEscape("'" + tail, w);
    LexOpen(tail, w.(text := w.text + ['\'']));
  }

  lemma {:induction false} EscapedIsLiteral(s: string, rest: string, w: Word)
    ensures Lex(Escaped(s) + "'" + rest, Single(w)) == Lex(rest, Plain(w.(text := w.text + s)))
  {
    hide Lex;
    if s == "" {
      LexOpen(rest, w);
      assert Escaped(s) + "'" + rest == "'" + rest && w.text + s == w.text;
    } else {
      var tail := Escaped(s[1..]) + "'" + rest;
      EscapedIsLiteral(s[1..], rest, w.(text := w.text + [s[0]]));
      assert w.text + [s[0]] + s[1..] == w.text + s;
      if s[0] == '\'' {
        assert Escaped(s) + "'" + rest == "'\\''" + tail;
        QuoteInQuotes(tail, w);
      } else {
        assert Escaped(s) + "'" + rest == [s[0]] + tail;
        LexQuoted(s[0], tail, w);
      }
    }
  }

  lemma TokenIsLiteral(s: string, rest: string, w: Word)
    ensures Lex(QuoteToken(s) + rest, Plain(w)) == Lex(rest, Plain(w.(text := w.text + s)))
  {
    hide Lex, Escaped;
    if s == "" {
      assert "''" + rest == "'" + ("'" + rest) && w.text + s == w.text;
      LexOpen("'" + rest, w);
      LexOpen(rest, w);
    } else if AllSafe(s) {
      SafeIsLiteral(s, rest, w);
    } else {
      assert QuoteToken(s) + rest == "'" + (Escaped(s) + "'" + rest);
      LexOpen(Escaped(s) + "'" + rest, w);
      EscapedIsLiteral(s, rest, w);
    }
  }

  lemma TokenStart(s: string)
    ensures QuoteToken(s) != "" && (IsSafe(QuoteToken(s)[0]) || QuoteToken(s)[0] == '\'')
  {
  }

  /** A quoted argument at the beginning of a word reads as that argument. */
  lemma QuotedIsOneWord(s: string, rest: string)
    requires rest == "" || rest[0] == ' '
    ensures Lex(ShellQuote(s) + rest, Between) == Lex(rest, Plain(Word(s, HasTilde(s))))
  {
    hide Lex, QuoteToken, IsSafe;
    if s == "~" {
      LexTilde(rest);
    } else if "~/" <= s {
      var quoted := QuoteToken(s[2..]) + rest;
      assert ShellQuote(s) + rest == "~" + (['/'] + quoted);
      LexTilde(['/'] + quoted);
      SlashIsSafe();
      LexLetter('/', quoted, Word("~", true));
      TokenIsLiteral(s[2..], rest, Word("~" + ['/'], true));
      assert s == ("~" + ['/']) + s[2..];
    } else {
      TokenStart(s);
      LexStart(QuoteToken(s) + rest);
      TokenIsLiteral(s, rest, Word("", false));
      assert "" + s == s;
    }
  }

  function WordsOf(args: seq<string>): (r: seq<Word>)
    ensures |r| == |args|
  {
    seq(|args|, i requires 0 <= i < |args| => Word(args[i], HasTilde(args[i])))
  }

  /** Whatever the arguments contain, the shell's words are those arguments, in order,
      and a tilde prefix stays open exactly for `~` and `~/...`. */
  lemma {:induction false} ShellReadsArgumentsBack(args: seq<string>)
    ensures Lex(Join(QuoteAll(args), " "), Between) == Some(WordsOf(args))
  {
    hide Lex, ShellQuote, HasTilde;
    LexEnd(Word("", false));
    if args != [] {
      var quoted := QuoteAll(args);
      var w := Word(args[0], HasTilde(args[0]));
      assert quoted[1..] == QuoteAll(args[1..]);
      assert WordsOf(args) == [w] + WordsOf(args[1..]);
      if |args| == 1 {
        QuotedIsOneWord(args[0], "");
        LexEnd(w);
        assert Join(quoted, " ") == ShellQuote(args[0]) + "" && WordsOf(args) == [w];
      } else {
        var tail := Join(QuoteAll(args[1..]), " ");
        ShellReadsArgumentsBack(args[1..]);
        QuotedIsOneWord(args[0], " " + tail);
        LexSpace(tail, w);
        assert Join(quoted, " ") == ShellQuote(args[0]) + (" " + tail);
      }
    }
  }
}
