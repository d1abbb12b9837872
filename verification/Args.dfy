/** Flags anywhere on the line (cmd/sercon/main.go:174-224): reorderArgs in front of
    Go's flag parser, which stops at the first positional argument. */
module Args {
  import opened Prelude

  /** The defined flags: whether each is boolean. */
  type FlagSet = map<string, bool>

  const TERMINATOR := "--"

  function TrimDashes(a: string): (r: string) {
    if a != "" && a[0] == '-' then TrimDashes(a[1..]) else a
  }

  predicate LooksLikeFlag(a: string) { |a| >= 2 && a[0] == '-' }

  /** A flag whose value is the next argument, as reorderArgs decides it. */
  predicate TakesNext(fs: FlagSet, a: string) {
    var name := TrimDashes(a);
    '=' !in name && name in fs && !fs[name]
  }

  datatype Sorted = Sorted(flags: seq<string>, positional: seq<string>)

  function Sort(fs: FlagSet, args: seq<string>): (r: Sorted) {
    if args == [] then Sorted([], [])
    else
      var a := args[0];
      if a == TERMINATOR then Sorted([], args[1..])
      else if !LooksLikeFlag(a) then var r := Sort(fs, args[1..]); r.(positional := [a] + r.positional)
      else if TakesNext(fs, a) && |args| > 1 then var r := Sort(fs, args[2..]); r.(flags := args[..2] + r.flags)
      else var r := Sort(fs, args[1..]); r.(flags := [a] + r.flags)
  }

  function Reorder(fs: FlagSet, args: seq<string>): (r: seq<string>) {
    var s := Sort(fs, args);
    s.flags + s.positional
  }

  /** How many arguments the first one accounts for, and where they go. */
  function Span(fs: FlagSet, args: seq<string>): (n: nat)
    requires args != []
    ensures 1 <= n <= |args| && n <= 2
  {
    if LooksLikeFlag(args[0]) && TakesNext(fs, args[0]) && |args| > 1 then 2 else 1
  }

  lemma SortStep(fs: FlagSet, args: seq<string>)
    requires args != [] && args[0] != TERMINATOR
    ensures var n := Span(fs, args); var rest := Sort(fs, args[n..]);
            Sort(fs, args) == if LooksLikeFlag(args[0]) then Sorted(args[..n] + rest.flags, rest.positional)
                              else Sorted(rest.flags, args[..n] + rest.positional)
  {
    assert args[..1] == [args[0]];
  }

  lemma SortEnd(fs: FlagSet, args: seq<string>)
    ensures Sort(fs, []) == Sorted([], [])
    ensures args != [] && args[0] == TERMINATOR ==> Sort(fs, args) == Sorted([], args[1..])
  {
  }

  lemma Regroup(front: seq<string>, args: seq<string>, n: nat, rest: seq<string>)
    requires 1 <= n <= 2 && n <= |args|
    ensures front + (args[..n] + rest) == (front + args[..n]) + rest
    ensures args[..1] == [args[0]] && (n == 2 ==> front + args[..n] == front + [args[0]] + [args[1]])
  {
  }

  /** reorderArgs, with the source's index loop. */
  method ReorderArgs(fs: FlagSet, args: seq<string>) returns (r: seq<string>)
    ensures r == Reorder(fs, args)
  {
    hide Sort, TrimDashes;
    var flags, positional := [], [];
    var i := 0;
    assert args[0..] == args;
    while i < |args|
      invariant 0 <= i <= |args|
      invariant var rest := Sort(fs, args[i..]);
                Sort(fs, args) == Sorted(flags + rest.flags, positional + rest.positional)
    {
      var a := args[i];
      SortEnd(fs, args[i..]);
      if a == TERMINATOR {
        assert args[i..][1..] == args[i + 1..] && flags + [] == flags;
        positional := positional + args[i + 1..];
        return flags + positional;
      }
      SortStep(fs, args[i..]);
      if |a| < 2 || a[0] != '-' {
        Regroup(positional, args[i..], 1, Sort(fs, args[i + 1..]).positional);
        positional := positional + [a];
        i := i + 1;
        continue;
      }
      flags := flags + [a];
      if TakesNext(fs, a) && i + 1 < |args| {
        Regroup(flags[..|flags| - 1], args[i..], 2, Sort(fs, args[i + 2..]).flags);
        i := i + 1;
        flags := flags + [args[i]];
      } else {
        Regroup(flags[..|flags| - 1], args[i..], 1, Sort(fs, args[i + 1..]).flags);
      }
      i := i + 1;
    }
    SortEnd(fs, args);
    assert args[|args|..] == [] && flags + [] == flags && positional + [] == positional;
    return flags + positional;
  }

  // ------------------------------------------------------------- Go's flag package

  datatype FlagError = BadSyntax(arg: string) | UnknownFlag(name: string) | NeedsArgument(name: string)

  /** Flag settings in order, and the positional arguments left; or the first error. */
  datatype Result = Ok(sets: seq<(string, string)>, positional: seq<string>) | Error(error: FlagError)

  function Put(name: string, value: string, r: Result): (s: Result) {
    if r.Ok? then r.(sets := [(name, value)] + r.sets) else r
  }

  /** One flag argument: set with a value, set by the next argument, or wrong. */
  datatype Flag = Set(name: string, value: string) | Next(name: string) | Wrong(error: FlagError)

  function IndexOf(s: string, c: char): (i: nat)
    ensures i <= |s| && (i < |s| ==> s[i] == c) && c !in s[..i]
  {
    if s == "" || s[0] == c then 0 else 1 + IndexOf(s[1..], c)
  }

  /** FlagSet.parseOne, for an argument that looks like a flag. */
  function ParseFlag(fs: FlagSet, a: string): (r: Flag)
    requires LooksLikeFlag(a)
  {
    var name := if a[1] == '-' then a[2..] else a[1..];
    if name == "" || name[0] == '-' || name[0] == '=' then Wrong(BadSyntax(a))
    else
      var eq := IndexOf(name, '=');
      var flag := name[..eq];
      if flag !in fs then Wrong(UnknownFlag(flag))
      else if eq < |name| then Set(flag, name[eq + 1..])
      else if fs[flag] then Set(flag, "true")
      else Next(flag)
  }

  /** FlagSet.Parse: stops at the first positional argument. */
  function StopParse(fs: FlagSet, args: seq<string>): (r: Result) {
    if args == [] then Ok([], [])
    else
      var a := args[0];
      if !LooksLikeFlag(a) then Ok([], args)
      else if a == TERMINATOR then Ok([], args[1..])
      else
        match ParseFlag(fs, a)
        case Wrong(error) => Error(error)
        case Set(name, value) => Put(name, value, StopParse(fs, args[1..]))
        case Next(name) =>
          if |args| == 1 then Error(NeedsArgument(name)) else Put(name, args[1], StopParse(fs, args[2..]))
  }

  /** The parser users expect: flags wherever they stand. */
  function FreeParse(fs: FlagSet, args: seq<string>): (r: Result) {
    if args == [] then Ok([], [])
    else
      var a := args[0];
      if a == TERMINATOR then Ok([], args[1..])
      else if !LooksLikeFlag(a) then
        var r := FreeParse(fs, args[1..]);
        if r.Ok? then r.(positional := [a] + r.positional) else r
      else
        match ParseFlag(fs, a)
        case Wrong(error) => Error(error)
        case Set(name, value) => Put(name, value, FreeParse(fs, args[1..]))
        case Next(name) =>
          if |args| == 1 then Error(NeedsArgument(name)) else Put(name, args[1], FreeParse(fs, args[2..]))
  }

  /** No `--` where an option or a positional argument is expected. */
  predicate NoTerminator(fs: FlagSet, args: seq<string>) {
    args == [] || (args[0] != TERMINATOR && NoTerminator(fs, args[Span(fs, args)..]))
  }

  predicate PlainArgs(ps: seq<string>) { forall i | 0 <= i < |ps| :: !LooksLikeFlag(ps[i]) }

  lemma {:induction false} TrimPlain(s: string)
    requires s == "" || s[0] != '-'
    ensures TrimDashes(s) == s
  {
  }

  /** The two decisions about the next argument agree wherever the parser does not object. */
  lemma SameDecision(fs: FlagSet, a: string)
    requires LooksLikeFlag(a) && !ParseFlag(fs, a).Wrong?
    ensures TakesNext(fs, a) <==> ParseFlag(fs, a).Next?
  {
    var name := if a[1] == '-' then a[2..] else a[1..];
    assert TrimDashes(a) == name by {
      TrimPlain(name);
      if a[1] == '-' { assert a[1..][1..] == name; assert TrimDashes(a[1..]) == TrimDashes(name); }
    }
    var eq := IndexOf(name, '=');
    assert '=' in name <==> eq < |name| by { if '=' in name { assert name[..|name|] == name; } }
    if eq == |name| { assert name[..eq] == name; }
  }

  /** What sorting leaves out: the terminator, if the scan comes to one. */
  function Dropped(fs: FlagSet, args: seq<string>): (m: multiset<string>) {
    if NoTerminator(fs, args) then multiset{} else multiset{TERMINATOR}
  }

  lemma DroppedStep(fs: FlagSet, args: seq<string>)
    ensures Dropped(fs, args) == if args == [] then multiset{} else if args[0] == TERMINATOR then multiset{TERMINATOR}
                                 else Dropped(fs, args[Span(fs, args)..])
  {
  }

  lemma StepIsPermutation(fs: FlagSet, args: seq<string>, rest: Sorted)
    requires args != []
    ensures var n := Span(fs, args);
            && multiset(args) == multiset(args[..n]) + multiset(args[n..])
            && multiset(args[..n] + rest.flags) == multiset(args[..n]) + multiset(rest.flags)
            && multiset(args[..n] + rest.positional) == multiset(args[..n]) + multiset(rest.positional)
  {
    assert args == args[..Span(fs, args)] + args[Span(fs, args)..];
  }

  lemma {:induction false} SortIsPermutation(fs: FlagSet, args: seq<string>)
    ensures var s := Sort(fs, args); multiset(s.flags) + multiset(s.positional) + Dropped(fs, args) == multiset(args)
    decreases |args|
  {
    hide Sort, TakesNext, NoTerminator, LooksLikeFlag;
    SortEnd(fs, args);
    DroppedStep(fs, args);
    if args != [] && args[0] == TERMINATOR {
      assert args == [TERMINATOR] + args[1..];
    } else if args != [] {
      SortStep(fs, args);
      SortIsPermutation(fs, args[Span(fs, args)..]);
      StepIsPermutation(fs, args, Sort(fs, args[Span(fs, args)..]));
    }
  }

  lemma {:induction false} SortedIsPlain(fs: FlagSet, args: seq<string>)
    requires NoTerminator(fs, args)
    ensures PlainArgs(Sort(fs, args).positional)
    decreases |args|
  {
    hide Sort, TakesNext, LooksLikeFlag;
    SortEnd(fs, args);
    if args != [] {
      SortStep(fs, args);
      SortedIsPlain(fs, args[Span(fs, args)..]);
    }
  }

  /** Reordering keeps exactly the arguments, but for the terminator it comes to. */
  lemma ReorderIsPermutation(fs: FlagSet, args: seq<string>)
    ensures multiset(Reorder(fs, args)) + Dropped(fs, args) == multiset(args)
  {
    hide Dropped;
    SortIsPermutation(fs, args);
  }

  lemma {:induction false} PlainStay(fs: FlagSet, ps: seq<string>)
    requires PlainArgs(ps)
    ensures Sort(fs, ps) == Sorted([], ps) && Reorder(fs, ps) == ps && NoTerminator(fs, ps)
  {
    if ps != [] {
      assert !LooksLikeFlag(ps[0]);
      PlainStay(fs, ps[1..]);
    }
  }

  lemma FlagStays(fs: FlagSet, head: seq<string>, rest: seq<string>)
    requires head != [] && LooksLikeFlag(head[0]) && head[0] != TERMINATOR
    requires Span(fs, head + rest) == |head| && Reorder(fs, rest) == rest && NoTerminator(fs, rest)
    ensures Reorder(fs, head + rest) == head + rest && NoTerminator(fs, head + rest)
  {
    hide Sort, TakesNext, LooksLikeFlag;
    SortStep(fs, head + rest);
    assert (head + rest)[|head|..] == rest && (head + rest)[..|head|] == head;
    var r := Sort(fs, rest);
    assert head + (r.flags + r.positional) == (head + r.flags) + r.positional;
  }

  lemma DanglingStays(fs: FlagSet, args: seq<string>, ps: seq<string>)
    requires |args| == 1 && args[0] != TERMINATOR && LooksLikeFlag(args[0]) && TakesNext(fs, args[0]) && PlainArgs(ps)
    ensures var all := Sort(fs, args).flags + ps; Reorder(fs, all) == all && NoTerminator(fs, all)
  {
    hide Sort, TakesNext;
    SortStep(fs, args);
    SortEnd(fs, args);
    assert args[1..] == [] && args[..1] + [] == [args[0]];
    if ps == [] {
      PlainStay(fs, []);
      assert [args[0]] + [] == [args[0]];
      FlagStays(fs, [args[0]], []);
    } else {
      PlainStay(fs, ps[1..]);
      assert [args[0]] + ps == [args[0], ps[0]] + ps[1..];
      FlagStays(fs, [args[0], ps[0]], ps[1..]);
    }
  }

  lemma FlagsStay(fs: FlagSet, args: seq<string>, ps: seq<string>)
    requires args != [] && args[0] != TERMINATOR && LooksLikeFlag(args[0]) && !(TakesNext(fs, args[0]) && |args| == 1)
    requires var rest := Sort(fs, args[Span(fs, args)..]).flags + ps;
             Reorder(fs, rest) == rest && NoTerminator(fs, rest)
    ensures var all := Sort(fs, args).flags + ps; Reorder(fs, all) == all && NoTerminator(fs, all)
  {
    hide Sort, TakesNext, Reorder, NoTerminator;
    var n := Span(fs, args);
    SortStep(fs, args);
    var rest := Sort(fs, args[n..]).flags + ps;
    assert Sort(fs, args).flags + ps == args[..n] + rest;
    FlagStays(fs, args[..n], rest);
  }

  /** Sorted arguments, behind which more positionals stand, stay as they are. */
  lemma {:induction false} SortedStays(fs: FlagSet, args: seq<string>, ps: seq<string>)
    requires NoTerminator(fs, args) && PlainArgs(ps)
    ensures var all := Sort(fs, args).flags + ps; Reorder(fs, all) == all && NoTerminator(fs, all)
    decreases |args|
  {
    hide Sort, TakesNext;
    SortEnd(fs, args);
    if args == [] {
      PlainStay(fs, ps);
      assert [] + ps == ps;
    } else {
      SortStep(fs, args);
      if !LooksLikeFlag(args[0]) {
        SortedStays(fs, args[1..], ps);
      } else if TakesNext(fs, args[0]) && |args| == 1 {
        DanglingStays(fs, args, ps);
      } else {
        SortedStays(fs, args[Span(fs, args)..], ps);
        FlagsStay(fs, args, ps);
      }
    }
  }

  /** Without a terminator reordering twice is reordering once. */
  lemma ReorderIsIdempotent(fs: FlagSet, args: seq<string>)
    requires NoTerminator(fs, args)
    ensures Reorder(fs, Reorder(fs, args)) == Reorder(fs, args)
  {
    SortedIsPlain(fs, args);
    SortedStays(fs, args, Sort(fs, args).positional);
  }

  /** Flags with their values, then plain arguments: what reordering leaves as it is. */
  predicate InOrder(fs: FlagSet, ps: seq<string>) {
    ps == []
    || (ps[0] != TERMINATOR && if LooksLikeFlag(ps[0]) then InOrder(fs, ps[Span(fs, ps)..]) else PlainArgs(ps))
  }

  lemma {:induction false} SortedLength(fs: FlagSet, args: seq<string>)
    ensures var s := Sort(fs, args); |s.flags| + |s.positional| + (if NoTerminator(fs, args) then 0 else 1) == |args|
    ensures Sort(fs, args).flags != [] ==> LooksLikeFlag(Sort(fs, args).flags[0])
    decreases |args|
  {
    hide Sort, TakesNext, LooksLikeFlag;
    SortEnd(fs, args);
    if args != [] && args[0] != TERMINATOR {
      SortStep(fs, args);
      SortedLength(fs, args[Span(fs, args)..]);
    }
  }

  lemma SameHead<T>(head: seq<T>, a: seq<T>, b: seq<T>)
    ensures head + a == head + b <==> a == b
  {
    if head + a == head + b {
      assert a == (head + a)[|head|..] && b == (head + b)[|head|..];
    }
  }

  /** Behind a plain first argument only plain ones stay where they are. */
  lemma PlainHeadInOrderIff(fs: FlagSet, ps: seq<string>)
    requires ps != [] && ps[0] != TERMINATOR && !LooksLikeFlag(ps[0])
    ensures Reorder(fs, ps) == ps <==> PlainArgs(ps)
  {
    hide Sort, TakesNext, LooksLikeFlag, PlainArgs;
    SortedLength(fs, ps);
    if PlainArgs(ps) {
      PlainStay(fs, ps);
    } else if Reorder(fs, ps) == ps {
      assert Sort(fs, ps).flags == [];
      assert Sort(fs, ps).positional == ps;
      SortedIsPlain(fs, ps);
    }
  }

  lemma {:induction false} InOrderIff(fs: FlagSet, ps: seq<string>)
    ensures Reorder(fs, ps) == ps <==> InOrder(fs, ps)
    decreases |ps|
  {
    hide Sort, TakesNext, LooksLikeFlag;
    SortEnd(fs, ps);
    SortedLength(fs, ps);
    if ps != [] && ps[0] != TERMINATOR {
      SortStep(fs, ps);
      if LooksLikeFlag(ps[0]) {
        var n := Span(fs, ps);
        var rest := Sort(fs, ps[n..]);
        InOrderIff(fs, ps[n..]);
        assert (ps[..n] + rest.flags) + rest.positional == ps[..n] + Reorder(fs, ps[n..]);
        SameHead(ps[..n], Reorder(fs, ps[n..]), ps[n..]);
        assert ps == ps[..n] + ps[n..];
      } else {
        PlainHeadInOrderIff(fs, ps);
      }
    }
  }

  /** A flag with its value sorts to itself, whatever follows. */
  lemma FlagsSortThrough(fs: FlagSet, args: seq<string>, rest: seq<string>)
    requires args != [] && args[0] != TERMINATOR && LooksLikeFlag(args[0]) && !NoTerminator(fs, args)
    ensures var head := args[..Span(fs, args)]; Reorder(fs, head + rest) == head + Reorder(fs, rest)
  {
    hide Sort, TakesNext;
    var n := Span(fs, args);
    var head := args[..n];
    var all := head + rest;
    assert args[n..] != [];
    assert all[0] == args[0] && Span(fs, all) == n && all[..n] == head && all[n..] == rest;
    SortStep(fs, all);
    var r := Sort(fs, rest);
    assert (head + r.flags) + r.positional == head + (r.flags + r.positional);
  }

  /** Where the scan comes to the terminator all flags before it have their values, so
      sorting the sorted line sorts what is behind the flags. */
  lemma {:induction false} SortBehindFlags(fs: FlagSet, args: seq<string>, ps: seq<string>)
    requires !NoTerminator(fs, args)
    ensures Reorder(fs, Sort(fs, args).flags + ps) == Sort(fs, args).flags + Reorder(fs, ps)
    decreases |args|
  {
    hide Sort, TakesNext, LooksLikeFlag;
    SortEnd(fs, args);
    if args[0] == TERMINATOR {
      assert [] + ps == ps && [] + Reorder(fs, ps) == Reorder(fs, ps);
    } else {
      var n := Span(fs, args);
      SortStep(fs, args);
      SortBehindFlags(fs, args[n..], ps);
      if LooksLikeFlag(args[0]) {
        FlagsSortThrough(fs, args, Sort(fs, args[n..]).flags + ps);
        var flags := Sort(fs, args[n..]).flags;
        assert (args[..n] + flags) + ps == args[..n] + (flags + ps);
        assert args[..n] + (flags + Reorder(fs, ps)) == (args[..n] + flags) + Reorder(fs, ps);
      }
    }
  }

  lemma ReorderIsSort(fs: FlagSet, args: seq<string>)
    ensures Reorder(fs, args) == Sort(fs, args).flags + Sort(fs, args).positional
  {
  }

  /** Only plain arguments stand behind the terminator. */
  predicate PlainBehind(fs: FlagSet, args: seq<string>) {
    args == [] || if args[0] == TERMINATOR then PlainArgs(args[1..]) else PlainBehind(fs, args[Span(fs, args)..])
  }

  /** What stands behind the terminator is in order, and plain if anything positional
      stands before it. */
  predicate KeepsOrder(fs: FlagSet, args: seq<string>) {
    args == []
    || (if args[0] == TERMINATOR then InOrder(fs, args[1..])
        else if LooksLikeFlag(args[0]) then KeepsOrder(fs, args[Span(fs, args)..])
        else PlainBehind(fs, args[1..]))
  }

  lemma PlainPrepend(a: string, ps: seq<string>)
    requires !LooksLikeFlag(a)
    ensures PlainArgs([a] + ps) <==> PlainArgs(ps)
  {
    hide LooksLikeFlag;
    if PlainArgs([a] + ps) {
      forall i | 0 <= i < |ps| ensures !LooksLikeFlag(ps[i]) { assert ([a] + ps)[i + 1] == ps[i]; }
    }
  }

  lemma {:induction false} PlainBehindIff(fs: FlagSet, args: seq<string>)
    ensures PlainBehind(fs, args) <==> PlainArgs(Sort(fs, args).positional)
    decreases |args|
  {
    hide Sort, TakesNext, LooksLikeFlag;
    SortEnd(fs, args);
    if args != [] && args[0] != TERMINATOR {
      var n := Span(fs, args);
      SortStep(fs, args);
      PlainBehindIff(fs, args[n..]);
      if !LooksLikeFlag(args[0]) {
        PlainPrepend(args[0], Sort(fs, args[n..]).positional);
        assert args[..1] == [args[0]];
      }
    }
  }

  lemma {:induction false} KeepsOrderIff(fs: FlagSet, args: seq<string>)
    ensures KeepsOrder(fs, args) <==> InOrder(fs, Sort(fs, args).positional)
    decreases |args|
  {
    hide Sort, TakesNext;
    SortEnd(fs, args);
    if args != [] && args[0] != TERMINATOR {
      var n := Span(fs, args);
      SortStep(fs, args);
      if LooksLikeFlag(args[0]) {
        KeepsOrderIff(fs, args[n..]);
      } else {
        PlainBehindIff(fs, args[1..]);
        PlainPrepend(args[0], Sort(fs, args[1..]).positional);
        assert args[..1] == [args[0]];
      }
    }
  }

  /** Reordering twice is reordering once exactly on the lines whose arguments behind the
      terminator, if the scan comes to one, are in order already; and plain, if anything
      positional stands before it. */
  lemma ReorderIsIdempotentIff(fs: FlagSet, args: seq<string>)
    ensures Reorder(fs, Reorder(fs, args)) == Reorder(fs, args) <==> KeepsOrder(fs, args)
  {
    hide Sort, NoTerminator, Reorder, PlainArgs;
    var s := Sort(fs, args);
    KeepsOrderIff(fs, args);
    if NoTerminator(fs, args) {
      ReorderIsIdempotent(fs, args);
      SortedIsPlain(fs, args);
      PlainStay(fs, s.positional);
      InOrderIff(fs, s.positional);
    } else {
      ReorderIsSort(fs, args);
      SortBehindFlags(fs, args, s.positional);
      SameHead(s.flags, Reorder(fs, s.positional), s.positional);
      InOrderIff(fs, s.positional);
    }
  }

  /** `sercon attach -- x -v`: once reordered, `-v` is behind no terminator any more. */
  lemma ReorderingTwiceDiffers()
    ensures var fs := map["v" := true];
            && Reorder(fs, ["--", "x", "-v"]) == ["x", "-v"]
            && Reorder(fs, ["x", "-v"]) == ["-v", "x"]
  {
    var fs: FlagSet := map["v" := true];
    assert ["--", "x", "-v"][1..] == ["x", "-v"] && ["x", "-v"][1..] == ["-v"] && ["-v"][1..] == [];
    assert Sort(fs, ["-v"]) == Sorted(["-v"], []);
    assert Sort(fs, ["x", "-v"]) == Sorted(["-v"], ["x"]);
  }

  /** The scan comes, past no wrong flag, to a last argument that is a defined flag with
      a value but has none: where the guard i + 1 < len(args) fails. */
  predicate EndsDangling(fs: FlagSet, args: seq<string>) {
    && args != [] && args[0] != TERMINATOR
    && if !LooksLikeFlag(args[0]) then EndsDangling(fs, args[1..])
       else !ParseFlag(fs, args[0]).Wrong?
            && ((TakesNext(fs, args[0]) && |args| == 1) || EndsDangling(fs, args[Span(fs, args)..]))
  }

  /** Some argument stands where a positional one is expected, or behind the terminator. */
  predicate HasPositional(fs: FlagSet, args: seq<string>) {
    args != [] && if args[0] == TERMINATOR then |args| > 1
                  else !LooksLikeFlag(args[0]) || HasPositional(fs, args[Span(fs, args)..])
  }

  /** The scan comes, past flags only and no wrong one, to a terminator with something
      that looks like a flag right behind it. */
  predicate ExposesFlag(fs: FlagSet, args: seq<string>) {
    args != [] && if args[0] == TERMINATOR then |args| > 1 && LooksLikeFlag(args[1])
                  else LooksLikeFlag(args[0]) && !ParseFlag(fs, args[0]).Wrong?
                       && ExposesFlag(fs, args[Span(fs, args)..])
  }

  lemma {:induction false} HasPositionalIff(fs: FlagSet, args: seq<string>)
    ensures HasPositional(fs, args) <==> Sort(fs, args).positional != []
    decreases |args|
  {
    hide Sort, TakesNext;
    SortEnd(fs, args);
    if args != [] && args[0] != TERMINATOR {
      SortStep(fs, args);
      HasPositionalIff(fs, args[Span(fs, args)..]);
    }
  }

  lemma WrongIsNotMissing(fs: FlagSet, a: string)
    requires LooksLikeFlag(a) && ParseFlag(fs, a).Wrong?
    ensures !ParseFlag(fs, a).error.NeedsArgument?
  {
  }

  /** Both parsers take a good flag the same way. */
  lemma FlagStep(fs: FlagSet, args: seq<string>, n: nat, value: string)
    requires 1 <= n <= 2 && n <= |args| && args[0] != TERMINATOR && LooksLikeFlag(args[0])
    requires if n == 2 then ParseFlag(fs, args[0]).Next? && value == args[1]
             else ParseFlag(fs, args[0]).Set? && value == ParseFlag(fs, args[0]).value
    ensures StopParse(fs, args) == Put(ParseFlag(fs, args[0]).name, value, StopParse(fs, args[n..]))
    ensures FreeParse(fs, args) == Put(ParseFlag(fs, args[0]).name, value, FreeParse(fs, args[n..]))
  {
    hide ParseFlag, Put;
  }

  /** On such a line the free parser lacks an argument, and no terminator was met. */
  lemma {:induction false} EndsDanglingIff(fs: FlagSet, args: seq<string>)
    ensures EndsDangling(fs, args) <==> FreeParse(fs, args).Error? && FreeParse(fs, args).error.NeedsArgument?
    ensures EndsDangling(fs, args) ==> NoTerminator(fs, args)
    decreases |args|
  {
    hide TakesNext, ParseFlag, TrimDashes;
    if args != [] && args[0] != TERMINATOR {
      var n := Span(fs, args);
      if !LooksLikeFlag(args[0]) {
        EndsDanglingIff(fs, args[1..]);
      } else if ParseFlag(fs, args[0]).Wrong? {
        WrongIsNotMissing(fs, args[0]);
      } else {
        SameDecision(fs, args[0]);
        EndsDanglingIff(fs, args[n..]);
        if !(ParseFlag(fs, args[0]).Next? && |args| == 1) {
          FlagStep(fs, args, n, if n == 2 then args[1] else ParseFlag(fs, args[0]).value);
        }
        assert args[|args|..] == [];
      }
    }
  }

  /** And on such a line it succeeds, with something like a flag as its first positional. */
  lemma {:induction false} ExposesFlagIff(fs: FlagSet, args: seq<string>)
    ensures var ps := Sort(fs, args).positional;
            ExposesFlag(fs, args) <==> FreeParse(fs, args).Ok? && ps != [] && LooksLikeFlag(ps[0])
    decreases |args|
  {
    hide Sort, TakesNext, ParseFlag;
    SortEnd(fs, args);
    if args != [] && args[0] != TERMINATOR {
      var n := Span(fs, args);
      SortStep(fs, args);
      if LooksLikeFlag(args[0]) && !ParseFlag(fs, args[0]).Wrong? {
        SameDecision(fs, args[0]);
        ExposesFlagIff(fs, args[n..]);
        if ParseFlag(fs, args[0]).Next? && |args| == 1 {
          assert args[n..] == [];
        } else {
          FlagStep(fs, args, n, if n == 2 then args[1] else ParseFlag(fs, args[0]).value);
        }
      }
    }
  }

  /** Settings, then what is made of the rest. */
  function Prepend(sets: seq<(string, string)>, r: Result): (s: Result) {
    if r.Ok? then r.(sets := sets + r.sets) else r
  }

  /** What the stop-early parser makes of sorted flags with ps behind them, if it makes
      `tail` of ps alone and the free parser made `free` of the unsorted arguments. */
  predicate Agrees(free: Result, stop: Result, own: seq<string>, ps: seq<string>, tail: Result) {
    match free
    case Ok(sets, positional) => stop == Prepend(sets, tail) && positional == own
    case Error(NeedsArgument(_)) => if ps == [] then stop == free else stop.Ok?
    case Error(_) => stop == free
  }

  lemma NothingAgrees(fs: FlagSet, args: seq<string>, ps: seq<string>)
    requires args == [] || args[0] == TERMINATOR
    ensures Agrees(FreeParse(fs, args), StopParse(fs, ps), if args == [] then [] else args[1..], ps, StopParse(fs, ps))
  {
    hide StopParse;
    var tail := StopParse(fs, ps);
    assert tail.Ok? ==> [] + tail.sets == tail.sets;
  }

  lemma PositionalAgrees(fs: FlagSet, args: seq<string>, ps: seq<string>)
    requires args != [] && args[0] != TERMINATOR && !LooksLikeFlag(args[0])
    requires var s := Sort(fs, args[1..]);
             Agrees(FreeParse(fs, args[1..]), StopParse(fs, s.flags + ps), s.positional, ps, StopParse(fs, ps))
    ensures var s := Sort(fs, args);
            Agrees(FreeParse(fs, args), StopParse(fs, s.flags + ps), s.positional, ps, StopParse(fs, ps))
  {
    hide Sort, TakesNext, ParseFlag, StopParse;
    SortStep(fs, args);
    assert args[..1] == [args[0]];
  }

  /** Both parsers stop at a wrong flag. */
  lemma WrongFlagAgrees(fs: FlagSet, args: seq<string>, ps: seq<string>)
    requires args != [] && args[0] != TERMINATOR && LooksLikeFlag(args[0]) && ParseFlag(fs, args[0]).Wrong?
    ensures var s := Sort(fs, args);
            Agrees(FreeParse(fs, args), StopParse(fs, s.flags + ps), s.positional, ps, StopParse(fs, ps))
  {
    hide Sort, TakesNext, ParseFlag, LooksLikeFlag;
    SortStep(fs, args);
    assert (Sort(fs, args).flags + ps)[0] == args[0];
    WrongIsNotMissing(fs, args[0]);
  }

  lemma StopAtPlain(fs: FlagSet, ps: seq<string>)
    requires PlainArgs(ps)
    ensures StopParse(fs, ps) == Ok([], ps)
  {
  }

  lemma DanglingFlag(fs: FlagSet, a: string, ps: seq<string>)
    requires LooksLikeFlag(a) && a != TERMINATOR && ParseFlag(fs, a).Next? && PlainArgs(ps)
    ensures StopParse(fs, [a] + ps) ==
            if ps == [] then Error(NeedsArgument(ParseFlag(fs, a).name))
            else Ok([(ParseFlag(fs, a).name, ps[0])], ps[1..])
  {
    if ps != [] {
      assert ([a] + ps)[2..] == ps[1..];
      StopAtPlain(fs, ps[1..]);
    }
  }

  /** At a last flag without its value, the stop-early parser takes a positional for it. */
  lemma DanglingFlagAgrees(fs: FlagSet, args: seq<string>, ps: seq<string>)
    requires |args| == 1 && args[0] != TERMINATOR && LooksLikeFlag(args[0]) && PlainArgs(ps)
    requires ParseFlag(fs, args[0]).Next?
    ensures var s := Sort(fs, args);
            Agrees(FreeParse(fs, args), StopParse(fs, s.flags + ps), s.positional, ps, StopParse(fs, ps))
  {
    hide Sort, TakesNext, ParseFlag, LooksLikeFlag;
    SortStep(fs, args);
    SortEnd(fs, args[1..]);
    assert args[1..] == [] && Sort(fs, args).flags + ps == [args[0]] + ps;
    DanglingFlag(fs, args[0], ps);
  }

  lemma PutAgrees(name: string, value: string, free: Result, stop: Result, own: seq<string>, ps: seq<string>,
                  tail: Result)
    requires Agrees(free, stop, own, ps, tail)
    ensures Agrees(Put(name, value, free), Put(name, value, stop), own, ps, tail)
  {
    if free.Ok? && tail.Ok? {
      assert [(name, value)] + (free.sets + tail.sets) == ([(name, value)] + free.sets) + tail.sets;
    }
  }

  lemma GoodFlagAgrees(fs: FlagSet, args: seq<string>, ps: seq<string>)
    requires args != [] && args[0] != TERMINATOR && LooksLikeFlag(args[0])
    requires !ParseFlag(fs, args[0]).Wrong? && !(ParseFlag(fs, args[0]).Next? && |args| == 1)
    requires var rest := args[Span(fs, args)..]; var s := Sort(fs, rest);
             Agrees(FreeParse(fs, rest), StopParse(fs, s.flags + ps), s.positional, ps, StopParse(fs, ps))
    ensures var s := Sort(fs, args);
            Agrees(FreeParse(fs, args), StopParse(fs, s.flags + ps), s.positional, ps, StopParse(fs, ps))
  {
    hide Sort, TakesNext, ParseFlag, StopParse, FreeParse, Agrees, Put, LooksLikeFlag;
    var n := Span(fs, args);
    SortStep(fs, args);
    SameDecision(fs, args[0]);
    var sorted := Sort(fs, args[n..]);
    var rest, all := sorted.flags + ps, Sort(fs, args).flags + ps;
    assert all == args[..n] + rest && all[n..] == rest && all[0] == args[0] && (n == 2 ==> all[1] == args[1]);
    var value := if n == 2 then args[1] else ParseFlag(fs, args[0]).value;
    FlagStep(fs, args, n, value);
    FlagStep(fs, all, n, value);
    PutAgrees(ParseFlag(fs, args[0]).name, value, FreeParse(fs, args[n..]), StopParse(fs, rest), sorted.positional, ps,
              StopParse(fs, ps));
  }

  lemma {:induction false} StopAfterSort(fs: FlagSet, args: seq<string>, ps: seq<string>)
    requires EndsDangling(fs, args) ==> PlainArgs(ps)
    ensures var s := Sort(fs, args);
            Agrees(FreeParse(fs, args), StopParse(fs, s.flags + ps), s.positional, ps, StopParse(fs, ps))
    decreases |args|
  {
    hide Sort, TakesNext, ParseFlag, LooksLikeFlag, StopParse, Agrees;
    SortEnd(fs, args);
    if args == [] || args[0] == TERMINATOR {
      assert [] + ps == ps;
      NothingAgrees(fs, args, ps);
    } else {
      if !LooksLikeFlag(args[0]) {
        StopAfterSort(fs, args[1..], ps);
        PositionalAgrees(fs, args, ps);
      } else if ParseFlag(fs, args[0]).Wrong? {
        WrongFlagAgrees(fs, args, ps);
      } else {
        SameDecision(fs, args[0]);
        if ParseFlag(fs, args[0]).Next? && |args| == 1 {
          DanglingFlagAgrees(fs, args, ps);
        } else {
          StopAfterSort(fs, args[Span(fs, args)..], ps);
          GoodFlagAgrees(fs, args, ps);
        }
      }
    }
  }

  /** Stopping at once means leaving all there is: nothing, or a first positional. */
  lemma StopsAtOnceIff(fs: FlagSet, ps: seq<string>)
    ensures StopParse(fs, ps) == Ok([], ps) <==> ps == [] || !LooksLikeFlag(ps[0])
  {
    hide ParseFlag;
  }

  lemma PrependCancels(sets: seq<(string, string)>, tail: Result, ps: seq<string>)
    ensures Prepend(sets, tail) == Ok(sets, ps) <==> tail == Ok([], ps)
  {
    if Prepend(sets, tail) == Ok(sets, ps) {
      assert |sets + tail.sets| == |sets| && tail.sets == [];
    }
    assert sets + [] == sets;
  }

  /** Reordering first makes Go's parser read the line as one that takes flags anywhere:
      same settings in the same order, same positionals, same error. It does so except
      for two kinds of lines: those that end in a flag without its value and have a
      positional to lose to it, and those where the terminator, which reordering drops,
      was all that stood between the flags and something that looks like one. */
  lemma ReorderRefinesFreeParse(fs: FlagSet, args: seq<string>)
    ensures StopParse(fs, Reorder(fs, args)) == FreeParse(fs, args)
            <==> !(EndsDangling(fs, args) && HasPositional(fs, args)) && !ExposesFlag(fs, args)
  {
    hide Sort, StopParse, FreeParse, LooksLikeFlag, PlainArgs, EndsDangling, HasPositional, ExposesFlag, NoTerminator;
    hide Prepend;
    var ps := Sort(fs, args).positional;
    if NoTerminator(fs, args) { SortedIsPlain(fs, args); }
    HasPositionalIff(fs, args);
    EndsDanglingIff(fs, args);
    ExposesFlagIff(fs, args);
    StopAfterSort(fs, args, ps);
    StopsAtOnceIff(fs, ps);
    if FreeParse(fs, args).Ok? { PrependCancels(FreeParse(fs, args).sets, StopParse(fs, ps), ps); }
  }

  lemma ParseBaud(fs: FlagSet)
    requires fs == map["baud" := false]
    ensures LooksLikeFlag("--baud") && ParseFlag(fs, "--baud") == Next("baud")
    ensures TakesNext(fs, "--baud")
  {
    var a := "--baud";
    assert a[2..] == "baud" && IndexOf("d", '=') == 1 && "d"[1..] == "";
    assert "ud"[1..] == "d" && "aud"[1..] == "ud" && "baud"[1..] == "aud";
    assert IndexOf("ud", '=') == 2 && IndexOf("aud", '=') == 3 && IndexOf("baud", '=') == 4;
    assert ParseFlag(fs, a) == Next("baud") by { assert "baud"[..4] == "baud"; }
    SameDecision(fs, a);
  }

  /** `sercon attach COM1 --baud`: the port name becomes the line rate. */
  lemma PortBecomesBaud()
    ensures var fs := map["baud" := false];
            && FreeParse(fs, ["COM1", "--baud"]) == Error(NeedsArgument("baud"))
            && StopParse(fs, Reorder(fs, ["COM1", "--baud"])) == Ok([("baud", "COM1")], [])
  {
    hide ParseFlag, TakesNext;
    var fs: FlagSet := map["baud" := false];
    var a := "--baud";
    ParseBaud(fs);
    assert ["COM1", a][1..] == [a] && [a][1..] == [];
    assert Sort(fs, [a]) == Sorted([a], []);
    assert Sort(fs, ["COM1", a]) == Sorted([a], ["COM1"]);
    assert [a] + ["COM1"] == [a, "COM1"] && [a, "COM1"][2..] == [];
  }

  /** `sercon attach -- -v`: what was to be a positional argument becomes a flag. */
  lemma PositionalBecomesFlag()
    ensures var fs := map["v" := true];
            && FreeParse(fs, ["--", "-v"]) == Ok([], ["-v"])
            && StopParse(fs, Reorder(fs, ["--", "-v"])) == Ok([("v", "true")], [])
  {
    var fs: FlagSet := map["v" := true];
    assert ["--", "-v"][1..] == ["-v"] && [] + ["-v"] == ["-v"] && ["-v"][1..] == [];
    assert "-v"[1..] == "v" && "v"[1..] == "" && IndexOf("v", '=') == 1 && "v"[..1] == "v";
    assert ParseFlag(fs, "-v") == Set("v", "true");
    assert [("v", "true")] + [] == [("v", "true")];
  }
}
