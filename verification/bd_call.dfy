/** A bd command line taken apart: its global flags, its subcommand, and the arguments of that. */
module BdCalls {
  datatype Kind = Never | Again | Close | Comment

  /** `found` tells a subcommand that is the empty word from none at all. */
  datatype Call = Call(globals: seq<string>, found: bool, sub: string, rest: seq<string>)

  const VALUE_FLAGS: set<string> :=
    {"-C", "--directory", "--actor", "--db", "--dolt-auto-commit", "-r", "--reason", "--reason-file", "--session",
     "-f", "--file", "-m", "--message"}

  const READS_AND_REPEATS: set<string> :=
    {"show", "list", "ready", "blocked", "state", "update", "reopen", "kv", "children", "search", "count"}

  predicate IsFlag(arg: string) {
    arg != [] && arg[0] == '-'
  }

  /** Flags, each that takes a value followed by it; the last may lack its value only when nothing follows. */
  predicate Flags(args: seq<string>, more: bool) {
    if args == [] then true
    else
      && IsFlag(args[0])
      && if args[0] in VALUE_FLAGS then (|args| == 1 && !more) || (|args| > 1 && Flags(args[2..], more))
         else Flags(args[1..], more)
  }

  lemma {:induction false} FlagsConcat(a: seq<string>, b: seq<string>, more: bool)
    requires Flags(a, true) && Flags(b, more)
    ensures Flags(a + b, more)
  {
    if a == [] {
      assert a + b == b;
    } else if a[0] in VALUE_FLAGS {
      FlagsConcat(a[2..], b, more);
      assert (a + b)[2..] == a[2..] + b;
    } else {
      FlagsConcat(a[1..], b, more);
      assert (a + b)[1..] == a[1..] + b;
    }
  }

  /** The whole of a command line, put back together. */
  function ArgsOf(call: Call): seq<string> {
    call.globals + if call.found then [call.sub] + call.rest else []
  }

  predicate WellTaken(call: Call) {
    && Flags(call.globals, call.found)
    && (if call.found then !IsFlag(call.sub) else call.sub == "" && call.rest == [])
  }

  method ParseBdCall(args: seq<string>) returns (call: Call)
    ensures ArgsOf(call) == args && WellTaken(call)
  {
    var globals: seq<string> := [];
    var i := 0;
    while i < |args|
      invariant 0 <= i <= |args| && globals == args[..i]
      invariant Flags(globals, true) || (i == |args| && Flags(globals, false))
    {
      var arg := args[i];
      if !IsFlag(arg) {
        return Call(globals, true, arg, args[i + 1..]);
      }
      ghost var had := globals;
      globals := globals + [arg];
      if arg in VALUE_FLAGS && i + 1 < |args| {
        i := i + 1;
        globals := globals + [args[i]];
        assert globals == had + [arg, args[i]];
        FlagsConcat(had, [arg, args[i]], true);
      } else {
        FlagsConcat(had, [arg], arg !in VALUE_FLAGS);
      }
      i := i + 1;
    }
    if Flags(globals, true) {
      FlagsNeedNoMore(globals);
    }
    return Call(globals, false, "", []);
  }

  lemma {:induction false} FlagsNeedNoMore(args: seq<string>)
    requires Flags(args, true)
    ensures Flags(args, false)
  {
    if args != [] {
      FlagsNeedNoMore(if args[0] in VALUE_FLAGS then args[2..] else args[1..]);
    }
  }

  /** There is one way to take a command line apart: what is parsed of it is no other call's. */
  lemma {:induction false} OneWayToTake(a: Call, b: Call)
    requires WellTaken(a) && WellTaken(b) && ArgsOf(a) == ArgsOf(b)
    ensures a == b
    decreases |a.globals|
  {
    hide *;
    FirstTells(a);
    FirstTells(b);
    if a.globals != [] && b.globals != [] {
      var n := if ArgsOf(a)[0] in VALUE_FLAGS then 2 else 1;
      Peel(a, n);
      Peel(b, n);
      if |ArgsOf(a)| >= n {
        OneWayToTake(a.(globals := a.globals[n..]), b.(globals := b.globals[n..]));
        assert a.globals == a.globals[..n] + a.globals[n..] && b.globals == b.globals[..n] + b.globals[n..];
      }
    }
  }

  /** The first flag of a call, with its value, taken away. */
  lemma Peel(call: Call, n: nat)
    requires WellTaken(call) && call.globals != [] && n == if ArgsOf(call)[0] in VALUE_FLAGS then 2 else 1
    ensures |ArgsOf(call)| < n ==> call == Call(ArgsOf(call), false, "", [])
    ensures |ArgsOf(call)| >= n ==>
              && |call.globals| >= n && call.globals[..n] == ArgsOf(call)[..n]
              && WellTaken(call.(globals := call.globals[n..]))
              && ArgsOf(call.(globals := call.globals[n..])) == ArgsOf(call)[n..]
  {
    assert call.globals[0] == ArgsOf(call)[0];
  }

  /** What comes first in a call is a flag exactly when it has globals. */
  lemma FirstTells(call: Call)
    requires WellTaken(call)
    ensures ArgsOf(call) != [] ==> (call.globals != [] <==> IsFlag(ArgsOf(call)[0]))
    ensures ArgsOf(call) == [] <==> call == Call([], false, "", [])
    ensures ArgsOf(call) != [] && call.globals == [] ==>
              call == Call([], true, ArgsOf(call)[0], ArgsOf(call)[1..])
  {
  }

  // ----- The positional arguments -----

  function PositionalOf(rest: seq<string>): (got: seq<string>)
    ensures forall a :: a in got ==> !IsFlag(a) && a in rest
  {
    if rest == [] then []
    else if rest[0] in VALUE_FLAGS then (if |rest| == 1 then [] else PositionalOf(rest[2..]))
    else if IsFlag(rest[0]) then PositionalOf(rest[1..])
    else [rest[0]] + PositionalOf(rest[1..])
  }

  lemma PositionalStep(rest: seq<string>, i: nat)
    requires i < |rest|
    ensures PositionalOf(rest[i..]) ==
            if rest[i] in VALUE_FLAGS then (if i + 1 == |rest| then [] else PositionalOf(rest[i + 2..]))
            else if IsFlag(rest[i]) then PositionalOf(rest[i + 1..])
            else [rest[i]] + PositionalOf(rest[i + 1..])
  {
    var s := rest[i..];
    assert s[0] == rest[i] && s[1..] == rest[i + 1..];
    assert i + 2 <= |rest| ==> s[2..] == rest[i + 2..];
  }

  lemma NoPositional()
    ensures PositionalOf([]) == []
  {
  }

  lemma ValueFlagsAreFlags(arg: string)
    ensures arg in VALUE_FLAGS ==> IsFlag(arg)
  {
  }

  method Positional(rest: seq<string>) returns (got: seq<string>)
    ensures got == PositionalOf(rest)
  {
    hide *;
    got := [];
    var i := 0;
    assert rest[0..] == rest;
    while i < |rest|
      invariant 0 <= i
      invariant PositionalOf(rest) == got + if i <= |rest| then PositionalOf(rest[i..]) else []
    {
      PositionalStep(rest, i);
      ValueFlagsAreFlags(rest[i]);
      if IsFlag(rest[i]) {
        if rest[i] in VALUE_FLAGS {
          i := i + 1;
        }
      } else {
        got := got + [rest[i]];
      }
      i := i + 1;
    }
    assert i <= |rest| ==> rest[i..] == [];
    NoPositional();
  }

  /** Arguments that end in no flag wanting its value are read the same whatever follows them. */
  lemma {:induction false} PositionalConcat(a: seq<string>, b: seq<string>)
    requires Closed(a)
    ensures PositionalOf(a + b) == PositionalOf(a) + PositionalOf(b)
  {
    if a == [] {
      assert a + b == b;
    } else {
      var n := if a[0] in VALUE_FLAGS then 2 else 1;
      PositionalConcat(a[n..], b);
      assert (a + b)[n..] == a[n..] + b;
    }
  }

  predicate Closed(args: seq<string>) {
    args == [] ||
    if args[0] in VALUE_FLAGS then |args| > 1 && Closed(args[2..]) else Closed(args[1..])
  }

  /** Flags put anywhere among the words change none of the positional arguments. */
  lemma FlagsAreNotPositional(a: seq<string>, flags: seq<string>, b: seq<string>)
    requires Closed(a) && Flags(flags, true)
    ensures PositionalOf(a + flags + b) == PositionalOf(a + b)
  {
    FlagsHoldNone(flags);
    PositionalConcat(a, b);
    PositionalConcat(a, flags + b);
    PositionalConcat(flags, b);
    assert a + flags + b == a + (flags + b);
  }

  lemma {:induction false} FlagsHoldNone(flags: seq<string>)
    requires Flags(flags, true)
    ensures PositionalOf(flags) == [] && Closed(flags)
  {
    if flags != [] {
      FlagsHoldNone(if flags[0] in VALUE_FLAGS then flags[2..] else flags[1..]);
    }
  }

  /** A flag of one of the names is among the arguments, by itself or with its value after an equals sign. */
  predicate HasFlag(rest: seq<string>, names: set<string>) {
    exists arg, name :: arg in rest && name in names && (arg == name || name + "=" <= arg)
  }

  /** How a command may be run again. */
  function KindOf(call: Call): Kind {
    if call.sub == "close" then Close
    else if call.sub == "comment" then Comment
    else if call.sub == "comments" then
      var pos := PositionalOf(call.rest);
      if pos != [] && pos[0] == "add" then Comment else Again
    else if call.sub in READS_AND_REPEATS then Again
    else Never
  }

  /** Only what may be done twice, or can be looked for before it is, is ever run again; and the global flags, and
      any flags put before a command's words, change nothing of it. */
  lemma KindIsOfTheWords(call: Call, globals: seq<string>, flags: seq<string>)
    requires Flags(flags, true)
    ensures KindOf(call.(globals := globals, rest := flags + call.rest)) == KindOf(call)
    ensures KindOf(call) == Never <==> call.sub !in READS_AND_REPEATS + {"close", "comment", "comments"}
  {
    hide PositionalOf, Flags;
    FlagsAreNotPositional([], flags, call.rest);
    assert [] + flags + call.rest == flags + call.rest && [] + call.rest == call.rest;
  }
}
