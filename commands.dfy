/**
 * The omnibox's command layer: the alias table, the split of an input into
 * a command token and an argument tail, the "is this a command?" test, and
 * the registry that maps a canonical command name to the message its
 * handler posts (an explicit table in place of a `command_<name>` attribute
 * lookup).
 */
module Commands {
  import opened Wrappers
  import opened Text
  import opened Messages

  /** The short tokens and the canonical command each stands for. */
  const Aliases: map<string, string> := map[
    "a" := "about",
    "c" := "contents",
    "cd" := "chdir",
    "h" := "history",
    "l" := "local",
    "toc" := "contents",
    "q" := "quit"
  ]

  /** The canonical names that have a handler. */
  const CommandNames: set<string> := {"about", "chdir", "contents", "history", "local", "quit"}

  /** Every alias stands for a command, and no canonical name is itself an alias. */
  lemma AliasTableWellFormed()
    ensures forall a :: a in Aliases ==> Aliases[a] in CommandNames && Aliases[a] !in Aliases
    ensures forall n :: n in CommandNames ==> n !in Aliases
  {
  }

  /** One alias lookup that falls back to the token itself; it is never repeated. */
  function Resolve(token: string): (name: string)
    ensures name in CommandNames <==> token in Aliases || token in CommandNames
    ensures token in CommandNames ==> name == token
    ensures name in CommandNames ==> name !in Aliases
  {
    if token in Aliases then Aliases[token] else token
  }

  /**
   * The command token and the argument tail: `value.split(None, 1)` padded
   * with an empty tail when there is no whitespace after the token. A blank
   * value gives the empty list.
   */
  function SplitCommand(value: string): (r: seq<string>)
    ensures r == [] <==> AllSpace(value)
    ensures r != [] ==> |r| == 2 && r[0] != [] && NoSpace(r[0]) && (r[1] == [] || !IsSpace(r[1][0]))
  {
    var command := SplitOnce(value);
    if |command| == 1 then [command[0], ""] else command
  }

  /**
   * `value` reads as the leading whitespace `value[..i]`, the command token
   * `value[i..j]`, a whitespace gap `value[j..k]` and the tail `value[k..]`,
   * which is empty or starts right after the gap.
   */
  predicate SplitsAt(value: string, i: nat, j: nat, k: nat)
  {
    i < j <= k <= |value|
    && SpaceRange(value, 0, i) && TokenRange(value, i, j) && SpaceRange(value, j, k)
    && (k < |value| ==> j < k && !IsSpace(value[k]))
  }

  /** Any such reading of `value` is the one SplitCommand returns. */
  lemma SplitsAtDetermines(value: string, i: nat, j: nat, k: nat)
    requires SplitsAt(value, i, j, k)
    ensures SplitCommand(value) == [value[i..j], value[k..]]
  {
    SkipSpaceAt(value, 0, i);
    assert j < |value| ==> IsSpace(value[j]);
    SkipTokenAt(value, i + 1, j);
    SkipSpaceAt(value, j, k);
    if k == |value| {
      assert SplitOnce(value) == [value[i..j]];
      assert value[k..] == "";
    } else {
      assert SplitOnce(value) == [value[i..j], value[k..]];
    }
  }

  /** A non-blank value always has such a reading, and SplitCommand returns its parts. */
  lemma SplitCommandSplitsAt(value: string)
    requires !AllSpace(value)
    ensures var i := SkipSpace(value, 0);
      var j := SkipToken(value, i + 1);
      var k := SkipSpace(value, j);
      SplitsAt(value, i, j, k) && SplitCommand(value) == [value[i..j], value[k..]]
  {
    var i := SkipSpace(value, 0);
    var j := SkipToken(value, i + 1);
    var k := SkipSpace(value, j);
    assert i < |value|;
    assert TokenRange(value, i, j);
    SplitsAtDetermines(value, i, j, k);
  }

  /** A lone token splits into itself and an empty tail. */
  lemma SplitCommandOfToken(t: string)
    requires t != [] && NoSpace(t)
    ensures SplitCommand(t) == [t, ""]
  {
    SplitsAtDetermines(t, 0, |t|, |t|);
    assert t[0..|t|] == t;
  }

  /** A token, one space and `x` read as the token, a gap and `x` without its leading whitespace. */
  lemma TokenSpaceSplitsAt(t: string, x: string)
    requires t != [] && NoSpace(t)
    ensures SplitsAt(t + " " + x, 0, |t|, |t| + 1 + SkipSpace(x, 0))
  {
    var value := t + " " + x;
    var g := SkipSpace(x, 0);
    var k := |t| + 1 + g;
    assert TokenRange(value, 0, |t|) by {
      forall p | 0 <= p < |t| ensures !IsSpace(value[p]) {
        assert value[p] == t[p];
      }
    }
    assert SpaceRange(value, |t|, k) by {
      forall p | |t| <= p < k ensures IsSpace(value[p]) {
        if p > |t| {
          assert value[p] == x[p - |t| - 1];
        }
      }
    }
    if k < |value| {
      assert value[k] == x[g];
    }
  }

  lemma TokenSpaceSlices(t: string, x: string, g: nat)
    requires g <= |x|
    ensures (t + " " + x)[0..|t|] == t
    ensures (t + " " + x)[|t| + 1 + g..] == x[g..]
  {
    assert (t + " " + x)[|t| + 1..] == x;
  }

  /** A token, one space and anything: the tail is that anything without its leading whitespace. */
  lemma SplitCommandWithTail(t: string, x: string)
    requires t != [] && NoSpace(t)
    ensures SplitCommand(t + " " + x)[0] == t
    ensures SplitCommand(t + " " + x)[1] == x[SkipSpace(x, 0)..]
  {
    var g := SkipSpace(x, 0);
    TokenSpaceSplitsAt(t, x);
    var value := t + " " + x;
    SplitsAtDetermines(value, 0, |t|, |t| + 1 + g);
    TokenSpaceSlices(t, x, g);
  }

  /**
   * Whether `value` names a known command: its token, after the alias
   * lookup, has a handler. None stands for the ValueError that unpacking
   * the empty split of a blank value raises.
   */
  function IsCommand(value: string): (r: Option<bool>)
    ensures r.None? <==> AllSpace(value)
    ensures r == Some(true) <==>
      !AllSpace(value) && (SplitCommand(value)[0] in Aliases || SplitCommand(value)[0] in CommandNames)
  {
    var parts := SplitCommand(value);
    if parts == [] then None else Some(Resolve(parts[0]) in CommandNames)
  }

  /** A handler invocation: the canonical command name and its stripped argument. */
  datatype Call = Call(name: string, argument: string)

  /** What executing a command runs: the resolved token's handler on the stripped tail. */
  function ParseCommand(command: string): (c: Call)
    requires IsCommand(command) == Some(true)
    ensures c.name in CommandNames && Trimmed(c.argument)
    ensures |c.argument| < |command|
  {
    var parts := SplitCommand(command);
    SplitCommandSplitsAt(command);
    Call(Resolve(parts[0]), Strip(parts[1]))
  }

  /** The handler registry: the message each canonical command's handler posts. */
  function Dispatch(name: string, argument: string): (r: Option<Msg>)
    ensures r.Some? <==> name in CommandNames
    ensures r == Some(LocalChdir(Path(argument))) <==> name == "chdir"
  {
    if name == "about" then Some(About)
    else if name == "chdir" then Some(LocalChdir(Path(argument)))
    else if name == "contents" then Some(Contents)
    else if name == "history" then Some(History)
    else if name == "local" then Some(LocalFiles)
    else if name == "quit" then Some(Quit)
    else None
  }

  /** Every handler but chdir ignores its argument. */
  lemma DispatchIgnoresArgument(name: string, a: string, b: string)
    requires name != "chdir"
    ensures Dispatch(name, a) == Dispatch(name, b)
  {
  }

  /** Distinct commands post distinct messages. */
  lemma DispatchInjective(n1: string, a1: string, n2: string, a2: string)
    requires Dispatch(n1, a1).Some? && Dispatch(n1, a1) == Dispatch(n2, a2)
    ensures n1 == n2
  {
  }

  /**
   * An alias or a canonical name followed by a space and any text is a
   * command: the resolved name's handler, on the stripped text.
   */
  lemma NameWithArgument(token: string, x: string)
    requires token in Aliases || token in CommandNames
    ensures IsCommand(token + " " + x) == Some(true)
    ensures ParseCommand(token + " " + x) == Call(Resolve(token), Strip(x))
  {
    assert NoSpace(token);
    SplitCommandWithTail(token, x);
    StripDropsLeadingSpace(x, SkipSpace(x, 0));
  }

  /**
   * An alias followed by an argument runs the same handler, on the same
   * argument, as its canonical name followed by that argument.
   */
  lemma AliasCallsCanonical(alias: string, x: string)
    requires alias in Aliases
    ensures IsCommand(alias + " " + x) == Some(true)
    ensures IsCommand(Aliases[alias] + " " + x) == Some(true)
    ensures ParseCommand(alias + " " + x) == ParseCommand(Aliases[alias] + " " + x)
  {
    NameWithArgument(alias, x);
    NameWithArgument(Aliases[alias], x);
  }

  /** Every alias and every canonical name, on its own, is a command with an empty argument. */
  lemma EveryNameIsCommand(token: string)
    requires token in Aliases || token in CommandNames
    ensures IsCommand(token) == Some(true)
    ensures ParseCommand(token) == Call(Resolve(token), "")
  {
    assert NoSpace(token);
    SplitCommandOfToken(token);
  }

  /**
   * On a trimmed value the tail is already trimmed, so stripping it again
   * changes nothing.
   */
  lemma TailOfTrimmedIsTrimmed(value: string)
    requires Trimmed(value) && !AllSpace(value)
    ensures Strip(SplitCommand(value)[1]) == SplitCommand(value)[1]
  {
    SplitCommandSplitsAt(value);
    var tail := SplitCommand(value)[1];
    if tail != [] {
      assert tail[|tail| - 1] == value[|value| - 1];
      StripTrimmed(tail);
    }
  }

  /** `not-a-real-file.md` is one lower-case word that names no command. */
  lemma NotARealFileIsUnknownWord()
    ensures var s := "not-a-real-file.md";
      s != [] && NoSpace(s) && HasNoUpper(s) && s !in Aliases && s !in CommandNames
  {
    var s := "not-a-real-file.md";
    assert s !in Aliases && s !in CommandNames;
    assert HasNoUpper(s);
  }
}
