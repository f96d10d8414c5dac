/**
 * What a submission means. `Classify` decides, in a fixed order, what the
 * trimmed text names: a remote location, something on the local
 * filesystem, a command, or (failing all of these) a file name to try
 * anyway. `Submit` is the whole effect of one submission on the widget:
 * the messages it posts, the text left in the input, whether the event is
 * stopped, and whether it raised.
 */
module Classifier {
  import opened Wrappers
  import opened Text
  import opened Messages
  import opened Commands

  /** What a path names on disk. */
  datatype EntryKind = Missing | RegularFile | Directory | OtherEntry

  /**
   * What the omnibox relies on from outside: the URL heuristic, what a
   * path names on disk (`exists`, `is_file`, `is_dir`), and the string
   * form of a path.
   */
  datatype Host = Host(isLikelyUrl: string -> bool, entry: Path -> EntryKind, pathText: Path -> string)
  {
    predicate Exists(p: Path) { entry(p) != Missing }
    predicate IsFile(p: Path) { entry(p) == RegularFile }
    predicate IsDir(p: Path) { entry(p) == Directory }
  }

  /** The one category a submission falls into. */
  datatype Classification =
    | RemoteTarget(url: string)
    | LocalFile(path: Path)
    | LocalDirectory(path: Path)
    | UnrepresentableEntry           // exists, but neither file nor directory
    | CommandCall(call: Call)
    | UnresolvedFilename(path: Path) // nothing matched: try it as a file anyway
    | BlankCommand                   // blank text reached the command test, which raises

  /** The category of the trimmed text `submitted`; the first test that matches wins. */
  function Classify(submitted: string, host: Host): (c: Classification)
    ensures c.RemoteTarget? <==> host.isLikelyUrl(submitted)
    ensures c.RemoteTarget? ==> c.url == submitted
    ensures c.LocalFile? <==> !host.isLikelyUrl(submitted) && host.IsFile(Path(submitted))
    ensures c.LocalDirectory? <==> !host.isLikelyUrl(submitted) && host.IsDir(Path(submitted))
    ensures c.UnrepresentableEntry? <==>
      !host.isLikelyUrl(submitted) && host.Exists(Path(submitted))
      && !host.IsFile(Path(submitted)) && !host.IsDir(Path(submitted))
    ensures c.LocalFile? || c.LocalDirectory? || c.UnresolvedFilename? ==> c.path == Path(submitted)
    ensures c.CommandCall? || c.UnresolvedFilename? || c.BlankCommand? <==>
      !host.isLikelyUrl(submitted) && !host.Exists(Path(submitted))
    ensures c.BlankCommand? <==>
      !host.isLikelyUrl(submitted) && !host.Exists(Path(submitted)) && AllSpace(submitted)
    ensures c.CommandCall? <==>
      !host.isLikelyUrl(submitted) && !host.Exists(Path(submitted))
      && IsCommand(Lower(submitted)) == Some(true)
    ensures c.CommandCall? ==>
      c.call == ParseCommand(Lower(submitted)) && c.call.name in CommandNames
  {
    var path := Path(submitted);
    if host.isLikelyUrl(submitted) then RemoteTarget(submitted)
    else if host.Exists(path) then
      if host.IsFile(path) then LocalFile(path)
      else if host.IsDir(path) then LocalDirectory(path)
      else UnrepresentableEntry
    else
      var command := Lower(submitted);
      match IsCommand(command)
      case None => BlankCommand
      case Some(known) =>
        if known then CommandCall(ParseCommand(command)) else UnresolvedFilename(path)
  }

  /** The effect of one submission. */
  datatype Effect = Effect(posted: seq<Msg>, value: string, stopped: bool, raised: bool)

  /** The effect of a submission of `submitted` that falls into category `c`. */
  function Outcome(c: Classification, submitted: string, host: Host): (e: Effect)
    requires c.CommandCall? ==> c.call.name in CommandNames
    ensures |e.posted| <= 1 && (e.stopped <==> |e.posted| == 1)
    ensures e.raised <==> c.BlankCommand?
    ensures e.posted == [] <==> c.UnrepresentableEntry? || c.BlankCommand?
  {
    match c
    case RemoteTarget(url) => Effect([RemoteView(url)], "", true, false)
    case LocalFile(p) => Effect([LocalView(p)], host.pathText(p), true, false)
    case LocalDirectory(p) => Effect([LocalChdir(p)], "", true, false)
    case UnrepresentableEntry => Effect([], "", false, false)
    case CommandCall(call) => Effect([Dispatch(call.name, call.argument).value], "", true, false)
    case UnresolvedFilename(p) => Effect([LocalView(p)], submitted, true, false)
    case BlankCommand => Effect([], "", false, true)
  }

  /** One submission of the widget's current `value`. */
  function Submit(value: string, host: Host): (e: Effect)
    ensures var s := Strip(value); var c := Classify(s, host);
      && |e.posted| <= 1
      && (e.stopped <==> |e.posted| == 1)
      && (e.posted == [] <==> c.UnrepresentableEntry? || c.BlankCommand?)
      && (e.raised <==> c.BlankCommand?)
      && e.value == (if c.LocalFile? then host.pathText(Path(s))
                     else if c.UnresolvedFilename? then s
                     else "")
  {
    var submitted := Strip(value);
    Outcome(Classify(submitted, host), submitted, host)
  }

  /** Only text that is blank after trimming can raise, and only when "" is missing on disk. */
  lemma RaisesOnlyOnEmpty(value: string, host: Host)
    ensures Submit(value, host).raised <==>
      AllSpace(value) && !host.isLikelyUrl("") && !host.Exists(Path(""))
  {
    assert AllSpace(value) <==> Strip(value) == "";
  }

  /**
   * The outcome depends on the filesystem only at the submitted path, and
   * not at all when the text looks like a URL.
   */
  lemma ClassifyConsultsProbeOnlyForNonUrl(s: string, h1: Host, h2: Host)
    requires h1.isLikelyUrl(s) == h2.isLikelyUrl(s)
    requires !h1.isLikelyUrl(s) ==> h1.entry(Path(s)) == h2.entry(Path(s))
    ensures Classify(s, h1) == Classify(s, h2)
  {
  }

  /** URL-like text is always a remote view, whatever the filesystem holds. */
  lemma UrlAlwaysRemote(value: string, host: Host)
    requires host.isLikelyUrl(Strip(value))
    ensures Submit(value, host) == Effect([RemoteView(Strip(value))], "", true, false)
  {
  }

  /** An existing directory changes the local browser's root to it, and the input is cleared. */
  lemma DirectoryAlwaysChdir(value: string, host: Host)
    requires !host.isLikelyUrl(Strip(value)) && host.IsDir(Path(Strip(value)))
    ensures Submit(value, host) == Effect([LocalChdir(Path(Strip(value)))], "", true, false)
  {
  }

  /** An existing file is viewed, and the input shows the path's string form. */
  lemma FileAlwaysViewed(value: string, host: Host)
    requires !host.isLikelyUrl(Strip(value)) && host.IsFile(Path(Strip(value)))
    ensures Submit(value, host)
      == Effect([LocalView(Path(Strip(value)))], host.pathText(Path(Strip(value))), true, false)
  {
  }

  /** Text that matches nothing is tried as a file, and the trimmed text is put back. */
  lemma UnresolvedAlwaysViewed(value: string, host: Host)
    requires Classify(Strip(value), host).UnresolvedFilename?
    ensures Submit(value, host) == Effect([LocalView(Path(Strip(value)))], Strip(value), true, false)
  {
  }

  /** A command posts exactly the message its handler posts for its argument, and the input is cleared. */
  lemma CommandAlwaysDispatched(value: string, host: Host)
    requires Classify(Strip(value), host).CommandCall?
    ensures var c := ParseCommand(Lower(Strip(value)));
      Submit(value, host) == Effect([Dispatch(c.name, c.argument).value], "", true, false)
  {
  }

  /**
   * An alias or canonical name followed by a space and an argument, when it
   * neither looks like a URL nor exists, calls the resolved command on the
   * lower-cased, stripped argument.
   */
  lemma NameWithArgumentClassifies(token: string, x: string, host: Host)
    requires token in Aliases || token in CommandNames
    requires !host.isLikelyUrl(token + " " + x) && !host.Exists(Path(token + " " + x))
    ensures Classify(token + " " + x, host) == CommandCall(Call(Resolve(token), Strip(Lower(x))))
  {
    assert HasNoUpper(token);
    LowerWithTail(token, x);
    NameWithArgument(token, Lower(x));
  }

  /**
   * An alias followed by an argument is classified exactly as its canonical
   * name followed by the same argument.
   */
  lemma AliasClassifiesAsCanonical(alias: string, x: string, host: Host)
    requires alias in Aliases
    requires !host.isLikelyUrl(alias + " " + x) && !host.Exists(Path(alias + " " + x))
    requires var full := Aliases[alias] + " " + x;
      !host.isLikelyUrl(full) && !host.Exists(Path(full))
    ensures Classify(alias + " " + x, host) == Classify(Aliases[alias] + " " + x, host)
  {
    NameWithArgumentClassifies(alias, x, host);
    NameWithArgumentClassifies(Aliases[alias], x, host);
  }

  /** Lower-casing a lower-case token, a space and a tail lower-cases only the tail. */
  lemma LowerWithTail(t: string, x: string)
    requires HasNoUpper(t)
    ensures Lower(t + " " + x) == t + " " + Lower(x)
  {
    LowerConcat(t + " ", x);
    LowerConcat(t, " ");
  }

  /**
   * Command matching sees the lower-cased text: two texts that lower-case
   * alike (and that neither look like URLs nor exist) are the same command.
   */
  lemma CommandsIgnoreCase(s1: string, s2: string, host: Host)
    requires Lower(s1) == Lower(s2)
    requires !host.isLikelyUrl(s1) && !host.Exists(Path(s1))
    requires !host.isLikelyUrl(s2) && !host.Exists(Path(s2))
    requires Classify(s1, host).CommandCall?
    ensures Classify(s2, host) == Classify(s1, host)
  {
  }

  /** "Q" and "q" both mean quit. */
  lemma QuitInEitherCase(host: Host)
    requires !host.isLikelyUrl("Q") && !host.Exists(Path("Q"))
    requires !host.isLikelyUrl("q") && !host.Exists(Path("q"))
    ensures Classify("Q", host) == CommandCall(Call("quit", ""))
    ensures Classify("q", host) == CommandCall(Call("quit", ""))
    ensures Submit("q", host).posted == [Quit]
  {
    assert Lower("Q") == "q";
    EveryNameIsCommand("q");
    StripTrimmed("q");
  }

  /**
   * On trimmed text, the command's argument is the split's tail as it is:
   * the strip the handler call applies removes nothing.
   */
  lemma CommandArgumentIsTail(submitted: string, host: Host)
    requires Trimmed(submitted)
    requires Classify(submitted, host).CommandCall?
    ensures Classify(submitted, host).call.argument == SplitCommand(Lower(submitted))[1]
  {
    TailOfTrimmedIsTrimmed(Lower(submitted));
  }

  /** A remote location is viewed remotely, and the input is cleared. */
  lemma ScenarioRemote(host: Host)
    requires host.isLikelyUrl("https://example.com/readme.md")
    ensures Submit("https://example.com/readme.md", host)
      == Effect([RemoteView("https://example.com/readme.md")], "", true, false)
  {
    StripTrimmed("https://example.com/readme.md");
  }

  /** `cd /tmp` is the chdir command with argument `/tmp`. */
  lemma ScenarioChdirCall(host: Host)
    requires !host.isLikelyUrl("cd /tmp") && !host.Exists(Path("cd /tmp"))
    ensures Classify("cd /tmp", host) == CommandCall(Call("chdir", "/tmp"))
  {
    CdTmpParts();
    NameWithArgumentClassifies("cd", "/tmp", host);
  }

  /** `cd /tmp` is the alias `cd`, a space and `/tmp`, which strips and lower-cases to itself. */
  lemma CdTmpParts()
    ensures "cd" in Aliases && Resolve("cd") == "chdir"
    ensures "cd" + " " + "/tmp" == "cd /tmp"
    ensures Strip(Lower("/tmp")) == "/tmp"
  {
    assert HasNoUpper("/tmp");
    StripTrimmed("/tmp");
  }

  /** Submitting `cd /tmp` changes the local browser's root to `/tmp` and clears the input. */
  lemma ScenarioChdir(host: Host)
    requires !host.isLikelyUrl("cd /tmp") && !host.Exists(Path("cd /tmp"))
    ensures Submit("cd /tmp", host) == Effect([LocalChdir(Path("/tmp"))], "", true, false)
  {
    StripTrimmed("cd /tmp");
    ScenarioChdirCall(host);
  }

  /** An existing file is viewed, and the input shows the path's string form. */
  lemma ScenarioFile(host: Host)
    requires !host.isLikelyUrl("./README.md") && host.IsFile(Path("./README.md"))
    ensures Submit("./README.md", host)
      == Effect([LocalView(Path("./README.md"))], host.pathText(Path("./README.md")), true, false)
  {
    StripTrimmed("./README.md");
  }

  /**
   * A single word that is neither an alias nor a command, neither URL-like
   * nor an existing path, is tried as a file and put back in the input.
   */
  lemma UnknownWordFallsBack(s: string, host: Host)
    requires s != [] && NoSpace(s) && HasNoUpper(s)
    requires s !in Aliases && s !in CommandNames
    requires !host.isLikelyUrl(s) && !host.Exists(Path(s))
    ensures Submit(s, host) == Effect([LocalView(Path(s))], s, true, false)
  {
    assert !IsSpace(s[0]) && !IsSpace(s[|s| - 1]);
    StripTrimmed(s);
    SplitCommandOfToken(s);
  }

  /** Unmatched text is tried as a file, and the text is put back for editing. */
  lemma ScenarioUnresolved(host: Host)
    requires !host.isLikelyUrl("not-a-real-file.md") && !host.Exists(Path("not-a-real-file.md"))
    ensures Submit("not-a-real-file.md", host)
      == Effect([LocalView(Path("not-a-real-file.md"))], "not-a-real-file.md", true, false)
  {
    NotARealFileIsUnknownWord();
    UnknownWordFallsBack("not-a-real-file.md", host);
  }

  /** Something that exists but is neither file nor directory posts nothing and is not stopped. */
  lemma ScenarioSpecialEntry(value: string, host: Host)
    requires !host.isLikelyUrl(Strip(value)) && host.entry(Path(Strip(value))) == OtherEntry
    ensures Submit(value, host) == Effect([], "", false, false)
  {
  }
}
