# Omnibox: the Markdown viewer's location and command input

The Markdown viewer has an omnibox: a one-line input where the user types either a location to view or a command. When the text is submitted, the widget trims it and clears the input. It then tries four readings in a fixed order, and the first that matches wins:

1. The text looks like a URL. The widget posts a remote-view message.
2. The text names something that exists on disk.
   - For a file, it posts a local-view message and puts the path's string form back in the input.
   - For a directory, it posts a chdir message for the local file browser.
   - For anything else it does nothing, and the event is not stopped.
3. The lower-cased text starts with a known command, after one alias lookup (`cd` → `chdir`, `q` → `quit`, …). The command's handler runs on the stripped rest of the text.
4. Nothing matched. The widget posts a local-view message for the text anyway and puts the text back in the input so the user can correct it.

Every branch that posts a message stops the event. Two cases post nothing and leave the event running: text that exists but is neither file nor directory, and blank text, which raises when it reaches the command test. A separate watcher mirrors the `visiting` location into the placeholder and the input.

The model has six modules:

- `Text`: the Python `str` primitives the widget relies on:
  - `isspace`, with the full Unicode whitespace set;
  - `strip()` and `split(None, 1)`, computed the way CPython computes them by walking indices;
  - `lower()`, for the ASCII letters only.
- `Messages`: the outbound messages, one datatype with one constructor per kind of message.
- `Commands`: the alias table, the command splitter, the "is this a command?" test, and an explicit handler registry. The registry replaces the `getattr(self, "command_<name>")` lookup.
- `Classifier`: the pure specification of a submission.
  - `Classify` picks the category.
  - `Submit` returns the whole effect: the messages posted, the new input text, whether the event is stopped, and whether it raised.
  - The filesystem and the URL heuristic are a `Host` value passed in.
- `Omnibox`: the widget as a class. Its fields are `value`, `placeholder`, `visiting` and the posted message stream. Its methods (the submit handler, the command executor, the six command handlers and the watcher) update those fields. Each method is proved against the `Classifier`/`Commands` functions.
- `Wrappers`: `Option`.

Two behaviours of the code are easy to miss:

- The command test and the dispatch see the whole lower-cased input, not just the command token. The `chdir` target therefore arrives lower-cased.
- After opening an existing file, the input holds `str(path)`, the path's normalised string form, not the typed text. The model leaves this string to `Host.pathText`.

## Model

| member | source | states |
|---|---|---|
| Text.Strip | textual_markdown_viewer/widgets/omnibox.py:137 | The stripped text neither starts nor ends with whitespace, is no longer than its input, and is empty exactly when the input is blank. |
| Text.StripAt | textual_markdown_viewer/widgets/omnibox.py:137 | Strip returns exactly the middle part between a whitespace prefix and a whitespace suffix, when that part starts and ends with non-whitespace. |
| Text.StripSuffixAt | textual_markdown_viewer/widgets/omnibox.py:117 | The same holds for the strip of a suffix `s[g..]`, with the bounds given as indices of `s`. |
| Text.StripTrimmed | textual_markdown_viewer/widgets/omnibox.py:117 | Stripping text that is already trimmed changes nothing. |
| Text.StripDropsLeadingSpace | textual_markdown_viewer/widgets/omnibox.py:117 | Removing some leading whitespace before stripping gives the same result. |
| Text.Lower | textual_markdown_viewer/widgets/omnibox.py:163 | Lower-casing keeps the length and the whitespace positions, leaves no upper-case ASCII letter, and is the identity on text without one. |
| Text.LowerConcat | textual_markdown_viewer/widgets/omnibox.py:163 | Lower-casing distributes over concatenation. |
| Text.SplitOnce | textual_markdown_viewer/widgets/omnibox.py:91 | `split(None, 1)` gives at most two non-empty items: none for blank text, a first item free of whitespace, and a second item that starts with non-whitespace. |
| Commands.Aliases | textual_markdown_viewer/widgets/omnibox.py:70-78 | The seven aliases and the command each stands for. |
| Commands.CommandNames | textual_markdown_viewer/widgets/omnibox.py:185-219 | The six names that have a `command_` handler. |
| Commands.AliasTableWellFormed | textual_markdown_viewer/widgets/omnibox.py:70-78 | Every alias stands for one of the six handler names, and no alias value or handler name is itself an alias, so one lookup is final. |
| Commands.Resolve | textual_markdown_viewer/widgets/omnibox.py:105 | A token resolves to a handler name exactly when it is an alias or a handler name. Handler names resolve to themselves. A resolved name is never an alias, so the lookup is not transitive. |
| Commands.SplitCommand | textual_markdown_viewer/widgets/omnibox.py:82-92 | Blank input gives the empty list. Any other input gives exactly two items: a non-empty token without whitespace, and a tail that is empty or starts with non-whitespace. |
| Commands.SplitsAtDetermines | textual_markdown_viewer/widgets/omnibox.py:82-92 | Whenever the input reads as leading whitespace, a token, a whitespace gap and a tail, the split returns that token and that tail. |
| Commands.SplitCommandSplitsAt | textual_markdown_viewer/widgets/omnibox.py:82-92 | Every non-blank input has such a reading, and the split returns its token and tail. |
| Commands.SplitCommandOfToken | textual_markdown_viewer/widgets/omnibox.py:92 | A lone token with no whitespace splits into itself and `""`. |
| Commands.SplitCommandWithTail | textual_markdown_viewer/widgets/omnibox.py:91 | A token, a space and any text split into the token and that text without its leading whitespace. |
| Commands.IsCommand | textual_markdown_viewer/widgets/omnibox.py:94-107 | Blank input fails (the unpacking raises). Otherwise the input is a command exactly when its first token is an alias or a handler name. |
| Commands.ParseCommand | textual_markdown_viewer/widgets/omnibox.py:115-118 | A command resolves to a handler name, and its argument is trimmed and shorter than the command. |
| Commands.Dispatch | textual_markdown_viewer/widgets/omnibox.py:185-219 | The registry has an entry exactly for the six handler names. It posts a chdir for the argument exactly for `chdir`. |
| Commands.DispatchIgnoresArgument | textual_markdown_viewer/widgets/omnibox.py:185-215 | Every handler except chdir posts the same message whatever its argument. |
| Commands.DispatchInjective | textual_markdown_viewer/widgets/omnibox.py:185-219 | Different handlers post different messages. |
| Commands.NameWithArgument | textual_markdown_viewer/widgets/omnibox.py:103-118 | An alias or handler name followed by a space and any text is a command. It calls the resolved handler on the stripped text. |
| Commands.AliasCallsCanonical | textual_markdown_viewer/widgets/omnibox.py:115-118 | An alias with an argument calls the same handler, on the same argument, as its canonical name with that argument. |
| Commands.EveryNameIsCommand | textual_markdown_viewer/widgets/omnibox.py:70-78 | Every alias key and every handler name is, on its own, a command with an empty argument. |
| Commands.TailOfTrimmedIsTrimmed | textual_markdown_viewer/widgets/omnibox.py:115-118 | On trimmed input, stripping the split's tail changes nothing. |
| Classifier.Classify | textual_markdown_viewer/widgets/omnibox.py:144-173 | The priority order, one if-and-only-if per category: URL-like text is remote. Otherwise an existing path is a file, a directory or an unrepresentable entry. Otherwise the lower-cased text is a command or the blank case; anything else is a file name tried anyway. |
| Classifier.Outcome | textual_markdown_viewer/widgets/omnibox.py:144-180 | At most one message is posted. The event is stopped exactly when one is. Nothing is posted exactly for an unrepresentable entry or blank text, and only blank text raises. |
| Classifier.Submit | textual_markdown_viewer/widgets/omnibox.py:129-180 | The whole effect of a submission. The new input text is the path's string form for an existing file, the trimmed text in the fallback branch, and `""` otherwise. |
| Classifier.RaisesOnlyOnEmpty | textual_markdown_viewer/widgets/omnibox.py:103 | A submission raises exactly when the text is blank and `""` is neither URL-like nor an existing path. |
| Classifier.ClassifyConsultsProbeOnlyForNonUrl | textual_markdown_viewer/widgets/omnibox.py:144-148 | The category depends on the filesystem only at the submitted path, and not at all for URL-like text. |
| Classifier.UrlAlwaysRemote | textual_markdown_viewer/widgets/omnibox.py:144-147 | URL-like text always posts exactly one remote view, clears the input and stops the event, whatever the filesystem holds. |
| Classifier.DirectoryAlwaysChdir | textual_markdown_viewer/widgets/omnibox.py:154-158 | For any input whose trimmed text is not URL-like and names an existing directory, the widget posts exactly one chdir to that path, clears the input and stops the event. |
| Classifier.FileAlwaysViewed | textual_markdown_viewer/widgets/omnibox.py:150-153 | For any input whose trimmed text is not URL-like and names an existing file, the widget posts exactly one local view of that path, shows the path's string form and stops the event. |
| Classifier.UnresolvedAlwaysViewed | textual_markdown_viewer/widgets/omnibox.py:168-177 | For any input that matches nothing, the widget posts exactly one local view of the trimmed text, puts that text back and stops the event. |
| Classifier.CommandAlwaysDispatched | textual_markdown_viewer/widgets/omnibox.py:163-167 | For any input classified as a command, the widget posts exactly the message of the resolved handler for the lower-cased, stripped tail, clears the input and stops the event. |
| Classifier.NameWithArgumentClassifies | textual_markdown_viewer/widgets/omnibox.py:163-167 | An alias or handler name followed by an argument, when neither a URL nor an existing path, calls the resolved handler on the lower-cased, stripped argument. |
| Classifier.AliasClassifiesAsCanonical | textual_markdown_viewer/widgets/omnibox.py:163-167 | An alias with an argument is classified exactly as its canonical name with that argument. |
| Classifier.LowerWithTail | textual_markdown_viewer/widgets/omnibox.py:163 | Lower-casing a lower-case token, a space and a tail lower-cases only the tail. |
| Classifier.CommandsIgnoreCase | textual_markdown_viewer/widgets/omnibox.py:163 | Two texts that lower-case alike are the same command. |
| Classifier.QuitInEitherCase | textual_markdown_viewer/widgets/omnibox.py:199-201 | `Q` and `q` both call quit with an empty argument, and submitting `q` posts exactly `Quit`. |
| Classifier.CommandArgumentIsTail | textual_markdown_viewer/widgets/omnibox.py:115-118 | For trimmed text, the command argument is the split's tail as it stands. |
| Classifier.ScenarioRemote | textual_markdown_viewer/widgets/omnibox.py:144-147 | A remote location posts its remote view and leaves the input empty. |
| Classifier.ScenarioChdirCall | textual_markdown_viewer/widgets/omnibox.py:217-219 | `cd /tmp` is the chdir command with target `/tmp`. |
| Classifier.ScenarioChdir | textual_markdown_viewer/widgets/omnibox.py:163-167 | Submitting `cd /tmp` posts one chdir to `/tmp`, clears the input and stops the event. |
| Classifier.ScenarioFile | textual_markdown_viewer/widgets/omnibox.py:150-153 | An existing file posts its local view, and the input shows the path's string form. |
| Classifier.UnknownWordFallsBack | textual_markdown_viewer/widgets/omnibox.py:168-177 | One word that is neither URL-like, nor an existing path, nor an alias or command, posts one local view for itself, is put back in the input, and stops the event. |
| Classifier.ScenarioUnresolved | textual_markdown_viewer/widgets/omnibox.py:168-177 | Unmatched text posts a local view for itself and is put back in the input. |
| Classifier.ScenarioSpecialEntry | textual_markdown_viewer/widgets/omnibox.py:159-162 | An existing path that is neither file nor directory posts nothing, clears the input and does not stop the event. |
| Omnibox.Submitted.Stop | textual_markdown_viewer/widgets/omnibox.py:180 | Stopping the event marks it stopped. |
| Omnibox.Omnibox.PostMessage | textual_markdown_viewer/widgets/omnibox.py:147 | Posting appends exactly that message to the stream. |
| Omnibox.Omnibox.WatchVisiting | textual_markdown_viewer/widgets/omnibox.py:64-68 | A non-empty `visiting` becomes both placeholder and value. An empty one restores the default placeholder and leaves the value unchanged. |
| Omnibox.Omnibox.CommandContents | textual_markdown_viewer/widgets/omnibox.py:185-187 | Posts exactly one `Contents` message, whatever the argument. |
| Omnibox.Omnibox.CommandLocal | textual_markdown_viewer/widgets/omnibox.py:192-194 | Posts exactly one `LocalFiles` message, whatever the argument. |
| Omnibox.Omnibox.CommandQuit | textual_markdown_viewer/widgets/omnibox.py:199-201 | Posts exactly one `Quit` message, whatever the argument. |
| Omnibox.Omnibox.CommandHistory | textual_markdown_viewer/widgets/omnibox.py:206-208 | Posts exactly one `History` message, whatever the argument. |
| Omnibox.Omnibox.CommandAbout | textual_markdown_viewer/widgets/omnibox.py:213-215 | Posts exactly one `About` message, whatever the argument. |
| Omnibox.Omnibox.CommandChdir | textual_markdown_viewer/widgets/omnibox.py:217-219 | Posts exactly one chdir message for the path built from the target. |
| Omnibox.Omnibox.ExecuteCommand | textual_markdown_viewer/widgets/omnibox.py:109-118 | Executing a command appends exactly the message that the resolved handler posts for the stripped tail. |
| Omnibox.Omnibox.OnInputSubmitted | textual_markdown_viewer/widgets/omnibox.py:129-180 | One submission changes the stream, the input, the event and the raised flag exactly as `Classifier.Submit` of the old value says. That is at most one message, stopped exactly when one is posted, and the value per branch. |

## Left out

- The body of `is_likely_url` is not part of this model. It is the abstract `Host.isLikelyUrl`.
- `httpx.URL` construction: the remote-view message carries the submitted text. A parse error the constructor might raise is not modelled.
- `pathlib.Path` semantics are abstract `Host` functions:
  - existence, and the file and directory tests (`Host.entry`);
  - the normalised string form `str(path)` (`Host.pathText`).
  A `Path` is kept as the text it was built from.
- `Path("")` is `Path(".")` in pathlib, so blank text normally exists on disk and never reaches the raise. The abstract `Host.entry` does not know this, which is why Classifier.RaisesOnlyOnEmpty states the condition `!Exists(Path(""))` explicitly.
- The filesystem is not modelled as changing between the `exists`, `is_file` and `is_dir` calls of one submission.
- Text.Lower: maps only ASCII `A`–`Z`; Python's full Unicode case mapping of `str.lower()` (which can also change the length) is not modelled.
- Commands.Dispatch: the `getattr(self, "command_" + name)` lookup is modelled as a table of the six handlers. It assumes the widget has no other attribute whose name starts with `command_`.
- Omnibox.Omnibox.ExecuteCommand: requires that its argument is a known command, as its only caller guarantees. The `AttributeError` for an unknown name is not modelled.
- Omnibox.Omnibox.OnInputSubmitted: the `ValueError` that blank text raises when it reaches the command test is modelled as the returned `raised` flag, not as an exception propagating out of the handler.
- The Textual framework is left out: messages as classes, `post_message` delivery and its return value, the `var` reactive machinery that calls `watch_visiting`, `DEFAULT_CSS`, and event propagation beyond a "stopped" flag.
- The help dialog (`frogmouth/dialogs/help_dialog.py`) is a static modal screen. Its table lists commands this widget does not implement, and it is not part of this model.
