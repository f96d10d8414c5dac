/**
 * The omnibox widget: a single-line input whose submissions are classified
 * and turned into messages for the application. The widget's own state is
 * the text in the input (`value`), the placeholder shown when it is empty,
 * the location being visited, and the stream of messages it has posted.
 */
module Omnibox {
  import opened Wrappers
  import opened Text
  import opened Messages
  import opened Commands
  import opened Classifier

  /** The placeholder shown when nothing is being visited. */
  const DefaultPlaceholder: string := "Enter a location or command"

  /** A submit event; stopping it ends its propagation to other handlers. */
  class Submitted {
    var stopped: bool

    constructor ()
      ensures !stopped
    {
      stopped := false;
    }

    method Stop()
      modifies this
      ensures stopped
    {
      stopped := true;
    }
  }

  class Omnibox {
    var value: string
    var placeholder: string
    var visiting: string
    var posted: seq<Msg>

    constructor ()
      ensures value == "" && placeholder == "" && visiting == "" && posted == []
    {
      value, placeholder, visiting, posted := "", "", "", [];
    }

    /** Post a message to the application. */
    method PostMessage(m: Msg)
      modifies this`posted
      ensures posted == old(posted) + [m]
    {
      posted := posted + [m];
    }

    /** React to a new `visiting` location: show it, or restore the default placeholder. */
    method WatchVisiting()
      modifies this`placeholder, this`value
      ensures placeholder == if visiting != "" then visiting else DefaultPlaceholder
      ensures value == if visiting != "" then visiting else old(value)
    {
      placeholder := if visiting != "" then visiting else DefaultPlaceholder;
      if visiting != "" {
        value := visiting;
      }
    }

    method CommandContents(argument: string)
      modifies this`posted
      ensures posted == old(posted) + [Contents]
    {
      PostMessage(Contents);
    }

    method CommandLocal(argument: string)
      modifies this`posted
      ensures posted == old(posted) + [LocalFiles]
    {
      PostMessage(LocalFiles);
    }

    method CommandQuit(argument: string)
      modifies this`posted
      ensures posted == old(posted) + [Quit]
    {
      PostMessage(Quit);
    }

    method CommandHistory(argument: string)
      modifies this`posted
      ensures posted == old(posted) + [History]
    {
      PostMessage(History);
    }

    method CommandAbout(argument: string)
      modifies this`posted
      ensures posted == old(posted) + [About]
    {
      PostMessage(About);
    }

    method CommandChdir(target: string)
      modifies this`posted
      ensures posted == old(posted) + [LocalChdir(Path(target))]
    {
      PostMessage(LocalChdir(Path(target)));
    }

    /**
     * Run a command: split it, resolve the token through the alias table,
     * and call that command's handler on the stripped tail.
     */
    method ExecuteCommand(command: string)
      requires IsCommand(command) == Some(true)
      modifies this`posted
      ensures var call := ParseCommand(command);
        posted == old(posted) + [Dispatch(call.name, call.argument).value]
    {
      var parts := SplitCommand(command);
      var name := Resolve(parts[0]);
      var arguments := Strip(parts[1]);
      if name == "about" {
        CommandAbout(arguments);
      } else if name == "contents" {
        CommandContents(arguments);
      } else if name == "history" {
        CommandHistory(arguments);
      } else if name == "local" {
        CommandLocal(arguments);
      } else if name == "quit" {
        CommandQuit(arguments);
      } else {
        CommandChdir(arguments);
      }
    }

    /**
     * Handle a submission of the current `value`: clear the input, then
     * try, in order, a remote location, an existing file or directory, a
     * command, and finally a file name to try anyway. `raised` reports the
     * ValueError that blank text raises when it reaches the command test.
     */
    method OnInputSubmitted(event: Submitted, host: Host) returns (raised: bool)
      modifies this`value, this`posted, event
      ensures var e := Submit(old(value), host);
        && posted == old(posted) + e.posted
        && value == e.value
        && event.stopped == (old(event.stopped) || e.stopped)
        && raised == e.raised
    {
      raised := false;
      var submitted := Strip(value);
      value := "";
      var path := Path(submitted);
      if host.isLikelyUrl(submitted) {
        PostMessage(RemoteView(submitted));
      } else if host.Exists(path) {
        if host.IsFile(path) {
          PostMessage(LocalView(path));
          value := host.pathText(path);
        } else if host.IsDir(path) {
          PostMessage(LocalChdir(path));
        } else {
          return;
        }
      } else {
        var command := Lower(submitted);
        var known := IsCommand(command);
        if known.None? {
          raised := true;
          return;
        }
        if known.value {
          ExecuteCommand(command);
        } else {
          PostMessage(LocalView(Path(submitted)));
          value := submitted;
        }
      }
      event.Stop();
    }
  }
}
