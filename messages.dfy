/** The messages the omnibox posts to the application. */
module Messages {

  /**
   * A `pathlib.Path` built from the text it was given. Its string form and
   * what it names on disk are supplied by the host (see Classifier.Host).
   */
  datatype Path = Path(raw: string)

  /** One message per kind of outbound intent, as a single sum type. */
  datatype Msg =
    | RemoteView(url: string)     // view a remote document
    | LocalView(path: Path)       // view a local document
    | LocalChdir(target: Path)    // change the local file browser's root
    | Contents                    // show the table of contents
    | LocalFiles                  // show the local file browser
    | Quit                        // quit the viewer
    | History                     // show the history
    | About                       // show the about information
}
