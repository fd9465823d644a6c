/**
 * The filesystem side of `GameJoltArchiver`: where `download_file` puts a
 * file, its skip-if-exists short-circuit, and what `create_cheerpj_html`
 * writes.  The filesystem is the set of paths that exist; the HTTP
 * transfer is an outcome given as input, and every request issued is
 * recorded in a ghost log.
 */
module Transfer {
  import opened Wrappers
  import opened Text
  import opened JsonValues
  import opened TitleSanitizer

  /** The default `download_dir`. */
  const DefaultDownloadDir: string := "downloads"
  const DownloadErrorPrefix: string := "Error downloading file: "
  const PageName: string := "cheerpj.html"
  const MissingFieldsError: string := "Missing Java class name or filename in file details"
  const PageErrorPrefix: string := "Error creating CheerpJ HTML file: "
  const DefaultWidth: int := 640
  const DefaultHeight: int := 480
  const DefaultTitle: string := "Game"

  /**
   * How the streamed GET ends once it is issued: the whole body written;
   * an error before the output file is opened (a refused connection, an
   * HTTP error status), leaving no file; or an error while streaming,
   * leaving the partly written file behind.
   */
  datatype TransferOutcome =
    | Completed
    | FailedBeforeWrite(reason: string)
    | FailedDuringWrite(reason: string)

  /** `os.path.join(self.download_dir, safe_title)`, the directory `create_game_directory` returns. */
  function GameDirectory(downloadDir: string, title: string): string {
    PathJoin(downloadDir, SafeTitle(title))
  }

  /** The destination `download_file` settles on: a non-empty `output_path`, else the game directory and the filename. */
  function Destination(downloadDir: string, title: string, filename: string, outputPath: Option<string>): string {
    if outputPath.Some? && outputPath.value != "" then outputPath.value
    else PathJoin(GameDirectory(downloadDir, title), filename)
  }

  /** One call of `download_file`: whether a request went out, the paths that exist afterwards, and the returned pair. */
  datatype Transfer = Transfer(requested: bool, files: set<string>, success: bool, message: string)

  function DownloadStep(files: set<string>, dest: string, outcome: TransferOutcome): (t: Transfer)
    ensures t.requested <==> dest !in files
    ensures files <= t.files <= files + {dest}
    ensures t.success <==> dest in files || outcome.Completed?
    ensures t.success ==> t.message == dest && dest in t.files
    ensures !t.success ==> t.message == DownloadErrorPrefix + outcome.reason
    ensures dest in t.files <==> dest in files || !outcome.FailedBeforeWrite?
  {
    if dest in files then Transfer(false, files, true, dest)
    else
      match outcome
      case Completed => Transfer(true, files + {dest}, true, dest)
      case FailedBeforeWrite(reason) => Transfer(true, files, false, DownloadErrorPrefix + reason)
      case FailedDuringWrite(reason) => Transfer(true, files + {dest}, false, DownloadErrorPrefix + reason)
  }

  /**
   * Once a call has left a file at its destination, with the transfer
   * completed or broken off mid-stream, a second call with the same
   * destination issues no request and reports success with that path,
   * whatever its own transfer would have done.
   */
  lemma SecondDownloadSkips(files: set<string>, dest: string, first: TransferOutcome, second: TransferOutcome)
    requires !first.FailedBeforeWrite?
    ensures var again := DownloadStep(DownloadStep(files, dest, first).files, dest, second);
      !again.requested && again.success && again.message == dest
      && again.files == DownloadStep(files, dest, first).files
  {
  }

  /** With an explicit output path every call shares one destination, whatever the filename or title. */
  lemma OutputPathOverrides(d1: string, t1: string, f1: string, d2: string, t2: string, f2: string, p: string)
    requires p != ""
    ensures Destination(d1, t1, f1, Some(p)) == Destination(d2, t2, f2, Some(p)) == p
  {
  }

  /** An empty output path is falsy, and the file goes to the game directory as with no output path. */
  lemma EmptyOutputPathIgnored(downloadDir: string, title: string, filename: string)
    ensures Destination(downloadDir, title, filename, Some("")) == Destination(downloadDir, title, filename, None)
    ensures Destination(downloadDir, title, filename, None) == PathJoin(GameDirectory(downloadDir, title), filename)
  {
  }

  /**
   * Without an output path the file lands in the game's own directory:
   * `<download_dir>/<safe title>/<filename>`, whose directory part is that
   * game directory.
   */
  lemma DestinationInGameDirectory(downloadDir: string, title: string, filename: string)
    requires downloadDir != "" && !EndsWith(downloadDir, "/")
    requires SafeTitle(title) != "" && '/' !in filename
    ensures Destination(downloadDir, title, filename, None) == downloadDir + "/" + SafeTitle(title) + "/" + filename
    ensures Dirname(Destination(downloadDir, title, filename, None)) == GameDirectory(downloadDir, title)
  {
    SafeTitleHasNoSlash(title);
    NestedJoin(downloadDir, SafeTitle(title), filename);
  }

  /** A title that sanitises to nothing puts the file straight into the download directory. */
  lemma BlankTitleDestination(downloadDir: string, title: string, filename: string)
    requires downloadDir != "" && !EndsWith(downloadDir, "/")
    requires SafeTitle(title) == "" && filename != "" && filename[0] != '/'
    ensures Destination(downloadDir, title, filename, None) == downloadDir + "/" + filename
  {
  }

  // ---------------------------------------------------------------------------
  // create_cheerpj_html

  /** What the page says about the applet: the values interpolated into the template. */
  datatype AppletPage = AppletPage(path: string, title: Json, archive: Json, code: Json, width: Json, height: Json)

  /** The page `create_cheerpj_html` would write, or its error when a required field is missing. */
  function CheerpjPage(fileDetails: map<string, Json>, outputDir: string): (r: Result<AppletPage, string>)
    ensures r.Failure? <==> "java_class_name" !in fileDetails || "filename" !in fileDetails
    ensures r.Failure? ==> r.error == MissingFieldsError
    ensures r.Success? ==>
      && r.value.path == PathJoin(outputDir, PageName)
      && r.value.archive == fileDetails["filename"]
      && r.value.code == fileDetails["java_class_name"]
      && r.value.title == (if "title" in fileDetails then fileDetails["title"] else Str(DefaultTitle))
      && r.value.width == (if "width" in fileDetails then fileDetails["width"] else Int(DefaultWidth))
      && r.value.height == (if "height" in fileDetails then fileDetails["height"] else Int(DefaultHeight))
  {
    if "java_class_name" !in fileDetails || "filename" !in fileDetails then Failure(MissingFieldsError)
    else
      Success(AppletPage(
        PathJoin(outputDir, PageName),
        GetOr(fileDetails, "title", Str(DefaultTitle)),
        Get(fileDetails, "filename"),
        Get(fileDetails, "java_class_name"),
        GetOr(fileDetails, "width", Int(DefaultWidth)),
        GetOr(fileDetails, "height", Int(DefaultHeight))))
  }

  /** One call of `create_cheerpj_html`: the page written, if any, the paths that exist afterwards, and the returned pair. */
  datatype Emission = Emission(written: Option<AppletPage>, files: set<string>, success: bool, message: string)

  /** `writeError` is the error opening the page for writing raises, if any. */
  function EmitStep(files: set<string>, fileDetails: map<string, Json>, outputDir: string, writeError: Option<string>): (e: Emission)
    ensures e.success <==> e.written.Some?
    ensures e.success <==> CheerpjPage(fileDetails, outputDir).Success? && writeError.None?
    ensures e.success ==>
      && e.written == Some(CheerpjPage(fileDetails, outputDir).value)
      && e.message == PathJoin(outputDir, PageName) && e.files == files + {e.message}
    ensures !e.success ==> e.files == files
    ensures CheerpjPage(fileDetails, outputDir).Failure? ==> e.message == MissingFieldsError
    ensures CheerpjPage(fileDetails, outputDir).Success? && writeError.Some? ==>
      e.message == PageErrorPrefix + writeError.value
  {
    match CheerpjPage(fileDetails, outputDir)
    case Failure(error) => Emission(None, files, false, error)
    case Success(page) =>
      if writeError.Some? then Emission(None, files, false, PageErrorPrefix + writeError.value)
      else Emission(Some(page), files + {page.path}, true, page.path)
  }

  // ---------------------------------------------------------------------------
  // The archiver's filesystem state

  class Archiver {
    const downloadDir: string
    /** The paths that exist. */
    var files: set<string>
    /** The URL of every GET `download_file` issued, in order. */
    ghost var fetched: seq<Json>
    /** Every page `create_cheerpj_html` wrote, in order. */
    ghost var pages: seq<AppletPage>

    constructor(downloadDir: string, existing: set<string>)
      ensures this.downloadDir == downloadDir && files == existing
      ensures fetched == [] && pages == []
    {
      this.downloadDir := downloadDir;
      files := existing;
      fetched := [];
      pages := [];
    }

    /**
     * `download_file(url, filename, game_title, output_path)`: an existing
     * destination is reported as a success with no request; otherwise one
     * request goes out, and `outcome` decides the returned pair and whether
     * a file is left at the destination.
     */
    method DownloadFile(url: Json, filename: string, title: string, outputPath: Option<string>, outcome: TransferOutcome)
      returns (success: bool, pathOrError: string)
      modifies this
      ensures var t := DownloadStep(old(files), Destination(downloadDir, title, filename, outputPath), outcome);
        && success == t.success && pathOrError == t.message && files == t.files
        && fetched == old(fetched) + (if t.requested then [url] else [])
      ensures pages == old(pages)
    {
      var finalOutputPath: string;
      if outputPath.Some? && outputPath.value != "" {
        finalOutputPath := outputPath.value;
      } else {
        var gameDir := PathJoin(downloadDir, SafeTitle(title));
        finalOutputPath := PathJoin(gameDir, filename);
      }
      if finalOutputPath in files {
        return true, finalOutputPath;
      }
      fetched := fetched + [url];
      match outcome
      case Completed =>
        files := files + {finalOutputPath};
        success, pathOrError := true, finalOutputPath;
      case FailedBeforeWrite(reason) =>
        success, pathOrError := false, DownloadErrorPrefix + reason;
      case FailedDuringWrite(reason) =>
        files := files + {finalOutputPath};
        success, pathOrError := false, DownloadErrorPrefix + reason;
    }

    /** `create_cheerpj_html(file_details, output_dir)` */
    method CreateCheerpjHtml(fileDetails: map<string, Json>, outputDir: string, writeError: Option<string>)
      returns (success: bool, pathOrError: string)
      modifies this
      ensures var e := EmitStep(old(files), fileDetails, outputDir, writeError);
        && success == e.success && pathOrError == e.message && files == e.files
        && pages == old(pages) + (if e.written.Some? then [e.written.value] else [])
      ensures fetched == old(fetched)
    {
      if "java_class_name" !in fileDetails || "filename" !in fileDetails {
        return false, MissingFieldsError;
      }
      var page := AppletPage(
        PathJoin(outputDir, PageName),
        GetOr(fileDetails, "title", Str(DefaultTitle)),
        Get(fileDetails, "filename"),
        Get(fileDetails, "java_class_name"),
        GetOr(fileDetails, "width", Int(DefaultWidth)),
        GetOr(fileDetails, "height", Int(DefaultHeight)));
      if writeError.Some? {
        return false, PageErrorPrefix + writeError.value;
      }
      files := files + {page.path};
      pages := pages + [page];
      success, pathOrError := true, page.path;
    }
  }
}
