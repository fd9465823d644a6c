/**
 * `process_game`: the per-build decisions of one run.  What the network
 * answers (the game overview, each build's download descriptor, how each
 * transfer ends) is given as input; the run is a left fold of `Step` over
 * the builds, and `ProcessBuilds` is the loop that performs it.
 */
module Orchestrator {
  import opened Wrappers
  import opened Text
  import opened JsonValues
  import opened FileDetails
  import opened Transfer

  /** The options of one run, as `process_game` receives them, with the archiver's download directory. */
  datatype Job = Job(
    downloadDir: string,
    title: string,
    outputPath: Option<string>,
    printJavaClass: bool,
    download: bool,
    createCheerpj: bool)

  /**
   * What the network gives for one build: the descriptor the download-URL
   * endpoint answered with (None when it failed), how the GET of its file
   * ends, and the error writing its CheerpJ page raises, if any.
   */
  datatype BuildInput = BuildInput(downloadInfo: Option<map<string, Json>>, transfer: TransferOutcome, pageWriteError: Option<string>)

  /** `if download_info:` */
  predicate Resolved(b: BuildInput) {
    b.downloadInfo.Some? && b.downloadInfo.value != map[]
  }

  /**
   * The descriptors the loop does not crash on: `get_file_details` needs
   * objects where it indexes, and `.lower()` needs a string filename.
   */
  predicate Admissible(b: BuildInput) {
    Resolved(b) ==>
      var info := b.downloadInfo.value;
      WellShaped(info) && (HasPrimaryFile(info) ==> Get(PrimaryFileOf(info), "filename").Str?)
  }

  predicate AllAdmissible(builds: seq<BuildInput>) {
    forall i :: 0 <= i < |builds| ==> Admissible(builds[i])
  }

  /** `file_details.get('filename', '')`, a string on admissible input. */
  function FilenameOf(fileDetails: map<string, Json>): string {
    if "filename" in fileDetails && fileDetails["filename"].Str? then fileDetails["filename"].s else ""
  }

  /** `filename.lower().endswith('.jar')` */
  predicate IsJar(filename: string) {
    EndsWith(Lower(filename), ".jar")
  }

  /** The `java_info` record, with its `''`, 640 and 480 defaults. */
  datatype JavaInfo = JavaInfo(
    filename: Json, javaClass: Json, javaArchive: Json, javaCodebase: Json,
    title: string, width: Json, height: Json)

  function JavaInfoOf(fileDetails: map<string, Json>, title: string): JavaInfo {
    JavaInfo(
      GetOr(fileDetails, "filename", Str("")),
      GetOr(fileDetails, "java_class_name", Str("")),
      GetOr(fileDetails, "java_archive", Str("")),
      GetOr(fileDetails, "java_codebase", Str("")),
      title,
      GetOr(fileDetails, "width", Int(DefaultWidth)),
      GetOr(fileDetails, "height", Int(DefaultHeight)))
  }

  /** The state the loop carries: the filesystem and the logs of the archiver, and the two lists. */
  datatype RunState = RunState(
    files: set<string>,
    fetched: seq<Json>,
    pages: seq<AppletPage>,
    jarFiles: seq<(Json, string)>,
    javaInfo: seq<JavaInfo>)

  /** `{**file_details, 'title': game_title}` */
  function WithTitle(fileDetails: map<string, Json>, title: string): map<string, Json> {
    fileDetails["title" := Str(title)]
  }

  /** The file details of a resolved build. */
  function DetailsOf(b: BuildInput): map<string, Json>
    requires Resolved(b) && Admissible(b)
  {
    FileDetailsOf(b.downloadInfo.value)
  }

  /** Queue the JAR, download it, and write its CheerpJ page when asked to and the download succeeded. */
  function JarStep(st: RunState, fileDetails: map<string, Json>, b: BuildInput, job: Job): RunState {
    var filename := FilenameOf(fileDetails);
    var url := Get(fileDetails, "download_url");
    var t := DownloadStep(st.files, Destination(job.downloadDir, job.title, filename, job.outputPath), b.transfer);
    var st := st.(
      files := t.files,
      fetched := st.fetched + (if t.requested then [url] else []),
      jarFiles := st.jarFiles + [(url, filename)]);
    if job.createCheerpj && t.success && "java_class_name" in fileDetails then
      var e := EmitStep(st.files, WithTitle(fileDetails, job.title), Dirname(t.message), b.pageWriteError);
      st.(files := e.files, pages := st.pages + (if e.written.Some? then [e.written.value] else []))
    else st
  }

  /** One iteration of `for build in game_info['builds']`. */
  function Step(st: RunState, b: BuildInput, job: Job): RunState
    requires Admissible(b)
  {
    if !Resolved(b) then st
    else
      var fileDetails := DetailsOf(b);
      var collect := "java_class_name" in fileDetails && (job.printJavaClass || job.createCheerpj);
      var st := st.(javaInfo := st.javaInfo + (if collect then [JavaInfoOf(fileDetails, job.title)] else []));
      if job.download && IsJar(FilenameOf(fileDetails)) then JarStep(st, fileDetails, b, job) else st
  }

  /** The state after the first `|builds|` iterations. */
  function Run(start: RunState, builds: seq<BuildInput>, job: Job): RunState
    requires AllAdmissible(builds)
    decreases |builds|
  {
    if builds == [] then start
    else Step(Run(start, builds[..|builds| - 1], job), builds[|builds| - 1], job)
  }

  // ---------------------------------------------------------------------------
  // Reference definitions that do not mention the filesystem

  /** The filename of a descriptor's primary file, read off the descriptor itself (`''` when there is none). */
  function DescriptorFilename(info: map<string, Json>): string
    requires WellShaped(info)
  {
    if HasPrimaryFile(info) && Get(PrimaryFileOf(info), "filename").Str? then Get(PrimaryFileOf(info), "filename").s else ""
  }

  /** The file details carry the descriptor's URL and primary filename unchanged. */
  lemma DetailsAgree(b: BuildInput)
    requires Admissible(b) && Resolved(b)
    ensures FilenameOf(DetailsOf(b)) == DescriptorFilename(b.downloadInfo.value)
    ensures Get(DetailsOf(b), "download_url") == Get(b.downloadInfo.value, "url")
  {
    FilenameAgrees(b);
    UrlAgrees(b);
  }

  lemma FilenameAgrees(b: BuildInput)
    requires Admissible(b) && Resolved(b)
    ensures FilenameOf(DetailsOf(b)) == DescriptorFilename(b.downloadInfo.value)
  {
    FileDetailsLookup(b.downloadInfo.value, "filename");
  }

  lemma UrlAgrees(b: BuildInput)
    requires Admissible(b) && Resolved(b)
    ensures Get(DetailsOf(b), "download_url") == Get(b.downloadInfo.value, "url")
  {
    FileDetailsLookup(b.downloadInfo.value, "download_url");
  }

  lemma AgreeIfResolved(b: BuildInput)
    requires Admissible(b)
    ensures Resolved(b) ==> FilenameOf(DetailsOf(b)) == DescriptorFilename(b.downloadInfo.value)
    ensures Resolved(b) ==> Get(DetailsOf(b), "download_url") == Get(b.downloadInfo.value, "url")
  {
    if Resolved(b) {
      DetailsAgree(b);
    }
  }

  /** Whether a build is queued as a JAR: downloading is on and its primary file is one. */
  predicate Queued(b: BuildInput, job: Job)
    requires Admissible(b)
  {
    job.download && Resolved(b) && IsJar(DescriptorFilename(b.downloadInfo.value))
  }

  /** The JAR queue of a list of builds: the URL and primary filename of each queued build, in order. */
  function JarQueue(builds: seq<BuildInput>, job: Job): seq<(Json, string)>
    requires AllAdmissible(builds)
    decreases |builds|
  {
    if builds == [] then []
    else
      var b := builds[|builds| - 1];
      JarQueue(builds[..|builds| - 1], job)
        + (if Queued(b, job) then [(Get(b.downloadInfo.value, "url"), DescriptorFilename(b.downloadInfo.value))] else [])
  }

  lemma PrefixAdmissible(builds: seq<BuildInput>)
    requires AllAdmissible(builds) && builds != []
    ensures AllAdmissible(builds[..|builds| - 1])
  {
    assert forall i :: 0 <= i < |builds| - 1 ==> builds[..|builds| - 1][i] == builds[i];
  }

  /**
   * The JAR queue depends only on the builds and the options: not on which
   * files exist, how transfers end, or whether pages get written.
   */
  lemma {:induction false} RunQueuesJars(start: RunState, builds: seq<BuildInput>, job: Job)
    requires AllAdmissible(builds)
    ensures Run(start, builds, job).jarFiles == start.jarFiles + JarQueue(builds, job)
    decreases |builds|
  {
    if builds != [] {
      PrefixAdmissible(builds);
      RunQueuesJars(start, builds[..|builds| - 1], job);
      AgreeIfResolved(builds[|builds| - 1]);
    }
  }

  /** Only JARs are queued, and nothing at all without `download`. */
  lemma {:induction false} JarQueueIsJars(builds: seq<BuildInput>, job: Job)
    requires AllAdmissible(builds)
    ensures forall i :: 0 <= i < |JarQueue(builds, job)| ==> IsJar(JarQueue(builds, job)[i].1)
    ensures !job.download ==> JarQueue(builds, job) == []
    decreases |builds|
  {
    if builds != [] {
      var init := builds[..|builds| - 1];
      PrefixAdmissible(builds);
      JarQueueIsJars(init, job);
      var q := JarQueue(builds, job);
      var qi := JarQueue(init, job);
      assert q[..|qi|] == qi;
      forall i | 0 <= i < |q| ensures IsJar(q[i].1) {
        if i < |qi| {
          assert q[i] == qi[i];
        }
      }
    }
  }

  lemma {:induction false} JarQueueEmptyWhenNoneQueued(builds: seq<BuildInput>, job: Job)
    requires AllAdmissible(builds)
    requires forall i :: 0 <= i < |builds| ==> !Queued(builds[i], job)
    ensures JarQueue(builds, job) == []
    decreases |builds|
  {
    if builds != [] {
      var init := builds[..|builds| - 1];
      PrefixAdmissible(builds);
      assert forall i :: 0 <= i < |init| ==> init[i] == builds[i];
      JarQueueEmptyWhenNoneQueued(init, job);
    }
  }

  lemma {:induction false} JarQueueHoldsQueued(builds: seq<BuildInput>, job: Job, i: nat)
    requires AllAdmissible(builds) && i < |builds| && Queued(builds[i], job)
    ensures JarQueue(builds, job) != []
    decreases |builds|
  {
    var init := builds[..|builds| - 1];
    PrefixAdmissible(builds);
    if i < |init| {
      assert init[i] == builds[i];
      JarQueueHoldsQueued(init, job, i);
      assert |JarQueue(builds, job)| >= |JarQueue(init, job)|;
    }
  }

  /** The queue is empty exactly when no build is queued. */
  lemma JarQueueEmpty(builds: seq<BuildInput>, job: Job)
    requires AllAdmissible(builds)
    ensures JarQueue(builds, job) == [] <==> forall i :: 0 <= i < |builds| ==> !Queued(builds[i], job)
  {
    if exists i :: 0 <= i < |builds| && Queued(builds[i], job) {
      var i :| 0 <= i < |builds| && Queued(builds[i], job);
      JarQueueHoldsQueued(builds, job, i);
    } else {
      JarQueueEmptyWhenNoneQueued(builds, job);
    }
  }

  /** A build with no descriptor, or with `download` off, leaves the filesystem and the request log alone. */
  lemma {:induction false} NoDownloadNoEffects(start: RunState, builds: seq<BuildInput>, job: Job)
    requires AllAdmissible(builds) && !job.download
    ensures Run(start, builds, job).files == start.files
    ensures Run(start, builds, job).fetched == start.fetched
    ensures Run(start, builds, job).pages == start.pages
    decreases |builds|
  {
    if builds != [] {
      PrefixAdmissible(builds);
      NoDownloadNoEffects(start, builds[..|builds| - 1], job);
    }
  }

  /** Every request downloads a queued JAR: there are never more requests than queued JARs. */
  lemma {:induction false} FetchesAtMostQueued(start: RunState, builds: seq<BuildInput>, job: Job)
    requires AllAdmissible(builds)
    ensures |Run(start, builds, job).fetched| - |start.fetched| <= |JarQueue(builds, job)|
    ensures start.fetched <= Run(start, builds, job).fetched
    ensures start.files <= Run(start, builds, job).files
    decreases |builds|
  {
    if builds != [] {
      PrefixAdmissible(builds);
      FetchesAtMostQueued(start, builds[..|builds| - 1], job);
      AgreeIfResolved(builds[|builds| - 1]);
    }
  }

  // ---------------------------------------------------------------------------
  // Skip-if-exists across a run

  /** The destination of a queued build. */
  function DestinationOf(b: BuildInput, job: Job): string
    requires Admissible(b) && Resolved(b)
  {
    Destination(job.downloadDir, job.title, DescriptorFilename(b.downloadInfo.value), job.outputPath)
  }

  /** Every queued build's destination already exists. */
  predicate AllInPlace(files: set<string>, builds: seq<BuildInput>, job: Job)
    requires AllAdmissible(builds)
  {
    forall i :: 0 <= i < |builds| && Queued(builds[i], job) ==> DestinationOf(builds[i], job) in files
  }

  /** No transfer is refused before its file is opened. */
  predicate NoneRefused(builds: seq<BuildInput>) {
    forall i :: 0 <= i < |builds| ==> !builds[i].transfer.FailedBeforeWrite?
  }

  /** When every destination exists, a run issues no request and leaves the filesystem's downloads alone. */
  lemma {:induction false} RerunFetchesNothing(start: RunState, builds: seq<BuildInput>, job: Job)
    requires AllAdmissible(builds) && AllInPlace(start.files, builds, job)
    ensures Run(start, builds, job).fetched == start.fetched
    ensures start.files <= Run(start, builds, job).files
    decreases |builds|
  {
    if builds != [] {
      var init := builds[..|builds| - 1];
      PrefixAdmissible(builds);
      assert forall i :: 0 <= i < |init| ==> init[i] == builds[i];
      RerunFetchesNothing(start, init, job);
      AgreeIfResolved(builds[|builds| - 1]);
    }
  }

  /** Queueing a JAR only adds files, and leaves its destination unless the transfer was refused. */
  lemma JarStepPlaces(st: RunState, fileDetails: map<string, Json>, b: BuildInput, job: Job)
    ensures st.files <= JarStep(st, fileDetails, b, job).files
    ensures !b.transfer.FailedBeforeWrite? ==>
      Destination(job.downloadDir, job.title, FilenameOf(fileDetails), job.outputPath) in JarStep(st, fileDetails, b, job).files
  {
  }

  /** One iteration only adds files, and a queued build whose transfer was not refused leaves its destination. */
  lemma StepPlaces(st: RunState, b: BuildInput, job: Job)
    requires Admissible(b) && !b.transfer.FailedBeforeWrite?
    ensures st.files <= Step(st, b, job).files
    ensures Queued(b, job) ==> DestinationOf(b, job) in Step(st, b, job).files
  {
    if Resolved(b) {
      var fileDetails := DetailsOf(b);
      var collect := "java_class_name" in fileDetails && (job.printJavaClass || job.createCheerpj);
      var st1 := st.(javaInfo := st.javaInfo + (if collect then [JavaInfoOf(fileDetails, job.title)] else []));
      JarStepPlaces(st1, fileDetails, b, job);
      FilenameAgrees(b);
    }
  }

  /** A run whose transfers all get as far as opening their file leaves every queued destination in place. */
  lemma {:induction false} RunPlacesAll(start: RunState, builds: seq<BuildInput>, job: Job)
    requires AllAdmissible(builds) && NoneRefused(builds)
    ensures AllInPlace(Run(start, builds, job).files, builds, job)
    decreases |builds|
  {
    if builds != [] {
      var init := builds[..|builds| - 1];
      var last := builds[|builds| - 1];
      PrefixAdmissible(builds);
      assert NoneRefused(init) by {
        forall i | 0 <= i < |init| ensures !init[i].transfer.FailedBeforeWrite? {
          assert init[i] == builds[i];
        }
      }
      RunPlacesAll(start, init, job);
      var mid := Run(start, init, job);
      var final := Run(start, builds, job);
      assert final == Step(mid, last, job);
      StepPlaces(mid, last, job);
      forall i | 0 <= i < |builds| && Queued(builds[i], job) ensures DestinationOf(builds[i], job) in final.files {
        if i < |init| {
          assert builds[i] == init[i];
          assert DestinationOf(init[i], job) in mid.files;
        }
      }
    }
  }

  /**
   * Running the same builds a second time, after a first run whose
   * transfers all got as far as opening their file, issues no request.
   */
  lemma SecondRunFetchesNothing(start: RunState, builds: seq<BuildInput>, job: Job, again: seq<BuildInput>)
    requires AllAdmissible(builds) && NoneRefused(builds)
    requires AllAdmissible(again) && |again| == |builds|
    requires forall i :: 0 <= i < |builds| ==> again[i].downloadInfo == builds[i].downloadInfo
    ensures var first := Run(start, builds, job);
      Run(first, again, job).fetched == first.fetched
  {
    RunPlacesAll(start, builds, job);
    var first := Run(start, builds, job);
    assert forall i :: 0 <= i < |again| && Queued(again[i], job) ==> DestinationOf(again[i], job) == DestinationOf(builds[i], job);
    RerunFetchesNothing(first, again, job);
  }

  /**
   * With a non-empty output path every JAR goes to that one path, so once
   * it exists nothing more is fetched: at most one request in a run whose
   * transfers all get as far as opening the file.
   */
  lemma {:induction false} OutputPathFetchesOnce(start: RunState, builds: seq<BuildInput>, job: Job, p: string)
    requires AllAdmissible(builds) && NoneRefused(builds)
    requires job.outputPath == Some(p) && p != ""
    ensures |Run(start, builds, job).fetched| <= |start.fetched| + (if p in start.files then 0 else 1)
    ensures p in start.files ==> p in Run(start, builds, job).files
    ensures |Run(start, builds, job).fetched| > |start.fetched| ==> p in Run(start, builds, job).files
    decreases |builds|
  {
    if builds != [] {
      var init := builds[..|builds| - 1];
      PrefixAdmissible(builds);
      assert NoneRefused(init) by {
        assert forall i :: 0 <= i < |init| ==> init[i] == builds[i];
      }
      OutputPathFetchesOnce(start, init, job, p);
      var mid := Run(start, init, job);
      var last := builds[|builds| - 1];
      FetchesAtMostQueued(mid, [last], job);
      assert Run(mid, [last], job) == Step(mid, last, job) by {
        assert [last][..0] == [];
      }
    }
  }

  // ---------------------------------------------------------------------------
  // CheerpJ pages and Java information

  /**
   * Inside the loop the emitter's own check never fails: a queued JAR has a
   * filename, and the page is only asked for when `java_class_name` is there.
   */
  lemma EmitterPreconditionHolds(fileDetails: map<string, Json>, title: string, outputDir: string)
    requires IsJar(FilenameOf(fileDetails)) && "java_class_name" in fileDetails
    ensures CheerpjPage(WithTitle(fileDetails, title), outputDir).Success?
    ensures CheerpjPage(WithTitle(fileDetails, title), outputDir).value.title == Str(title)
  {
    assert FilenameOf(fileDetails) != "";
  }

  /**
   * The page's dimensions: the build's `embed_width` and `embed_height`
   * when truthy, else 640 and 480; either way never a falsy value.
   */
  lemma PageDimensions(info: map<string, Json>, title: string, outputDir: string)
    requires WellShaped(info)
    requires CheerpjPage(WithTitle(FileDetailsOf(info), title), outputDir).Success?
    ensures var page := CheerpjPage(WithTitle(FileDetailsOf(info), title), outputDir).value;
      && page.width == (if "build" in info && Truthy(Get(BuildOf(info), "embed_width"))
                        then Get(BuildOf(info), "embed_width") else Int(DefaultWidth))
      && page.height == (if "build" in info && Truthy(Get(BuildOf(info), "embed_height"))
                         then Get(BuildOf(info), "embed_height") else Int(DefaultHeight))
      && Truthy(page.width) && Truthy(page.height)
  {
    WidthInDetails(info);
    HeightInDetails(info);
  }

  /** The collected Java information always names a class and an archive: both are truthy. */
  lemma JavaInfoNamesClass(info: map<string, Json>, title: string)
    requires WellShaped(info) && "java_class_name" in FileDetailsOf(info)
    ensures Truthy(JavaInfoOf(FileDetailsOf(info), title).javaClass)
    ensures Truthy(JavaInfoOf(FileDetailsOf(info), title).javaArchive)
  {
    ClassNameInDetails(info);
    ArchiveInDetails(info);
  }

  /** Whether a build gets a CheerpJ page when its download succeeds: asked to, a queued JAR, and a class name. */
  predicate PageCandidate(b: BuildInput, job: Job)
    requires Admissible(b)
  {
    job.createCheerpj && Queued(b, job) && "java_class_name" in DetailsOf(b)
  }

  /** Whether one iteration writes a page: a candidate whose download succeeded and whose page opened. */
  predicate WritesPage(files: set<string>, b: BuildInput, job: Job)
    requires Admissible(b)
  {
    PageCandidate(b, job) && DownloadStep(files, DestinationOf(b, job), b.transfer).success && b.pageWriteError.None?
  }

  /**
   * The page written for a build: beside its JAR, with the game's title,
   * the JAR's filename, the record's class name and the dimensions or their
   * 640 and 480 defaults.
   */
  function PageOf(b: BuildInput, job: Job): AppletPage
    requires Admissible(b) && Resolved(b)
  {
    AppletPage(
      PathJoin(Dirname(DestinationOf(b, job)), PageName),
      Str(job.title),
      Str(DescriptorFilename(b.downloadInfo.value)),
      Get(DetailsOf(b), "java_class_name"),
      GetOr(DetailsOf(b), "width", Int(DefaultWidth)),
      GetOr(DetailsOf(b), "height", Int(DefaultHeight)))
  }

  /** The JAR branch writes one page exactly when asked to, the download succeeded, a class name is there and the page opened. */
  lemma JarStepPages(st: RunState, fileDetails: map<string, Json>, b: BuildInput, job: Job)
    requires IsJar(FilenameOf(fileDetails))
    ensures var dest := Destination(job.downloadDir, job.title, FilenameOf(fileDetails), job.outputPath);
      var w := job.createCheerpj && DownloadStep(st.files, dest, b.transfer).success
        && "java_class_name" in fileDetails && b.pageWriteError.None?;
      JarStep(st, fileDetails, b, job).pages == st.pages +
        (if w then [AppletPage(PathJoin(Dirname(dest), PageName), Str(job.title), Str(FilenameOf(fileDetails)),
                               Get(fileDetails, "java_class_name"),
                               GetOr(fileDetails, "width", Int(DefaultWidth)),
                               GetOr(fileDetails, "height", Int(DefaultHeight)))] else [])
  {
    var dest := Destination(job.downloadDir, job.title, FilenameOf(fileDetails), job.outputPath);
    var t := DownloadStep(st.files, dest, b.transfer);
    if job.createCheerpj && t.success && "java_class_name" in fileDetails {
      EmitterPreconditionHolds(fileDetails, job.title, Dirname(t.message));
      assert fileDetails["filename"] == Str(FilenameOf(fileDetails));
    }
  }

  /** A queued build's iteration is the JAR branch on the record, after the Java information is collected. */
  lemma QueuedStepPages(st: RunState, b: BuildInput, job: Job)
    requires Admissible(b) && Queued(b, job)
    ensures Step(st, b, job).pages == st.pages + (if WritesPage(st.files, b, job) then [PageOf(b, job)] else [])
  {
    var fileDetails := DetailsOf(b);
    var collect := "java_class_name" in fileDetails && (job.printJavaClass || job.createCheerpj);
    var st1 := st.(javaInfo := st.javaInfo + (if collect then [JavaInfoOf(fileDetails, job.title)] else []));
    FilenameAgrees(b);
    assert Step(st, b, job) == JarStep(st1, fileDetails, b, job);
    JarStepPages(st1, fileDetails, b, job);
  }

  /** A build that is not queued leaves the pages alone. */
  lemma UnqueuedStepPages(st: RunState, b: BuildInput, job: Job)
    requires Admissible(b) && !Queued(b, job)
    ensures Step(st, b, job).pages == st.pages
  {
    if Resolved(b) {
      FilenameAgrees(b);
    }
  }

  /**
   * One iteration writes a page exactly when `WritesPage` holds, and the
   * page is `PageOf` the build.
   */
  lemma StepWritesPage(st: RunState, b: BuildInput, job: Job)
    requires Admissible(b)
    ensures |Step(st, b, job).pages| > |st.pages| <==> WritesPage(st.files, b, job)
    ensures Step(st, b, job).pages == st.pages + (if WritesPage(st.files, b, job) then [PageOf(b, job)] else [])
  {
    if Queued(b, job) {
      QueuedStepPages(st, b, job);
    } else {
      UnqueuedStepPages(st, b, job);
    }
  }

  /** The pages a run could write: `PageOf` each candidate build, in order. */
  function PageCandidates(builds: seq<BuildInput>, job: Job): seq<AppletPage>
    requires AllAdmissible(builds)
    decreases |builds|
  {
    if builds == [] then []
    else
      var b := builds[|builds| - 1];
      PageCandidates(builds[..|builds| - 1], job) + (if PageCandidate(b, job) then [PageOf(b, job)] else [])
  }

  /** A write that needs the candidate condition appends a subsequence of what the candidate would. */
  lemma SingletonSubsequence(w: bool, c: bool, x: AppletPage)
    requires w ==> c
    ensures IsSubsequence(if w then [x] else [], if c then [x] else [])
  {
    if w {
      assert [x][1..] == [];
    }
  }

  /** Appending to both sides keeps the appended part of a log a subsequence of the appended candidates. */
  lemma SubsequenceGrows(start: seq<AppletPage>, mid: seq<AppletPage>, extra: seq<AppletPage>,
                         cands: seq<AppletPage>, candidate: seq<AppletPage>)
    requires start <= mid && IsSubsequence(mid[|start|..], cands) && IsSubsequence(extra, candidate)
    ensures start <= mid + extra && IsSubsequence((mid + extra)[|start|..], cands + candidate)
  {
    assert (mid + extra)[|start|..] == mid[|start|..] + extra;
    SubsequenceConcat(mid[|start|..], cands, extra, candidate);
  }

  /**
   * A run only appends pages, and the pages it appends are candidates'
   * pages, in build order, each at most once.
   */
  lemma {:induction false} RunPagesAreCandidates(start: RunState, builds: seq<BuildInput>, job: Job)
    requires AllAdmissible(builds)
    ensures start.pages <= Run(start, builds, job).pages
    ensures IsSubsequence(Run(start, builds, job).pages[|start.pages|..], PageCandidates(builds, job))
    decreases |builds|
  {
    if builds == [] {
      assert Run(start, builds, job).pages[|start.pages|..] == [];
    } else {
      var init := builds[..|builds| - 1];
      var last := builds[|builds| - 1];
      PrefixAdmissible(builds);
      RunPagesAreCandidates(start, init, job);
      var mid := Run(start, init, job);
      StepWritesPage(mid, last, job);
      if PageCandidate(last, job) {
        SingletonSubsequence(WritesPage(mid.files, last, job), true, PageOf(last, job));
      }
      SubsequenceGrows(start.pages, mid.pages,
        if WritesPage(mid.files, last, job) then [PageOf(last, job)] else [],
        PageCandidates(init, job),
        if PageCandidate(last, job) then [PageOf(last, job)] else []);
    }
  }

  /** Whether a build adds Java information: resolved, a class name in its record, and one of the two flags. */
  predicate CollectsJavaInfo(b: BuildInput, job: Job)
    requires Admissible(b)
  {
    Resolved(b) && "java_class_name" in DetailsOf(b) && (job.printJavaClass || job.createCheerpj)
  }

  /** The Java information of a list of builds: `JavaInfoOf` each build that adds it, in order. */
  function JavaInfoQueue(builds: seq<BuildInput>, job: Job): seq<JavaInfo>
    requires AllAdmissible(builds)
    decreases |builds|
  {
    if builds == [] then []
    else
      var b := builds[|builds| - 1];
      JavaInfoQueue(builds[..|builds| - 1], job)
        + (if CollectsJavaInfo(b, job) then [JavaInfoOf(DetailsOf(b), job.title)] else [])
  }

  /** The Java information list is `JavaInfoQueue` of the builds, whatever the filesystem and the transfers do. */
  lemma {:induction false} RunCollectsJavaInfo(start: RunState, builds: seq<BuildInput>, job: Job)
    requires AllAdmissible(builds)
    ensures Run(start, builds, job).javaInfo == start.javaInfo + JavaInfoQueue(builds, job)
    decreases |builds|
  {
    if builds != [] {
      PrefixAdmissible(builds);
      RunCollectsJavaInfo(start, builds[..|builds| - 1], job);
    }
  }

  /** Without `create_cheerpj` no page is written. */
  lemma {:induction false} NoPagesUnlessAsked(start: RunState, builds: seq<BuildInput>, job: Job)
    requires AllAdmissible(builds) && !job.createCheerpj
    ensures Run(start, builds, job).pages == start.pages
    decreases |builds|
  {
    if builds != [] {
      PrefixAdmissible(builds);
      NoPagesUnlessAsked(start, builds[..|builds| - 1], job);
    }
  }

  /** Without `print_java_class` or `create_cheerpj` no Java information is collected. */
  lemma {:induction false} NoJavaInfoUnlessAsked(start: RunState, builds: seq<BuildInput>, job: Job)
    requires AllAdmissible(builds) && !job.printJavaClass && !job.createCheerpj
    ensures Run(start, builds, job).javaInfo == start.javaInfo
    decreases |builds|
  {
    if builds != [] {
      PrefixAdmissible(builds);
      NoJavaInfoUnlessAsked(start, builds[..|builds| - 1], job);
    }
  }

  // ---------------------------------------------------------------------------
  // The loop and the report

  /** One iteration of the loop: the archiver's state and the two lists move on as `Step` says. */
  method ProcessBuild(archiver: Archiver, b: BuildInput, job: Job, jarFilesIn: seq<(Json, string)>, javaInfoIn: seq<JavaInfo>)
    returns (jarFiles: seq<(Json, string)>, javaInfo: seq<JavaInfo>)
    requires Admissible(b) && archiver.downloadDir == job.downloadDir
    modifies archiver
    ensures RunState(archiver.files, archiver.fetched, archiver.pages, jarFiles, javaInfo)
      == Step(RunState(old(archiver.files), old(archiver.fetched), old(archiver.pages), jarFilesIn, javaInfoIn), b, job)
  {
    ghost var st0 := RunState(archiver.files, archiver.fetched, archiver.pages, jarFilesIn, javaInfoIn);
    jarFiles, javaInfo := jarFilesIn, javaInfoIn;
    if b.downloadInfo.Some? && b.downloadInfo.value != map[] {
      var fileDetails := GetFileDetails(b.downloadInfo.value);
      assert fileDetails == DetailsOf(b);
      if "java_class_name" in fileDetails && (job.printJavaClass || job.createCheerpj) {
        javaInfo := javaInfo + [JavaInfoOf(fileDetails, job.title)];
      }
      ghost var st1 := st0.(javaInfo := javaInfo);
      if job.download && IsJar(FilenameOf(fileDetails)) {
        assert Step(st0, b, job) == JarStep(st1, fileDetails, b, job);
        jarFiles := ArchiveJar(archiver, fileDetails, b, job, jarFiles, javaInfo);
      } else {
        assert Step(st0, b, job) == st1;
      }
    }
  }

  /** The JAR branch of an iteration: queue the file, download it, and write its page when asked to. */
  method ArchiveJar(archiver: Archiver, fileDetails: map<string, Json>, b: BuildInput, job: Job,
                    jarFilesIn: seq<(Json, string)>, javaInfo: seq<JavaInfo>)
    returns (jarFiles: seq<(Json, string)>)
    requires archiver.downloadDir == job.downloadDir
    modifies archiver
    ensures RunState(archiver.files, archiver.fetched, archiver.pages, jarFiles, javaInfo)
      == JarStep(RunState(old(archiver.files), old(archiver.fetched), old(archiver.pages), jarFilesIn, javaInfo), fileDetails, b, job)
  {
    var filename := FilenameOf(fileDetails);
    var url := Get(fileDetails, "download_url");
    jarFiles := jarFilesIn + [(url, filename)];
    var success, jarPath := archiver.DownloadFile(url, filename, job.title, job.outputPath, b.transfer);
    if job.createCheerpj && success && "java_class_name" in fileDetails {
      var _, _ := archiver.CreateCheerpjHtml(WithTitle(fileDetails, job.title), Dirname(jarPath), b.pageWriteError);
    }
  }

  /** The loop over the builds, on the archiver's state and the two lists. */
  method ProcessBuilds(archiver: Archiver, builds: seq<BuildInput>, job: Job)
    returns (jarFiles: seq<(Json, string)>, javaInfo: seq<JavaInfo>)
    requires AllAdmissible(builds) && archiver.downloadDir == job.downloadDir
    modifies archiver
    ensures var run := Run(RunState(old(archiver.files), old(archiver.fetched), old(archiver.pages), [], []), builds, job);
      && archiver.files == run.files && archiver.fetched == run.fetched && archiver.pages == run.pages
      && jarFiles == run.jarFiles && javaInfo == run.javaInfo
  {
    ghost var start := RunState(archiver.files, archiver.fetched, archiver.pages, [], []);
    jarFiles, javaInfo := [], [];
    var i := 0;
    while i < |builds|
      invariant 0 <= i <= |builds|
      invariant AllAdmissible(builds[..i])
      invariant var run := Run(start, builds[..i], job);
        && archiver.files == run.files && archiver.fetched == run.fetched && archiver.pages == run.pages
        && jarFiles == run.jarFiles && javaInfo == run.javaInfo
    {
      var b := builds[i];
      assert builds[..i + 1][..i] == builds[..i];
      assert AllAdmissible(builds[..i + 1]) by {
        assert forall k :: 0 <= k < i + 1 ==> builds[..i + 1][k] == builds[k];
      }
      jarFiles, javaInfo := ProcessBuild(archiver, b, job, jarFiles, javaInfo);
      i := i + 1;
    }
    assert builds[..i] == builds;
  }

  /** The overview of a game: its title and its builds (an absent `builds` is an empty list). */
  datatype GameInfo = GameInfo(title: string, builds: seq<BuildInput>)

  /** What `process_game` ends with. */
  datatype Report =
    | GameNotFound
    | NoBuilds(title: string)
    | Processed(title: string, jarFiles: seq<(Json, string)>, javaInfo: seq<JavaInfo>,
                showJavaInfo: bool, noJarNotice: bool)

  /** The closing lines: the Java information when asked for and any was collected, the notice when downloading found no JAR. */
  function Closing(title: string, jarFiles: seq<(Json, string)>, javaInfo: seq<JavaInfo>, job: Job): Report {
    Processed(title, jarFiles, javaInfo, job.printJavaClass && javaInfo != [], jarFiles == [] && job.download)
  }

  /** `process_game` on a fresh archiver in the default download directory. */
  method ProcessGame(game: Option<GameInfo>, existing: set<string>, outputPath: Option<string>,
                     printJavaClass: bool, download: bool, createCheerpj: bool)
    returns (report: Report, archiver: Archiver)
    requires game.Some? ==> AllAdmissible(game.value.builds)
    ensures fresh(archiver) && archiver.downloadDir == DefaultDownloadDir
    ensures game.None? ==>
      report == GameNotFound && archiver.files == existing && archiver.fetched == [] && archiver.pages == []
    ensures game.Some? && game.value.builds == [] ==>
      report == NoBuilds(game.value.title) && archiver.files == existing && archiver.fetched == [] && archiver.pages == []
    ensures game.Some? && game.value.builds != [] ==>
      var job := Job(DefaultDownloadDir, game.value.title, outputPath, printJavaClass, download, createCheerpj);
      var run := Run(RunState(existing, [], [], [], []), game.value.builds, job);
      && report == Closing(game.value.title, run.jarFiles, run.javaInfo, job)
      && archiver.files == run.files && archiver.fetched == run.fetched && archiver.pages == run.pages
  {
    archiver := new Archiver(DefaultDownloadDir, existing);
    if game.None? {
      return GameNotFound, archiver;
    }
    var info := game.value;
    if info.builds == [] {
      return NoBuilds(info.title), archiver;
    }
    var job := Job(DefaultDownloadDir, info.title, outputPath, printJavaClass, download, createCheerpj);
    var jarFiles, javaInfo := ProcessBuilds(archiver, info.builds, job);
    report := Closing(info.title, jarFiles, javaInfo, job);
  }

  /**
   * The "No JAR files found" notice appears exactly when downloading is on
   * and no build was queued as a JAR.
   */
  lemma NoticeIffNoJar(start: RunState, builds: seq<BuildInput>, job: Job)
    requires AllAdmissible(builds) && start.jarFiles == []
    ensures var run := Run(start, builds, job);
      Closing(job.title, run.jarFiles, run.javaInfo, job).noJarNotice <==>
        job.download && forall i :: 0 <= i < |builds| ==> !Queued(builds[i], job)
  {
    RunQueuesJars(start, builds, job);
    JarQueueEmpty(builds, job);
  }
}
