# GameJolt Java archiver — the decision core, in Dafny

`java-archiver.py` downloads the files of a GameJolt game. It is mostly HTTP
orchestration against one service. This project models the logic
underneath that orchestration and proves what it promises:

- **Game id.** Reading the numeric id of a `https://gamejolt.com/games/<slug>/<id>`
  page address (`extract_game_id_from_url`).
- **Token.** Reading the download token from a query string
  (`extract_token_from_url`), with `parse_qs`'s default handling of blank values.
- **File details.** Flattening the gameserver descriptor into the file-details
  record (`get_file_details`), by successive key insertions and the platform appends.
- **Title.** Sanitising a game title into a directory name (`create_game_directory`).
- **Download.** Choosing the destination in `download_file`, and its
  skip-if-exists short-circuit.
- **CheerpJ page.** The precondition of `create_cheerpj_html`, its 640×480 and
  `Game` defaults, and where the page is written.
- **Build loop.** The per-build decisions of `process_game`: which builds are
  queued as JARs, when Java information is collected, when a CheerpJ page is
  written, and the closing notices.

## Modules

- `Wrappers` holds `Option` and `Result`.
- `JsonValues` is decoded JSON with Python truthiness and `dict.get`.
- `Text` holds the `str` and `os.path` operations used: `split`, `strip`,
  `isdigit`/`int`, `lower`, POSIX `join` and `dirname`.
- `Urls` is a URL after `urlparse`, as a record.
- `GameIdResolver` and `TokenExtractor` are the two URL readers.
- `FileDetails` contains:
  - the function `FileDetailsOf`, built from four key groups;
  - the method `GetFileDetails`, which inserts key by key as the source does and is proved equal to it.
- `TitleSanitizer` is the directory-name rule.
- `Transfer` holds the transfer logic:
  - the class `Archiver`. Its `files` field is the set of paths that exist. Ghost logs record every GET issued and every page written;
  - `DownloadFile` and `CreateCheerpjHtml`, each specified by a step function.
- `Orchestrator` models the build loop:
  - `ProcessBuilds` is the `while` loop over the builds. Its invariant ties the archiver's state and the two lists to the left fold `Run` of `Step`;
  - `ProcessGame` is the whole of `process_game`;
  - the lemmas about `Run` state what a run does.

The network's answers are inputs:
- the game overview;
- each build's download descriptor, or `None`;
- how each streamed GET ends (`Completed`, `FailedBeforeWrite`, `FailedDuringWrite`);
- the error opening a page for writing, if any.

`process_game` builds its own archiver with the default download directory:
`GameJoltArchiver(verbose=verbose)` at java-archiver.py:473. So downloads go
under `downloads/` whatever `--download-dir` says. `ProcessGame` models exactly
that: it uses `DefaultDownloadDir`.

## Model

| member | source | states |
|---|---|---|
| GameIdResolver.ExtractGameId | java-archiver.py:83-100 | `extract_game_id_from_url` on a parsed URL. Its behaviour is stated by `ExtractGameIdCases`, `GameUrlResolves` and `LeadingMatchResolves`. |
| GameIdResolver.ExtractGameIdCases | java-archiver.py:83-100 | An id is returned only when the host passes the suffix test and the stripped path splits into at least three segments, the first `games`. Given those, an id is returned exactly when the last segment is all digits, and it is then that segment's value, or else when the regular expression matches, and it is then the leftmost match's value. |
| GameIdResolver.MatchAt | java-archiver.py:96 | Whether `/games/[^/]+/(\d+)/?` matches at one position, and the group's value. Its behaviour is stated by `MatchAtIff`, `MatchAtSound` and `MatchAtComplete`. |
| GameIdResolver.SearchFrom | java-archiver.py:96-98 | The left-to-right scan of `re.search` from a position. Its behaviour is stated by `SearchGameIdIsLeftmost`. |
| GameIdResolver.SearchGameId | java-archiver.py:96-98 | `re.search` over the whole path. Its behaviour is stated by `SearchGameIdIsLeftmost`. |
| GameIdResolver.SearchGameIdIsLeftmost | java-archiver.py:96-98 | `re.search` yields n exactly when some position matches with n and no earlier position matches. |
| GameIdResolver.MatchAtIff | java-archiver.py:96 | The expression matches at a position exactly when `/games/`, a non-empty slash-free slug, a slash and a maximal non-empty run of digits follow there. |
| GameIdResolver.MatchAtSound | java-archiver.py:96-98 | A match at a position has that shape, and its value is the value of the digit run. |
| GameIdResolver.MatchAtComplete | java-archiver.py:96-98 | Every text of that shape is the match at that position, with the digit run's value. |
| GameIdResolver.GameUrlResolves | java-archiver.py:83-93 | `/games/<slug>/<n>`, on any host ending in `gamejolt.com` and with any query, resolves to n, so id and decimal text round-trip. |
| GameIdResolver.LookalikeHostAccepted | java-archiver.py:83 | The host test is a plain suffix test: `evilgamejolt.com` is accepted. |
| GameIdResolver.LeadingMatchResolves | java-archiver.py:92-98 | When the last segment is not all digits, the digits right after a leading `/games/<slug>/` are the id. |
| GameIdResolver.StripGamePath | java-archiver.py:87 | Stripping `/` from `/games/<rest><digits>` removes only the leading slash. |
| GameIdResolver.GamePathSegments | java-archiver.py:87 | The segments of `/games/<slug>/<digits>` are exactly `games`, the slug and the digits. |
| Text.Split | java-archiver.py:87 | `str.split(sep)`. Stated by `SplitJoin`, `SplitAtSeparator` and `SplitWithoutSeparator`. |
| Text.Strip | java-archiver.py:340 | `str.strip(c)`. Stated by `StripShape` and `StripUnbordered`. |
| Text.StripUnbordered | java-archiver.py:340 | A string that neither starts nor ends with the character is left alone by `strip`. |
| Text.PathJoin | java-archiver.py:343 | POSIX `os.path.join` of two parts. Stated by `NestedJoin` and `DirnameOfJoin`. |
| Text.Dirname | java-archiver.py:556 | POSIX `os.path.dirname`. Stated by `DirnameOfJoin` and `NestedJoin`. |
| Text.Lower | java-archiver.py:534 | `str.lower()` on ASCII letters: same length, each character lowered. |
| Text.DigitsValueOfDecimal | java-archiver.py:92-93 | `int(str(n)) == n`. |
| Text.DecimalString | java-archiver.py:92-93 | `str(n)` passes `isdigit` and has no leading zero unless n is 0. |
| Text.SplitJoin | java-archiver.py:87 | Joining the pieces of `split` gives back the string, and no piece holds the separator. |
| Text.SplitAtSeparator | java-archiver.py:87 | A separator cuts the string into the piece before it and the pieces of the rest. |
| Text.SplitWithoutSeparator | java-archiver.py:87 | A string without the separator splits into itself. |
| Text.StripShape | java-archiver.py:87 | `strip` leaves a contiguous part of its input, surrounded only by the stripped character, that neither starts nor ends with it. |
| Text.DirnameOfJoin | java-archiver.py:556 | The directory of a file joined onto a directory is that directory. |
| Text.NestedJoin | java-archiver.py:296-298 | A name joined onto a slash-free sub-directory joined onto a directory is the three parts with a separator between each. Its directory part is the join of the first two. |
| TokenExtractor.ExtractToken | java-archiver.py:150-162 | `extract_token_from_url` on a parsed URL. Its behaviour is stated by `ExtractTokenIsFirstToken`, `ExtractTokenSpec` and `ExtractTokenIgnoresLocation`. |
| TokenExtractor.ParseQsl | java-archiver.py:151 | The name/value pairs `parse_qs` reads from a query, in order. Stated by `FieldPairs` and `FirstValueIsEarliest`. |
| TokenExtractor.Collect | java-archiver.py:151 | The grouping of those pairs by name. Stated by `CollectHoldsValues`. |
| TokenExtractor.ParseQs | java-archiver.py:151 | `parse_qs` with default flags. Stated by `CollectHoldsValues` and `BlankTokenSkipped`. |
| TokenExtractor.ExtractTokenIsFirstToken | java-archiver.py:150-162 | The whole extraction equals "the first `token` value of `parse_qsl`". The netloc/path branch never finds a token the first lookup missed. |
| TokenExtractor.ExtractTokenSpec | java-archiver.py:150-154 | The token is t exactly when `(token, t)` is a parsed pair with no earlier `token` pair. A token found is never blank. |
| TokenExtractor.ExtractTokenIgnoresLocation | java-archiver.py:157-160 | Changing the network location or the path never changes the token found. |
| TokenExtractor.BlankTokenSkipped | java-archiver.py:151-154 | In `token=&token=<t>`, the blank first value is dropped and t is returned. |
| TokenExtractor.CollectHoldsValues | java-archiver.py:151 | `parse_qs` holds a name exactly when the pairs give it a value, and then holds all its values in order. |
| TokenExtractor.FieldPairs | java-archiver.py:151 | `parse_qsl` with default flags never yields a blank value. |
| TokenExtractor.FirstValueIsEarliest | java-archiver.py:153-154 | The first value of a name comes from the earliest pair with that name. |
| TitleSanitizer.SafeTitle | java-archiver.py:339-340 | The comprehension, `strip()` and `replace(" ", "_")` of `create_game_directory`. Its behaviour is stated by `SafeTitleIsStripThenMap`, `SafeTitleShape`, `SafeTitleHasNoSlash` and `SafeTitleIdempotent`. |
| TitleSanitizer.SafeTitleShape | java-archiver.py:339-340 | The safe title has only letters, digits, `-` and `_`. It is as long as the title without its surrounding spaces. Each character is the corresponding character of the stripped title, or `_` where that character is a space or is not allowed. |
| TitleSanitizer.SafeTitleIsStripThenMap | java-archiver.py:339-340 | Sanitising is the same as stripping the spaces first and then mapping each character. |
| TitleSanitizer.KeepCharsStrip | java-archiver.py:339-340 | The character filter and `strip()` commute, because only a space is mapped to a space. |
| TitleSanitizer.KeepThenReplace | java-archiver.py:339-340 | The character filter followed by the space replacement maps each character to itself when allowed and to `_` otherwise. |
| TitleSanitizer.PathCharsOfStrip | java-archiver.py:339-340 | The mapped stripped title, read against the title: only allowed characters, surrounded in the title by spaces only, each one the title's character or `_`. |
| TitleSanitizer.PathCharsOfSlice | java-archiver.py:339 | Mapping a slice maps each character of the string it is cut from. |
| TitleSanitizer.PathCharsHaveNoSlash | java-archiver.py:339 | The mapped characters never include `/`. |
| TitleSanitizer.SafeTitleHasNoSlash | java-archiver.py:339-343 | A safe title never holds `/`, so it names a single directory under the download directory. |
| TitleSanitizer.SafeTitleIdempotent | java-archiver.py:339-340 | Sanitising a safe title changes nothing. |
| TitleSanitizer.SafeTitleOfPathChars | java-archiver.py:339-340 | A string made only of allowed characters is its own safe title. |
| TitleSanitizer.PlainTitle | java-archiver.py:339-340 | `My Game` becomes `My_Game`. |
| FileDetails.PlatformsSpec | java-archiver.py:247-253 | `platforms` is the in-order subsequence of Windows, Mac, Linux, Other whose flags are truthy. It has at most four entries and no duplicates, and each name is present exactly when its flag is truthy. |
| FileDetails.PlatformsOrdered | java-archiver.py:247-253 | `platforms` keeps the order of Windows, Mac, Linux, Other, so it has at most four entries and none twice. |
| FileDetails.PlatformsMembership | java-archiver.py:247-251 | Each of the four names is in `platforms` exactly when its flag is truthy. |
| FileDetails.CollectPlatforms | java-archiver.py:247-251 | The four conditional appends build exactly `Platforms` of the build. |
| FileDetails.PlatformsUnfolded | java-archiver.py:247-251 | The platform list is the four conditional appends in order. |
| FileDetails.SelectedIsSubsequence | java-archiver.py:247-251 | The selected names keep the order of the flag table. |
| FileDetails.SelectedMembership | java-archiver.py:247-251 | A name is selected exactly when one of its flags is truthy. |
| FileDetails.SubsequenceOfDistinct | java-archiver.py:247-251 | A subsequence of a list without duplicates has none, is no longer, and holds only its elements. |
| FileDetails.FileDetailsOf | java-archiver.py:229-274 | The record `get_file_details` returns, as the union of four key groups. Stated by `FileDetailsLookup`, the per-key lemmas and the two gating lemmas, and matched by `GetFileDetails`. |
| FileDetails.FilePart | java-archiver.py:231-237 | `download_url` is present exactly when `url` is. `filename` and `filesize` are present exactly when the build has a `primary_file`, and take its values. |
| FileDetails.BuildPart | java-archiver.py:239-258 | With a build, its id, type, timestamps and platforms are present. `width`/`height` are present exactly when `embed_width`/`embed_height` are truthy, so a 0 is dropped. Without a build, nothing. |
| FileDetails.GamePart | java-archiver.py:260-263 | `game_id` and `title` are present exactly when `game` is. |
| FileDetails.AppletPart | java-archiver.py:266-272 | `java_archive` and `java_codebase` are present exactly when `javaArchive` is truthy. `java_class_name` is present exactly when, in addition, the build's class name is truthy. |
| FileDetails.FileDetailsKeys | java-archiver.py:229-274 | No key outside the fifteen written by the source. |
| FileDetails.FileDetailsLookup | java-archiver.py:229-274 | A key is present exactly when its group gives it, and holds the value its group gives it. |
| FileDetails.PlatformsInDetails | java-archiver.py:239-253 | `platforms` is in the record exactly with a build, and holds the selected names. |
| FileDetails.WidthInDetails | java-archiver.py:255-256 | `width` is in the record exactly when the build's `embed_width` is truthy, and holds it. |
| FileDetails.HeightInDetails | java-archiver.py:257-258 | `height` is in the record exactly when the build's `embed_height` is truthy, and holds it. |
| FileDetails.ArchiveInDetails | java-archiver.py:266-268 | `java_archive` is in the record exactly when `javaArchive` is truthy, and holds it. |
| FileDetails.CodebaseInDetails | java-archiver.py:266-268 | `java_codebase` is in the record exactly when `javaArchive` is truthy. |
| FileDetails.ClassNameInDetails | java-archiver.py:266-272 | `java_class_name` is in the record exactly when `javaArchive` and the build's class name are both truthy, and holds the build's. |
| FileDetails.FileDetailsBuildGating | java-archiver.py:239-258 | On the whole record: platforms exactly with a build, and dimensions exactly when truthy and then truthy. |
| FileDetails.FileDetailsAppletGating | java-archiver.py:266-272 | On the whole record: `java_archive` and `java_codebase` each exactly with a truthy `javaArchive`. A class name comes only beside them, and then both it and the archive are truthy. |
| FileDetails.KeyGroupsDisjoint | java-archiver.py:229-272 | The four groups of keys never overlap, and together they are the fifteen output keys. |
| FileDetails.PutBuildFields | java-archiver.py:239-258 | The build block's insertions, with the platform appends, add exactly the build group to the record. |
| FileDetails.PutGameFields | java-archiver.py:260-263 | The game block's insertions add exactly the game group. |
| FileDetails.PutAppletFields | java-archiver.py:266-272 | The applet block's insertions add exactly the applet group. |
| FileDetails.GetFileDetails | java-archiver.py:229-274 | The successive insertions build exactly `FileDetailsOf`. |
| Transfer.GameDirectory | java-archiver.py:343 | `join(download_dir, safe_title)`. Stated by `DestinationInGameDirectory`. |
| Transfer.Destination | java-archiver.py:291-298 | The path `download_file` settles on. Stated by `OutputPathOverrides`, `EmptyOutputPathIgnored` and `DestinationInGameDirectory`. |
| Transfer.DownloadStep | java-archiver.py:291-334 | A request goes out exactly when the destination does not exist. Success means the destination was already there or the transfer completed, and the returned path then exists. A failure returns `Error downloading file: <reason>`. Only the destination can be added. |
| Transfer.SecondDownloadSkips | java-archiver.py:300-303 | After a call that left a file at its destination, a second call with that destination issues no request and reports success with the path. |
| Transfer.OutputPathOverrides | java-archiver.py:291-294 | A non-empty output path is the destination, whatever the filename or title. |
| Transfer.EmptyOutputPathIgnored | java-archiver.py:291-298 | An empty output path is falsy, so the file goes to `join(game_dir, filename)`. |
| Transfer.DestinationInGameDirectory | java-archiver.py:296-298 | Without an output path, for a non-empty download directory not ending in `/`, a title whose safe form is not empty and a filename without `/`: the file is `<download_dir>/<safe title>/<filename>` (the game directory of create_game_directory), and its directory part is that game directory. |
| Transfer.BlankTitleDestination | java-archiver.py:296-298 | Without an output path, a title whose safe form is empty (all spaces, say) puts a relative filename straight into the download directory, as `<download_dir>/<filename>`. |
| Transfer.CheerpjPage | java-archiver.py:377-391 | The page fails with the missing-fields message exactly when `java_class_name` or `filename` is absent. Otherwise it carries them, the title or `Game`, the width or 640, the height or 480, and the path `join(output_dir, "cheerpj.html")`, which is plain `cheerpj.html` for an empty `output_dir`. |
| Transfer.EmitStep | java-archiver.py:377-457 | A page is written exactly when the required fields are there and the file opens, and only then is the path added. A missing field writes nothing and returns the missing-fields message. A failed write returns `Error creating CheerpJ HTML file: <reason>` and leaves the paths as they were. |
| Transfer.Archiver.constructor | java-archiver.py:19-44 | A new archiver has its download directory, the existing paths, and empty logs. |
| Transfer.Archiver.DownloadFile | java-archiver.py:276-334 | The call's result, the new set of paths and the request log are those of `DownloadStep` on the chosen destination. |
| Transfer.Archiver.CreateCheerpjHtml | java-archiver.py:365-457 | The call's result, the new set of paths and the page log are those of `EmitStep`. |
| Orchestrator.IsJar | java-archiver.py:534 | `filename.lower().endswith('.jar')`. Stated by `JarQueueIsJars`. |
| Orchestrator.Step | java-archiver.py:515-557 | One iteration of the build loop. Stated by `StepWritesPage`, `StepPlaces` and, through `Run`, the run lemmas. |
| Orchestrator.JarStep | java-archiver.py:533-557 | The JAR branch of an iteration. Stated by `JarStepPages` and `JarStepPlaces`. |
| Orchestrator.Run | java-archiver.py:499-557 | The loop as a left fold of `Step`. Stated by `RunQueuesJars`, `RunCollectsJavaInfo`, `RunPagesAreCandidates` and the other run lemmas. |
| Orchestrator.Queued | java-archiver.py:533-534 | A resolved build whose primary filename is a JAR, with `download` on. Tied to the loop's test by `FilenameAgrees` and `RunQueuesJars`. |
| Orchestrator.JarQueue | java-archiver.py:533-535 | The reference JAR list. Stated by `JarQueueIsJars` and `JarQueueEmpty`, and matched by `RunQueuesJars`. |
| Orchestrator.Closing | java-archiver.py:559-571 | The closing Java-information block and the "No JAR files found" notice. Stated by `NoticeIffNoJar`. |
| Orchestrator.ProcessBuild | java-archiver.py:515-557 | One iteration moves the archiver's paths and logs, and the two lists, on as `Step` says. |
| Orchestrator.ArchiveJar | java-archiver.py:533-557 | The JAR branch queues the file, downloads it and writes its page when asked to, as `JarStep` says. |
| Orchestrator.ProcessBuilds | java-archiver.py:499-557 | The loop leaves the archiver's paths and logs, and the two lists, as the fold `Run` over the builds says. |
| Orchestrator.ProcessGame | java-archiver.py:473-573 | No game reports failure and no builds reports so, both with nothing touched: the paths are the existing ones, and no request or page is logged. Otherwise the report and the final state are those of `Run` with the default download directory. |
| Orchestrator.FilenameAgrees | java-archiver.py:235-237 | The record's filename is the descriptor's primary filename, or `''` without a primary file. |
| Orchestrator.UrlAgrees | java-archiver.py:232-233 | The record's `download_url` is the descriptor's `url`. |
| Orchestrator.DetailsAgree | java-archiver.py:232-237 | The record carries the descriptor's URL and primary filename unchanged, so the queue can be read off the descriptor. |
| Orchestrator.RunQueuesJars | java-archiver.py:533-535 | The JAR list is `JarQueue`: the URL and primary filename of each resolved build whose primary file is a JAR, in order. It does not depend on which files exist, how transfers end or whether pages get written. |
| Orchestrator.JarQueueIsJars | java-archiver.py:533-535 | Every queued filename, lowercased, ends in `.jar`. Nothing is queued without `download`. |
| Orchestrator.JarQueueEmptyWhenNoneQueued | java-archiver.py:533-535 | When no build is queued, the queue is empty. |
| Orchestrator.JarQueueHoldsQueued | java-archiver.py:533-535 | When some build is queued, the queue is not empty. |
| Orchestrator.JarQueueEmpty | java-archiver.py:533-535 | The queue is empty exactly when no build is queued. |
| Orchestrator.NoticeIffNoJar | java-archiver.py:570-571 | "No JAR files found" is printed exactly when downloading is on and no build was queued. |
| Orchestrator.NoDownloadNoEffects | java-archiver.py:534-557 | Without `download`, a run issues no request, writes no page and leaves the paths alone. |
| Orchestrator.FetchesAtMostQueued | java-archiver.py:534-550 | A run never issues more requests than it queues JARs. Requests and paths only grow. |
| Orchestrator.JarStepPlaces | java-archiver.py:545-550 | The JAR branch only adds paths, and leaves the destination in place unless the transfer was refused. |
| Orchestrator.StepPlaces | java-archiver.py:534-550 | One iteration only adds paths. A queued build whose transfer opened its file leaves its destination in place. |
| Orchestrator.RerunFetchesNothing | java-archiver.py:545-550 | When every queued destination exists, a run issues no request. |
| Orchestrator.RunPlacesAll | java-archiver.py:545-550 | A run whose transfers all opened their file leaves every queued destination in place. |
| Orchestrator.SecondRunFetchesNothing | java-archiver.py:545-550 | Running the same build descriptors again, after such a run, issues no request. |
| Orchestrator.OutputPathFetchesOnce | java-archiver.py:545-550 | With a non-empty output path, a run whose transfers all opened their file issues at most one request, and none when the path already exists. |
| Orchestrator.EmitterPreconditionHolds | java-archiver.py:553-557 | When the loop asks for a page, the emitter's missing-fields check never fails, and the page carries the game's title. |
| Orchestrator.PageDimensions | java-archiver.py:387-388 | The page's width and height are the build's truthy embed dimensions, or 640 and 480. They are never falsy. |
| Orchestrator.JavaInfoNamesClass | java-archiver.py:520-530 | Collected Java information always has a truthy class and archive. |
| Orchestrator.JarStepPages | java-archiver.py:553-557 | The JAR branch writes one page exactly when `create_cheerpj` is on, the download succeeded, `java_class_name` is present and the page opened. The page lies beside the JAR and carries the title, filename, class name and dimensions. |
| Orchestrator.QueuedStepPages | java-archiver.py:533-557 | For a queued build, the iteration's pages are those of the JAR branch, in the terms of `WritesPage` and `PageOf`. |
| Orchestrator.UnqueuedStepPages | java-archiver.py:533-534 | A build that is not queued writes no page. |
| Orchestrator.StepWritesPage | java-archiver.py:553-557 | One iteration writes a page exactly when `create_cheerpj` is on, the build is a queued JAR, its download succeeded, `java_class_name` is present and the page opened. That page is `PageOf` the build, at `join(dirname(destination), "cheerpj.html")`. |
| Orchestrator.RunPagesAreCandidates | java-archiver.py:499-557 | A run only appends pages. The appended pages are, in build order, a subsequence of `PageOf` the builds that are queued JARs with a class name while `create_cheerpj` is on. |
| FileDetails.SubsequenceConcat | java-archiver.py:553-557 | Subsequences of two lists concatenate to a subsequence of the joined lists. |
| Orchestrator.RunCollectsJavaInfo | java-archiver.py:520-530 | The Java-information list is `JavaInfoQueue`: `JavaInfoOf` each resolved build whose record has `java_class_name`, in order, when either flag is on. It does not depend on the filesystem or the transfers. |
| Orchestrator.NoPagesUnlessAsked | java-archiver.py:553-557 | Without `create_cheerpj`, no page is written. |
| Orchestrator.NoJavaInfoUnlessAsked | java-archiver.py:520-530 | Without `print_java_class` or `create_cheerpj`, no Java information is collected. |

## Left out

- The HTTP layer is left out because it is network I/O over the third-party `cloudscraper` library. This covers the session and its headers, `get_game_info`, `get_build_download_url`, `raise_for_status` and JSON decoding. Their results are inputs: the overview, each build's descriptor, and each transfer's outcome.
- The streamed chunk loop, `content-length`, `format_filesize` and `show_progress` are left out. They are byte I/O and float formatting. Only how a transfer ends is modelled.
- `format_timestamp` is left out because it depends on the clock's time zone.
- Verbose printing and the other console output are left out.
- Orchestrator.ProcessGame: the uncaught `KeyError`s and `TypeError`s of `process_game` are left out. Each aborts the whole run, possibly after earlier builds were downloaded. The model's `GameInfo` has a title and no `microdata`, and `BuildInput` has no id, so it assumes an overview with `microdata.name` and `microdata.url` (read at java-archiver.py:481-483) and builds that all have an `id` (read at java-archiver.py:515).
- Orchestrator.ProcessGame: with `verbose`, java-archiver.py:486-512 also raise on a missing `description`, `profileCount`, `downloadCount`, `playCount`, `type` or `added_on`, on an `aggregateRating` without its fields, on a `primary_file` without `filename`, and on a `filesize` that `int` rejects. The model assumes none of these happen.
- The HTML template text is left out. A page is modelled by the values put into it.
- `main` and argument parsing are left out, including its `if not game_id` test, which would also reject an id of 0.
- `os.makedirs` is left out. Directories are not tracked in the set of existing paths, so a failing `makedirs` is not modelled. An empty filename, whose destination would be the game directory itself, is not modelled either.
- `output_dir` at java-archiver.py:543 is computed but never used. Only its `create_game_directory` side effect, a directory, would matter.
- Transfer.EmitStep: an error raised while the page is written, after the file was opened, is modelled like an error on opening, so no file is left behind.
- GameIdResolver.ExtractGameId: the model treats only ASCII `0`-`9` as digits, both for `isdigit` and for the expression's `\d`. For an id written in other decimal digits, such as `/games/slug/١٢٣`, Python returns the number and the model returns None. Other `isdigit` characters, such as `²`, make `int()` raise in Python; the model returns None for them as well.
- TitleSanitizer.SafeTitle: `isalnum` is ASCII only. Other Unicode letters and digits become `_` in the model but are kept by Python.
- Text.Lower: lowers ASCII letters only.
- URLs are already-split records. `urlparse` itself is left out, and so are percent-decoding, ports, user information and fragments. `parse_qs` splits on `&` only, and its `+` to space decoding is kept.
- JSON floats are not modelled: numbers are integers.
- Orchestrator.Admissible: a descriptor on which `get_file_details` or `.lower()` would raise is excluded by a precondition. This covers a non-object `build`, `primary_file` or `game`, and a `None` filename.
- Transfer.DownloadStep: a build whose record has no `download_url` reaches `session.get(None)`, which raises before any connection, and the error is caught at java-archiver.py:331. The transfer outcome is an input, so the model accepts `Completed` for a `Null` URL. A caller modelling that case must pass `FailedBeforeWrite`.
- Concurrency and the ordering of console output are not modelled.
