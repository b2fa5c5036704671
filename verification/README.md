# scrapingknife download core, modelled in Dafny

scrapingknife downloads the file behind a URL. A headless browser first
navigates to the page and reads back the URL it lands on (the content URL).
A curl handle then fetches that URL into a temporary file, and the file is
renamed onto the requested output path. This project models the part of
`src/scrapingknife/__init__.py` that decides whether an output may be
written and in which order the steps run:

- `Downloader.can_output_to_file` and `Downloader.create_tempfile` (module `OutputGuard`);
- `Downloader.__call__`, the check / navigate / resolve / temp path /
  download / re-check / rename sequence (module `Downloader`);
- `ContentDownload`: `__init__`, `__call__`, `set_resume`, `finish` and
  `refresh`, as a state machine over an abstract transport (module `Transfer`);
- the zero-total guard of `PluggableProgress.__call__` (module `Progress`).

Two supporting modules model what the code calls into. `Paths` covers
`os.path.abspath` and `dirname`: a path string is split at `/` and walked
from the working directory or the root, and the result is a canonical
`Path`, the sequence of names from the root. `FileSystem` is an immutable
record of directories and files with the calls `isdir`, `exists`,
`getsize`, `open(path, 'w+b')` and `rename`. Every operation is a pure
function. The browser, the server, the connection, the progress callbacks
curl makes and a concurrent writer are all inputs, gathered in
`Downloader.World`.

The model follows the code where the code and the design intent disagree:

- `continue_at` only chooses the temporary path (line 162). `__call__`
  passes no resume argument (line 164), and `ContentDownload` opens the
  file truncating (line 66). A run with `continue_at` therefore fetches
  from byte 0 and discards what the file held before.
- The temporary path is always the deterministic `<abspath>.downloading`
  when `continue_at` is empty. The random-name variant
  `create_tempfile_strict` is never called.
- The browser is never closed by `__call__`; a caller has to call `close`.
  Used in a `with` block, `__enter__` works and the body runs, but leaving
  the block calls `__exit__` with three arguments it does not accept, so it
  raises `TypeError` before `close` is called.
- Size lookup, open and rename failures are raised as the operating
  system's own errors: `FileNotFoundError`, `IsADirectoryError`, and
  `NotADirectoryError` when the lookup runs into a regular file on the way
  (as for `a/x` with `a` a file). The model keeps open and rename failures
  apart by the step that raised them (`DownloadError` vs `RenameError`).
- When `set_resume` fails to look up the resume target's size, it raises
  before `start()` and outside the `try`. In that case neither `finish` nor
  `refresh` runs.

## Model

| member | source | states |
|---|---|---|
| `OutputGuard.CanOutputToFile` | src/scrapingknife/__init__.py:128-141 | A missing output directory refuses, whatever `force` is. With the directory present, the check passes exactly when `force` is set or the path does not exist. The returning mode never raises and the raising mode never returns False. A raised error names the missing directory or the existing path. |
| `OutputGuard.RaisingAgreesWithReturning` | src/scrapingknife/__init__.py:128-141 | The raising call passes exactly when the returning call answers True. It raises exactly when the returning call answers False. |
| `OutputGuard.ForceOverridesExisting` | src/scrapingknife/__init__.py:136-141 | With the output directory present and `force` set, the check passes even over an existing file. |
| `OutputGuard.CheckReadsOnlyTwoEntries` | src/scrapingknife/__init__.py:130-141 | The check is a pure predicate. It reads only the output directory and the output path, so it gives the same answer on any two filesystems that agree on those two entries. |
| `OutputGuard.CreateTempfile` | src/scrapingknife/__init__.py:143-145 | The result has the absolute path string as a strict prefix, and `.downloading` is the rest. It resolves to the output's sibling in the same directory and never to the output path itself. |
| `OutputGuard.Sibling` | src/scrapingknife/__init__.py:145 | The path the temporary name lands on is canonical, is never the output path itself, and lies in the same directory. |
| `OutputGuard.RenderSibling` | src/scrapingknife/__init__.py:145 | Appending `.downloading` to the absolute path string gives the string of the sibling path. |
| `Paths.Split` | src/scrapingknife/__init__.py:130 | The slash-separated pieces `abspath` works on: at least one piece, and none contains a slash. |
| `Paths.FirstSlash` | src/scrapingknife/__init__.py:130 | The position `split` cuts at is a slash with no slash before it. |
| `Paths.SplitAt` | src/scrapingknife/__init__.py:130 | A string splits at any slash that has no slash before it: the piece before it, then the pieces of the rest. |
| `Paths.SplitConcat` | src/scrapingknife/__init__.py:130 | Splitting two strings joined by a slash gives the pieces of the first followed by the pieces of the second. |
| `Paths.SplitJoin` | src/scrapingknife/__init__.py:130 | Splitting undoes joining for pieces without slashes. |
| `Paths.JoinSplit` | src/scrapingknife/__init__.py:130 | Joining the pieces with slashes gives back the original string. |
| `Paths.Walk` | src/scrapingknife/__init__.py:130 | Normalising (skip empty and `.`, climb on `..`, never above the root) always yields a canonical path. |
| `Paths.AbsPath` | src/scrapingknife/__init__.py:130 | `abspath` always yields a canonical absolute path: no empty, `.` or `..` name and no slash inside a name. |
| `Paths.Parent` | src/scrapingknife/__init__.py:130 | `dirname` of an absolute path other than the root drops exactly its last name: the result is one name shorter and a prefix of the path. |
| `Paths.Render` | src/scrapingknife/__init__.py:145 | The string of an absolute path always starts with a slash. |
| `Paths.WalkNames` | src/scrapingknife/__init__.py:130 | Walking through plain names only appends them. |
| `Paths.AbsPathOfRender` | src/scrapingknife/__init__.py:145 | The string `abspath` produces resolves back to the same path from any working directory. |
| `Paths.AbsPathIdempotent` | src/scrapingknife/__init__.py:145 | `abspath(abspath(s)) == abspath(s)`. |
| `FileSystem.Resolve` | src/scrapingknife/__init__.py:136 | The entry a path string names is canonical, and a string names nothing exactly when it is empty. |
| `FileSystem.IsDir` | src/scrapingknife/__init__.py:131 | `isdir` is false for a string that names nothing. |
| `FileSystem.Exists` | src/scrapingknife/__init__.py:136 | `exists` is false for a string that names nothing. |
| `FileSystem.Missing` | src/scrapingknife/__init__.py:66 | The error for a string that names no entry carries that string. It is `NotADirectoryError` exactly when a proper ancestor of the path is a regular file, `FileNotFoundError` otherwise, and never `IsADirectoryError`. |
| `FileSystem.ThroughFileIsNotADirectory` | src/scrapingknife/__init__.py:66 | On a well-formed filesystem, a path below a regular file names no entry, and both `getsize` and `open(path, 'w+b')` fail on it with `NotADirectoryError`. |
| `FileSystem.GetSize` | src/scrapingknife/__init__.py:91 | `getsize` succeeds exactly on a file and gives its byte count. Otherwise it raises an error naming the string it was given. |
| `FileSystem.OpenTruncate` | src/scrapingknife/__init__.py:66 | `open(path, 'w+b')` succeeds exactly when the path is not a directory and its directory exists. It then leaves an empty file there and changes nothing else. |
| `FileSystem.WriteAll` | src/scrapingknife/__init__.py:67-68 | The open file holds exactly the bytes written, and every other entry is unchanged. |
| `FileSystem.Rename` | src/scrapingknife/__init__.py:167 | `rename` succeeds exactly when the source is a file, the target is not a directory and the target's directory exists. The target then holds the source's bytes, the source is gone unless it is the target, and the other entries are untouched. |
| `Progress.Notify` | src/scrapingknife/__init__.py:46-49 | A tick with a zero download total leaves the bar unchanged. Any other tick sends exactly one update carrying its counts. |
| `Progress.Shown` | src/scrapingknife/__init__.py:46-49 | Reference filter of the updates a run of ticks should produce. No update has a zero total, and there are no more updates than ticks. |
| `Progress.NotifyAllShows` | src/scrapingknife/__init__.py:46-49 | Feeding ticks through the guard one by one appends exactly the reference updates, in order. The guard preserves the invariant that no update divides by zero. |
| `Progress.UnknownTotalShowsNothing` | src/scrapingknife/__init__.py:47-49 | A transfer whose total is never reported sends the bar no update. |
| `Transfer.Refresh` | src/scrapingknife/__init__.py:72-83 | `refresh` installs a new handle with no URL and no resume offset, counts it, and keeps the same bar. |
| `Transfer.NewSession` | src/scrapingknife/__init__.py:54-57 | A new `ContentDownload` has one clean handle and an idle bar with no updates. |
| `Transfer.FinishSession` | src/scrapingknife/__init__.py:101-103 | `finish` stops the bar, keeps its updates, and recreates the handle. |
| `Transfer.SetResume` | src/scrapingknife/__init__.py:89-92 | `set_resume` succeeds exactly when the target is a file. It then sets the resume offset to the file's size and changes nothing else; otherwise it raises. |
| `Transfer.Perform` | src/scrapingknife/__init__.py:68 | The transfer fetches the handle's URL from its resume offset. It writes a prefix of the body from that offset, and the whole rest of the body exactly when it reports no error. An unknown URL or an offset past the end writes nothing and fails. |
| `Transfer.Fetch` | src/scrapingknife/__init__.py:59-70 | If the resume target's size cannot be read, the disk, bar and handle count are untouched and an `OSError` naming the target is raised. Otherwise the bar is finished and the handle recreated, on success and failure alike. A session without a resume offset keeps none. |
| `Transfer.TransferInto` | src/scrapingknife/__init__.py:64-70 | Whether or not the output opens, the bar ends stopped and the handle is recreated. An `OSError` is raised exactly when the output does not open, and then the disk is unchanged. |
| `Transfer.FetchFromStart` | src/scrapingknife/__init__.py:59-70 | Without `continue_`, an unopenable output leaves the disk unchanged. Otherwise the output file holds a prefix of the body from byte 0, the whole body exactly when no error is raised, and no other file changes. |
| `Transfer.ResumeIntoSameFileKeepsOnlyTail` | src/scrapingknife/__init__.py:59-70 | Resuming into the file whose size gave the offset truncates it. After a complete transfer the file holds only the body past the offset, so it differs from the body when the offset is positive. |
| `Downloader.Intrude` | src/scrapingknife/__init__.py:166 | Another process's write during the transfer lands only where a file can be. It keeps the filesystem well formed, leaves directories alone, and changes no file other than its own. |
| `Downloader.TempFor` | src/scrapingknife/__init__.py:162 | The temporary path string chosen is never empty. |
| `Downloader.Call` | src/scrapingknife/__init__.py:154-167 | A run keeps the filesystem well formed and never changes its directories. The session never gains a resume offset. At most three outward steps happen, and a successful run performs all three. |
| `Downloader.CallReachesStage` | src/scrapingknife/__init__.py:155-164 | A run whose first check passes and whose browser yields a content URL is the download stage on that URL, after the navigation step. Any other run stops after at most the navigation step, raising an error, with the disk and session untouched. |
| `Downloader.DownloadStage` | src/scrapingknife/__init__.py:164-167 | Whatever the transfer does, the session ends with one more clean handle and a stopped bar. The first step is the download into the temporary path, and a completed run takes exactly one more step. |
| `Downloader.Commit` | src/scrapingknife/__init__.py:166-167 | The rename is skipped exactly when the second check refuses, and exactly then the error is an `OutputFileError`. A refused or failed rename leaves the disk as the transfer left it. A rename that succeeds puts the temporary file's bytes at the output path and removes the temporary path unless the two are the same. |
| `Downloader.RefusedOutputDoesNothing` | src/scrapingknife/__init__.py:155-156 | A run takes no outward step exactly when the first check refuses. It then leaves the filesystem and session untouched and raises `OutputFileError`. |
| `Downloader.NavigationFailureStops` | src/scrapingknife/__init__.py:155-156 | When the first check passes and `browser.get` raises, the run ends after navigating with `BrowserError`. The disk and the session are untouched. |
| `Downloader.NoContentUrlStops` | src/scrapingknife/__init__.py:156-160 | When the browser yields no content URL, the run navigates and then raises `URLSearchError` with the page URL. It does not download, rename or touch the disk. |
| `Downloader.DownloadsContentUrlIntoTemp` | src/scrapingknife/__init__.py:157-164 | The download fetches the resolved content URL, not the page URL. It writes into `continue_at` when that is non-empty and into `create_tempfile(path)` otherwise. The transfer session is finished and recreated. |
| `Downloader.RenameOnlyAfterDownloadAndRecheck` | src/scrapingknife/__init__.py:164-167 | The rename step is reached exactly when the download completed and the second check passed on the post-transfer filesystem. It moves the temporary path onto the output path. |
| `Downloader.StageMovesOnlyAfterRecheck` | src/scrapingknife/__init__.py:164-167 | Within the download stage, the move is reached exactly when the transfer left no fault and the second check passes, and it moves the temporary path onto the output. |
| `Downloader.SuccessMovesTempOntoOutput` | src/scrapingknife/__init__.py:164-167 | When no other process writes the temporary path, a successful run leaves the whole body of the content URL at the output path, and the temporary path is gone unless it is the output path itself. |
| `Downloader.OrdinaryRunSucceeds` | src/scrapingknife/__init__.py:154-167 | The ordinary run succeeds. Its conditions: the output directory is present, nothing is at the output path or its `.downloading` sibling, the content URL is served in full, and no other process writes. The run navigates, downloads into `create_tempfile(path)` and moves it onto the output. It raises nothing, and the output holds the whole body. |
| `Downloader.StageCompletes` | src/scrapingknife/__init__.py:164-167 | Within the download stage, a creatable temporary file beside an absent output, a body served in full and no other writer lead to the download and the move, with no error. |
| `Downloader.CommitSucceeds` | src/scrapingknife/__init__.py:166-167 | With the temporary file in place and nothing at the output path in an existing directory, the second check passes and the rename succeeds. |
| `Downloader.RecheckRefusalKeepsTemp` | src/scrapingknife/__init__.py:166-167 | When no other process writes the temporary path and the second check refuses, the completed download stays at the temporary path. |
| `Downloader.RecheckFailsOnlyOnCollision` | src/scrapingknife/__init__.py:155-166 | The second check refuses a run the first check passed only when `force` is off and the output came into existence during the transfer. Either the download wrote there itself or another process did. |
| `Downloader.StageRecheckRefusal` | src/scrapingknife/__init__.py:164-166 | Within the download stage, the second check refuses only when the output directory is missing, or, without `force`, when the output path existed before the transfer, is the temporary path, or was written by another process. |
| `Downloader.RecheckRefusalCause` | src/scrapingknife/__init__.py:166 | On a filesystem that differs from the earlier one only by the temporary file and another process's write, the check refuses only for a missing directory or, without `force`, for one of those three causes. |
| `Downloader.FailedRunLeavesOutputAlone` | src/scrapingknife/__init__.py:162-167 | When the temporary path differs from the output and no one else writes the output, a failed run leaves the output path exactly as it was. |
| `Downloader.StageFailureLeavesOutputAlone` | src/scrapingknife/__init__.py:164-167 | A failed download stage leaves the output path as it was, as long as neither the temporary path nor another process writes there. |
| `Downloader.ContinueAtRestartsFromZero` | src/scrapingknife/__init__.py:162-164 | With `continue_at` naming an existing partial file, a broken connection leaves there only the bytes of this attempt, taken from byte 0. Earlier bytes are not extended. |

## Left out

- The curl transport: TLS, redirect, auto-referer and user-agent options, the verbose flag (`set_verbose`), and the real `perform`. A server is modelled as the body it sends per URL and a link as the byte count after which the connection breaks. Curl's error codes are reduced to connection failure, refused range and lost connection.
- Progress.Notify: records the byte counts an update was computed from, not the percentage `int(downloaded / total * 100)`. That value is floating-point arithmetic, and only the guard against a zero total is modelled.
- The progress-bar widget's rendering: `start` and `finish` are modelled only as switching the bar on and off.
- `reset_resume`: never called.
- `BrowserFactory`, PhantomJS and `SearchURL`: the external browser driver. What `browser.get` leads to is the input `Landing`. `self.search_url` is always a truthy object, so the `else url` branch of line 157 is never taken and is not modelled.
- `create_tempfile_strict`: depends on `mkstemp` randomness and is never called.
- `__enter__`, `__exit__` and `close`: resource plumbing. `__exit__` takes no arguments besides `self`, so leaving a `with` block raises `TypeError` after the body has run and before `close` is called.
- `main`, argument parsing, the `print` calls and logging: command-line and console plumbing.
- Path lookup is lexical: a path string reaches the entry its `abspath` names. Symbolic links, a trailing `/` on a non-directory, a `.` or `..` after a non-directory or a missing directory, and the POSIX leading `//` that `abspath` keeps are not modelled.
- FileSystem.GetSize: on a directory the model raises, whereas the operating system reports the directory entry's own size. This only matters for `ContentDownload` called with a directory as resume target, which `Downloader` never does.
- FileSystem.Rename: renaming a directory is outside the model (its precondition). `Downloader` only ever renames the file it has just written, which the model proves. Cross-device and permission failures are not modelled: there is one filesystem and no permissions.
- Downloader.Intrude: concurrent activity is limited to one file written by another process between the end of the transfer and the second check. Deletions and changes to directories are not modelled.
- Exceptions from `browser.get` are a single `BrowserError`, and the driver's error details are left out.
