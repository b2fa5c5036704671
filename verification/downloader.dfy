/** `Downloader.__call__`: check the output, let the browser resolve the
    content URL, download it into a temporary file, check the output again,
    and move the temporary file onto the output.

    The browser, the server, the connection and other processes on the
    machine are inputs (`World`); every step that fails ends the run with
    the error it raised, and the steps after it do not happen. */
module Downloader {
  import opened Results
  import opened Paths
  import opened FileSystem
  import opened Progress
  import opened Transfer
  import opened OutputGuard

  /** Where the browser is after `browser.get(url)`: navigation raised, or
      it settled and its current URL is the content URL (possibly `None`). */
  datatype Landing = NavigationFailed | Landed(current: Option<Url>)

  /** A file some other process writes while the transfer runs. */
  datatype Intrusion = Intrusion(path: Path, content: Bytes)

  /** Everything outside the program that a run depends on. */
  datatype World = World(landing: Landing, server: Server, link: Link,
                         ticks: seq<Tick>, intrusion: Option<Intrusion>)

  /** The outward actions of a run, in the order they happen. */
  datatype Effect = Navigate(url: Url) | Download(url: Url, temp: string) | Move(from: string, to: string)

  /** What a run raises. */
  datatype Error =
    | OutputFileError(problem: OutputProblem)
    | BrowserError(url: Url)
    | URLSearchError(url: Url)
    | DownloadError(fault: Fault)
    | RenameError(os: OsError)

  /** The state a run leaves behind and the error it raised, if any. */
  datatype Run = Run(fs: Fs, session: Session, trace: seq<Effect>, error: Option<Error>)

  /** The other process's write: it lands only where a file can be created
      or replaced. */
  function Intrude(fs: Fs, i: Option<Intrusion>): (r: Fs)
    requires Valid(fs)
    ensures Valid(r) && r.dirs == fs.dirs
    ensures forall q :: q in fs.files ==> q in r.files
    ensures forall q :: q in fs.files && (i.None? || q != i.value.path) ==> r.files[q] == fs.files[q]
    ensures forall q :: q in r.files && q !in fs.files ==> i.Some? && q == i.value.path
  {
    if i.Some? && Canonical(i.value.path) && i.value.path != []
       && i.value.path !in fs.dirs && Parent(i.value.path) in fs.dirs
    then Fs(fs.dirs, fs.files[i.value.path := i.value.content])
    else fs
  }

  /** `continue_at or self.create_tempfile(path)`. */
  function TempFor(cwd: Path, path: string, continueAt: Option<string>): (t: string)
    requires Canonical(cwd)
    ensures t != ""
  {
    if continueAt.Some? && continueAt.value != "" then continueAt.value
    else CreateTempfile(cwd, path)
  }

  /** `Downloader.__call__(url, path, force, continue_at)` on a downloader
      whose transfer session has no resume offset (it never sets one). */
  function Call(s: Session, fs: Fs, cwd: Path, url: Url, path: string, force: bool,
                continueAt: Option<string>, w: World): (run: Run)
    requires Valid(fs) && Canonical(cwd) && s.handle.resumeFrom.None?
    ensures Valid(run.fs) && run.fs.dirs == fs.dirs
    ensures run.session.handle.resumeFrom.None?
    ensures |run.trace| <= 3
    ensures run.error.None? ==> |run.trace| == 3
  {
    match CanOutputToFile(fs, cwd, path, force, true)
    case Err(problem) => Run(fs, s, [], Some(OutputFileError(problem)))
    case Ok(_) =>
      match w.landing
      case NavigationFailed => Run(fs, s, [Navigate(url)], Some(BrowserError(url)))
      case Landed(current) =>
        if current.None? then Run(fs, s, [Navigate(url)], Some(URLSearchError(url)))
        else
          var rest := DownloadStage(s, fs, cwd, path, force, TempFor(cwd, path, continueAt),
                                    current.value, w);
          rest.(trace := [Navigate(url)] + rest.trace)
  }

  /** Lines 164-167: download the content URL into the temporary path and,
      if that completed, commit it. The transfer session is finished and
      recreated whatever happens. */
  function DownloadStage(s: Session, fs: Fs, cwd: Path, path: string, force: bool, temp: string,
                         contentUrl: Url, w: World): (run: Run)
    requires Valid(fs) && Canonical(cwd) && s.handle.resumeFrom.None?
    ensures Valid(run.fs) && run.fs.dirs == fs.dirs
    ensures Pristine(run.session.handle) && run.session.handles == s.handles + 1
    ensures !run.session.bar.running
    ensures 1 <= |run.trace| <= 2 && run.trace[0] == Download(contentUrl, temp)
    ensures run.error.None? ==> |run.trace| == 2
  {
    var f := Fetch(s, fs, cwd, contentUrl, temp, None, w.server, w.link, w.ticks);
    var after := Intrude(f.fs, w.intrusion);
    if f.fault.Some? then
      Run(after, f.session, [Download(contentUrl, temp)], Some(DownloadError(f.fault.value)))
    else
      FetchFromStart(s, fs, cwd, contentUrl, temp, w.server, w.link, w.ticks);
      var c := Commit(after, f.session, cwd, path, force, temp);
      c.(trace := [Download(contentUrl, temp)] + c.trace)
  }

  /** Lines 166-167: check the output again on the filesystem as the
      transfer left it and, if it still may be written, move the temporary
      file onto it. A refused or failed commit leaves the disk as it was. */
  function Commit(after: Fs, session: Session, cwd: Path, path: string, force: bool, temp: string)
    : (run: Run)
    requires Valid(after) && Canonical(cwd) && IsFile(after, Resolve(cwd, temp))
    ensures Valid(run.fs) && run.fs.dirs == after.dirs && run.session == session
    ensures run.trace == [] <==> CanOutputToFile(after, cwd, path, force, false) == Ok(false)
    ensures run.trace == [] <==> run.error.Some? && run.error.value.OutputFileError?
    ensures run.trace != [] ==> run.trace == [Move(temp, path)]
    ensures run.error.Some? ==> run.fs == after
    ensures run.error.None? ==>
              var src, dst := Resolve(cwd, temp).value, AbsPath(cwd, path);
              && run.trace != []
              && dst in run.fs.files && run.fs.files[dst] == after.files[src]
              && (src != dst ==> src !in run.fs.files)
  {
    RaisingAgreesWithReturning(after, cwd, path, force);
    match CanOutputToFile(after, cwd, path, force, true)
    case Err(problem) => Run(after, session, [], Some(OutputFileError(problem)))
    case Ok(_) =>
      match Rename(after, cwd, temp, path)
      case Err(e) => Run(after, session, [Move(temp, path)], Some(RenameError(e)))
      case Ok(moved) => Run(moved, session, [Move(temp, path)], None)
  }

  /** The first check gates everything: a run does nothing at all exactly
      when the output is refused up front, and then the filesystem and the
      session are untouched and the error is an `OutputFileError`. */
  lemma RefusedOutputDoesNothing(s: Session, fs: Fs, cwd: Path, url: Url, path: string, force: bool,
                                 continueAt: Option<string>, w: World)
    requires Valid(fs) && Canonical(cwd) && s.handle.resumeFrom.None?
    ensures var run := Call(s, fs, cwd, url, path, force, continueAt, w);
            run.trace == [] <==> CanOutputToFile(fs, cwd, path, force, false) == Ok(false)
    ensures var run := Call(s, fs, cwd, url, path, force, continueAt, w);
            run.trace == [] ==>
              && run.fs == fs && run.session == s
              && run.error.Some? && run.error.value.OutputFileError?
  {
    RaisingAgreesWithReturning(fs, cwd, path, force);
  }

  /** When the browser yields no content URL, the run raises
      `URLSearchError` naming the page URL after navigating, and neither
      downloads nor renames nor touches the disk. */
  lemma NoContentUrlStops(s: Session, fs: Fs, cwd: Path, url: Url, path: string, force: bool,
                          continueAt: Option<string>, w: World)
    requires Valid(fs) && Canonical(cwd) && s.handle.resumeFrom.None?
    requires CanOutputToFile(fs, cwd, path, force, false) == Ok(true)
    requires w.landing == Landed(None)
    ensures Call(s, fs, cwd, url, path, force, continueAt, w)
         == Run(fs, s, [Navigate(url)], Some(URLSearchError(url)))
  {
    RaisingAgreesWithReturning(fs, cwd, path, force);
  }

  /** Once the browser yields a content URL, the download fetches that URL
      (not the page URL) into `continue_at` when it is non-empty and into
      `create_tempfile(path)` otherwise, and the transfer session is
      finished and recreated whatever the outcome. */
  lemma DownloadsContentUrlIntoTemp(s: Session, fs: Fs, cwd: Path, url: Url, path: string, force: bool,
                                    continueAt: Option<string>, w: World, contentUrl: Url)
    requires Valid(fs) && Canonical(cwd) && s.handle.resumeFrom.None?
    requires CanOutputToFile(fs, cwd, path, force, false) == Ok(true)
    requires w.landing == Landed(Some(contentUrl))
    ensures var run := Call(s, fs, cwd, url, path, force, continueAt, w);
            var temp := if continueAt.Some? && continueAt.value != "" then continueAt.value
                        else CreateTempfile(cwd, path);
            && |run.trace| >= 2
            && run.trace[..2] == [Navigate(url), Download(contentUrl, temp)]
            && run.session.handles == s.handles + 1
            && Pristine(run.session.handle) && !run.session.bar.running
  {
    RaisingAgreesWithReturning(fs, cwd, path, force);
    var temp := TempFor(cwd, path, continueAt);
    var f := Fetch(s, fs, cwd, contentUrl, temp, None, w.server, w.link, w.ticks);
    var run := Call(s, fs, cwd, url, path, force, continueAt, w);
    assert run.session == f.session;
    assert run.trace[..2] == [Navigate(url), Download(contentUrl, temp)];
  }

  /** The rename is reached exactly when the download completed and the
      second check, on the filesystem as it stands after the transfer,
      passed; it moves the temporary file onto the output path. */
  lemma RenameOnlyAfterDownloadAndRecheck(s: Session, fs: Fs, cwd: Path, url: Url, path: string,
                                          force: bool, continueAt: Option<string>, w: World)
    requires Valid(fs) && Canonical(cwd) && s.handle.resumeFrom.None?
    ensures var run := Call(s, fs, cwd, url, path, force, continueAt, w);
            var temp := TempFor(cwd, path, continueAt);
            && (|run.trace| == 3 <==>
                  && CanOutputToFile(fs, cwd, path, force, false) == Ok(true)
                  && w.landing.Landed? && w.landing.current.Some?
                  && var f := Fetch(s, fs, cwd, w.landing.current.value, temp, None,
                                    w.server, w.link, w.ticks);
                     && f.fault.None?
                     && CanOutputToFile(Intrude(f.fs, w.intrusion), cwd, path, force, false) == Ok(true))
            && (|run.trace| == 3 ==> run.trace[2] == Move(temp, path))
  {
    CallReachesStage(s, fs, cwd, url, path, force, continueAt, w);
    if CanOutputToFile(fs, cwd, path, force, false) == Ok(true)
       && w.landing.Landed? && w.landing.current.Some? {
      StageMovesOnlyAfterRecheck(s, fs, cwd, path, force, TempFor(cwd, path, continueAt),
                                 w.landing.current.value, w);
    }
  }

  /** A run whose first check passes and whose browser yields a content URL
      is the download stage on that URL, after the navigation step; any
      other run stops after at most the navigation step. */
  lemma CallReachesStage(s: Session, fs: Fs, cwd: Path, url: Url, path: string, force: bool,
                         continueAt: Option<string>, w: World)
    requires Valid(fs) && Canonical(cwd) && s.handle.resumeFrom.None?
    ensures var run := Call(s, fs, cwd, url, path, force, continueAt, w);
            if CanOutputToFile(fs, cwd, path, force, false) == Ok(true)
               && w.landing.Landed? && w.landing.current.Some?
            then
              var d := DownloadStage(s, fs, cwd, path, force, TempFor(cwd, path, continueAt),
                                     w.landing.current.value, w);
              run == d.(trace := [Navigate(url)] + d.trace)
            else
              |run.trace| <= 1 && run.fs == fs && run.session == s && run.error.Some?
  {
    RaisingAgreesWithReturning(fs, cwd, path, force);
    var first := CanOutputToFile(fs, cwd, path, force, true);
    if first.Ok? {
      assert first == Ok(true);
      match w.landing
      case NavigationFailed =>
      case Landed(current) =>
        if current.Some? {
          var rest := DownloadStage(s, fs, cwd, path, force, TempFor(cwd, path, continueAt),
                                    current.value, w);
          assert Call(s, fs, cwd, url, path, force, continueAt, w)
              == rest.(trace := [Navigate(url)] + rest.trace);
        }
    }
  }

  /** The download stage reaches the rename exactly when the transfer left
      no fault and the second check passes. */
  lemma StageMovesOnlyAfterRecheck(s: Session, fs: Fs, cwd: Path, path: string, force: bool,
                                   temp: string, cu: Url, w: World)
    requires Valid(fs) && Canonical(cwd) && s.handle.resumeFrom.None?
    ensures var d := DownloadStage(s, fs, cwd, path, force, temp, cu, w);
            var f := Fetch(s, fs, cwd, cu, temp, None, w.server, w.link, w.ticks);
            && (|d.trace| == 2 <==>
                  && f.fault.None?
                  && CanOutputToFile(Intrude(f.fs, w.intrusion), cwd, path, force, false) == Ok(true))
            && (|d.trace| == 2 ==> d.trace[1] == Move(temp, path))
  {
    var f := Fetch(s, fs, cwd, cu, temp, None, w.server, w.link, w.ticks);
    var d := DownloadStage(s, fs, cwd, path, force, temp, cu, w);
    if f.fault.None? {
      FetchFromStart(s, fs, cwd, cu, temp, w.server, w.link, w.ticks);
      var after := Intrude(f.fs, w.intrusion);
      var c := Commit(after, f.session, cwd, path, force, temp);
      assert d.trace == [Download(cu, temp)] + c.trace;
    } else {
      assert |d.trace| == 1;
    }
  }

  /** A run that succeeds leaves the whole body of the content URL at the
      output path, fetched from its first byte, and the temporary path no
      longer names a file (unless it is the output path itself). */
  lemma SuccessMovesTempOntoOutput(s: Session, fs: Fs, cwd: Path, url: Url, path: string, force: bool,
                                   continueAt: Option<string>, w: World)
    requires Valid(fs) && Canonical(cwd) && s.handle.resumeFrom.None?
    requires w.intrusion.None? || w.intrusion.value.path != AbsPath(cwd, TempFor(cwd, path, continueAt))
    ensures var run := Call(s, fs, cwd, url, path, force, continueAt, w);
            var src, dst := AbsPath(cwd, TempFor(cwd, path, continueAt)), AbsPath(cwd, path);
            run.error.None? ==>
              && w.landing.Landed? && w.landing.current.Some?
              && w.landing.current.value in w.server.bodies
              && dst in run.fs.files
              && run.fs.files[dst] == w.server.bodies[w.landing.current.value]
              && (src != dst ==> src !in run.fs.files)
  {
    var run := Call(s, fs, cwd, url, path, force, continueAt, w);
    if run.error.None? {
      var temp := TempFor(cwd, path, continueAt);
      var cu := w.landing.current.value;
      FetchFromStart(s, fs, cwd, cu, temp, w.server, w.link, w.ticks);
    }
  }

  /** The ordinary run succeeds: with the output directory in place, no
      entry at the output path or at its `.downloading` sibling, a content
      URL the server serves in full and no other process writing, the run
      navigates, downloads into `create_tempfile(path)`, moves that onto the
      output, and raises nothing; the output then holds the whole body. */
  lemma OrdinaryRunSucceeds(s: Session, fs: Fs, cwd: Path, url: Url, path: string, force: bool,
                            w: World, cu: Url)
    requires Valid(fs) && Canonical(cwd) && s.handle.resumeFrom.None?
    requires path != ""
    requires IsDir(fs, Some(OutputDirectory(cwd, path))) && !Exists(fs, Resolve(cwd, path))
    requires Sibling(AbsPath(cwd, path)) !in fs.dirs
    requires w.landing == Landed(Some(cu)) && cu in w.server.bodies
    requires w.link == Steady && w.intrusion.None?
    ensures var run := Call(s, fs, cwd, url, path, force, None, w);
            var temp := CreateTempfile(cwd, path);
            && run.error.None?
            && run.trace == [Navigate(url), Download(cu, temp), Move(temp, path)]
            && AbsPath(cwd, path) in run.fs.files
            && run.fs.files[AbsPath(cwd, path)] == w.server.bodies[cu]
  {
    RaisingAgreesWithReturning(fs, cwd, path, force);
    var temp := CreateTempfile(cwd, path);
    assert TempFor(cwd, path, None) == temp;
    StageCompletes(s, fs, cwd, path, force, temp, cu, w);
    SuccessMovesTempOntoOutput(s, fs, cwd, url, path, force, None, w);
  }

  /** Within the download stage, a temporary path that can be created
      beside an output that is absent, a body served in full and no other
      writer lead to the move and no error. */
  lemma StageCompletes(s: Session, fs: Fs, cwd: Path, path: string, force: bool,
                       temp: string, cu: Url, w: World)
    requires Valid(fs) && Canonical(cwd) && s.handle.resumeFrom.None?
    requires path != "" && temp != ""
    requires IsDir(fs, Some(OutputDirectory(cwd, path))) && !Exists(fs, Resolve(cwd, path))
    requires AbsPath(cwd, temp) == Sibling(AbsPath(cwd, path)) && AbsPath(cwd, temp) !in fs.dirs
    requires cu in w.server.bodies && w.link == Steady && w.intrusion.None?
    ensures var d := DownloadStage(s, fs, cwd, path, force, temp, cu, w);
            d.error.None? && d.trace == [Download(cu, temp), Move(temp, path)]
  {
    var dst := AbsPath(cwd, path);
    var f := Fetch(s, fs, cwd, cu, temp, None, w.server, w.link, w.ticks);
    FetchFromStart(s, fs, cwd, cu, temp, w.server, w.link, w.ticks);
    var body := w.server.bodies[cu];
    assert body[0..] == body;
    assert f.fault.None?;
    var after := Intrude(f.fs, w.intrusion);
    assert after == f.fs && after.dirs == fs.dirs;
    assert dst !in after.files;
    CommitSucceeds(after, f.session, cwd, path, force, temp);
    var c := Commit(after, f.session, cwd, path, force, temp);
    assert DownloadStage(s, fs, cwd, path, force, temp, cu, w).trace == [Download(cu, temp)] + c.trace;
  }

  /** With the temporary file in place and nothing at the output path in
      an existing directory, the commit moves the file and raises nothing. */
  lemma CommitSucceeds(after: Fs, session: Session, cwd: Path, path: string, force: bool, temp: string)
    requires Valid(after) && Canonical(cwd) && path != ""
    requires IsFile(after, Resolve(cwd, temp))
    requires IsDir(after, Some(OutputDirectory(cwd, path))) && !Exists(after, Resolve(cwd, path))
    ensures var c := Commit(after, session, cwd, path, force, temp);
            c.error.None? && c.trace == [Move(temp, path)]
  {
    RaisingAgreesWithReturning(after, cwd, path, force);
    assert Rename(after, cwd, temp, path).Ok?;
  }

  /** A navigation that raises ends the run right after the first step,
      with the disk and the session untouched. */
  lemma NavigationFailureStops(s: Session, fs: Fs, cwd: Path, url: Url, path: string, force: bool,
                               continueAt: Option<string>, w: World)
    requires Valid(fs) && Canonical(cwd) && s.handle.resumeFrom.None?
    requires CanOutputToFile(fs, cwd, path, force, false) == Ok(true)
    requires w.landing == NavigationFailed
    ensures Call(s, fs, cwd, url, path, force, continueAt, w)
         == Run(fs, s, [Navigate(url)], Some(BrowserError(url)))
  {
    RaisingAgreesWithReturning(fs, cwd, path, force);
  }

  /** A run refused by the second check leaves the completed download at
      the temporary path. */
  lemma RecheckRefusalKeepsTemp(s: Session, fs: Fs, cwd: Path, url: Url, path: string, force: bool,
                                continueAt: Option<string>, w: World)
    requires Valid(fs) && Canonical(cwd) && s.handle.resumeFrom.None?
    requires w.intrusion.None? || w.intrusion.value.path != AbsPath(cwd, TempFor(cwd, path, continueAt))
    ensures var run := Call(s, fs, cwd, url, path, force, continueAt, w);
            var src := AbsPath(cwd, TempFor(cwd, path, continueAt));
            run.error.Some? && run.error.value.OutputFileError? && |run.trace| == 2 ==>
              && w.landing.Landed? && w.landing.current.Some?
              && w.landing.current.value in w.server.bodies
              && src in run.fs.files
              && run.fs.files[src] == w.server.bodies[w.landing.current.value]
  {
    var run := Call(s, fs, cwd, url, path, force, continueAt, w);
    if run.error.Some? && run.error.value.OutputFileError? && |run.trace| == 2 {
      var temp := TempFor(cwd, path, continueAt);
      var cu := w.landing.current.value;
      FetchFromStart(s, fs, cwd, cu, temp, w.server, w.link, w.ticks);
    }
  }

  /** The second check refuses a run the first check let through only when
      `force` is off and the output path has come into existence during the
      transfer: the download itself wrote there, or another process did. */
  lemma RecheckFailsOnlyOnCollision(s: Session, fs: Fs, cwd: Path, url: Url, path: string, force: bool,
                                    continueAt: Option<string>, w: World)
    requires Valid(fs) && Canonical(cwd) && s.handle.resumeFrom.None?
    ensures var run := Call(s, fs, cwd, url, path, force, continueAt, w);
            var src, dst := AbsPath(cwd, TempFor(cwd, path, continueAt)), AbsPath(cwd, path);
            run.error.Some? && run.error.value.OutputFileError? && |run.trace| == 2 ==>
              && !force
              && !Exists(fs, Resolve(cwd, path))
              && (src == dst || (w.intrusion.Some? && w.intrusion.value.path == dst))
  {
    RaisingAgreesWithReturning(fs, cwd, path, force);
    if CanOutputToFile(fs, cwd, path, force, false) == Ok(true)
       && w.landing.Landed? && w.landing.current.Some? {
      var temp := TempFor(cwd, path, continueAt);
      StageRecheckRefusal(s, fs, cwd, path, force, temp, w.landing.current.value, w);
    }
  }

  /** Within the download stage, a refusal by the second check means the
      output directory was missing, or `force` is off and the output path
      existed before the transfer, is the temporary path, or was written by
      another process. */
  lemma StageRecheckRefusal(s: Session, fs: Fs, cwd: Path, path: string, force: bool,
                            temp: string, cu: Url, w: World)
    requires Valid(fs) && Canonical(cwd) && s.handle.resumeFrom.None?
    ensures var d := DownloadStage(s, fs, cwd, path, force, temp, cu, w);
            var src, dst := AbsPath(cwd, temp), AbsPath(cwd, path);
            d.error.Some? && d.error.value.OutputFileError? ==>
              || !IsDir(fs, Some(OutputDirectory(cwd, path)))
              || (&& !force
                  && (|| Exists(fs, Resolve(cwd, path))
                      || src == dst
                      || (w.intrusion.Some? && w.intrusion.value.path == dst)))
  {
    var f := Fetch(s, fs, cwd, cu, temp, None, w.server, w.link, w.ticks);
    if f.fault.None? {
      FetchFromStart(s, fs, cwd, cu, temp, w.server, w.link, w.ticks);
      var after := Intrude(f.fs, w.intrusion);
      RecheckRefusalCause(fs, after, cwd, path, force, temp, w.intrusion);
      var c := Commit(after, f.session, cwd, path, force, temp);
      assert DownloadStage(s, fs, cwd, path, force, temp, cu, w).error == c.error;
    }
  }

  /** The second check, on a filesystem that differs from the first one at
      most by the temporary file and another process's write, refuses only
      for a missing directory or, without `force`, for an output path that
      existed before, is the temporary path or was written by the other
      process. */
  lemma RecheckRefusalCause(fs: Fs, after: Fs, cwd: Path, path: string, force: bool,
                            temp: string, i: Option<Intrusion>)
    requires Canonical(cwd) && after.dirs == fs.dirs
    requires forall q :: q in after.files ==>
               q in fs.files || q == AbsPath(cwd, temp) || (i.Some? && q == i.value.path)
    ensures var src, dst := AbsPath(cwd, temp), AbsPath(cwd, path);
            CanOutputToFile(after, cwd, path, force, false) == Ok(false) ==>
              || !IsDir(fs, Some(OutputDirectory(cwd, path)))
              || (&& !force
                  && (|| Exists(fs, Resolve(cwd, path))
                      || src == dst
                      || (i.Some? && i.value.path == dst)))
  {
  }

  /** When the temporary path is not the output path and no other process
      writes the output, a failed run leaves the output path exactly as it
      was: the output never holds a partial download. */
  lemma FailedRunLeavesOutputAlone(s: Session, fs: Fs, cwd: Path, url: Url, path: string, force: bool,
                                   continueAt: Option<string>, w: World)
    requires Valid(fs) && Canonical(cwd) && s.handle.resumeFrom.None?
    requires AbsPath(cwd, TempFor(cwd, path, continueAt)) != AbsPath(cwd, path)
    requires w.intrusion.None? || w.intrusion.value.path != AbsPath(cwd, path)
    ensures var run := Call(s, fs, cwd, url, path, force, continueAt, w);
            var dst := AbsPath(cwd, path);
            run.error.Some? ==>
              && (dst in run.fs.files <==> dst in fs.files)
              && (dst in fs.files ==> run.fs.files[dst] == fs.files[dst])
  {
    var run := Call(s, fs, cwd, url, path, force, continueAt, w);
    RaisingAgreesWithReturning(fs, cwd, path, force);
    if CanOutputToFile(fs, cwd, path, force, false) == Ok(true)
       && w.landing.Landed? && w.landing.current.Some? {
      var temp := TempFor(cwd, path, continueAt);
      var d := DownloadStage(s, fs, cwd, path, force, temp, w.landing.current.value, w);
      assert run.fs == d.fs && run.error == d.error;
      StageFailureLeavesOutputAlone(s, fs, cwd, path, force, temp, w.landing.current.value, w);
    } else {
      assert run.fs == fs;
    }
  }

  /** Within the download stage, a failure leaves the output path as it was,
      provided neither the download nor another process writes there. */
  lemma StageFailureLeavesOutputAlone(s: Session, fs: Fs, cwd: Path, path: string, force: bool,
                                      temp: string, cu: Url, w: World)
    requires Valid(fs) && Canonical(cwd) && s.handle.resumeFrom.None?
    requires AbsPath(cwd, temp) != AbsPath(cwd, path)
    requires w.intrusion.None? || w.intrusion.value.path != AbsPath(cwd, path)
    ensures var d := DownloadStage(s, fs, cwd, path, force, temp, cu, w);
            var dst := AbsPath(cwd, path);
            d.error.Some? ==>
              && (dst in d.fs.files <==> dst in fs.files)
              && (dst in fs.files ==> d.fs.files[dst] == fs.files[dst])
  {
    var d := DownloadStage(s, fs, cwd, path, force, temp, cu, w);
    var dst := AbsPath(cwd, path);
    var f := Fetch(s, fs, cwd, cu, temp, None, w.server, w.link, w.ticks);
    var after := Intrude(f.fs, w.intrusion);
    FetchFromStart(s, fs, cwd, cu, temp, w.server, w.link, w.ticks);
    assert dst in after.files <==> dst in fs.files;
    assert dst in fs.files ==> after.files[dst] == fs.files[dst];
    if f.fault.Some? {
      assert d.fs == after;
    } else if d.error.Some? {
      var c := Commit(after, f.session, cwd, path, force, temp);
      assert d.fs == c.fs && d.error == c.error;
    }
  }

  /** `continue_at` only names the temporary file: the file is reopened
      truncating and fetched from byte 0, so a broken connection leaves just
      the bytes of this attempt there, whatever the file held before. */
  lemma ContinueAtRestartsFromZero(s: Session, fs: Fs, cwd: Path, url: Url, path: string, force: bool,
                                   partial: string, w: World, contentUrl: Url, k: nat)
    requires Valid(fs) && Canonical(cwd) && s.handle.resumeFrom.None?
    requires CanOutputToFile(fs, cwd, path, force, false) == Ok(true)
    requires partial != "" && IsFile(fs, Resolve(cwd, partial))
    requires w.landing == Landed(Some(contentUrl)) && contentUrl in w.server.bodies
    requires w.link == BreaksAfter(k) && k < |w.server.bodies[contentUrl]|
    requires w.intrusion.None? || w.intrusion.value.path != AbsPath(cwd, partial)
    ensures var run := Call(s, fs, cwd, url, path, force, Some(partial), w);
            && run.error == Some(DownloadError(Curl(ConnectionLost(k))))
            && AbsPath(cwd, partial) in run.fs.files
            && run.fs.files[AbsPath(cwd, partial)] == w.server.bodies[contentUrl][..k]
  {
    RaisingAgreesWithReturning(fs, cwd, path, force);
    var body := w.server.bodies[contentUrl];
    var h := s.handle.(url := Some(contentUrl));
    assert body[0..] == body;
    assert Perform(h, w.server, w.link) == Performed(body[..k], Some(ConnectionLost(k)));
    var f := Fetch(s, fs, cwd, contentUrl, partial, None, w.server, w.link, w.ticks);
    var t := AbsPath(cwd, partial);
    assert f.fault == Some(Curl(ConnectionLost(k)));
    assert t in f.fs.files && f.fs.files[t] == body[..k];
    var d := DownloadStage(s, fs, cwd, path, force, partial, contentUrl, w);
    assert d.fs == Intrude(f.fs, w.intrusion);
  }
}
