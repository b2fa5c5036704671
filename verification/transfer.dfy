/** `ContentDownload`: one transport handle that fetches a URL into a file,
    is torn down and recreated after every transfer that got under way, and
    may be told to resume from the size of an existing file.

    The transport itself is abstract: a server is the body it sends for each
    URL it answers, and a link says after how many bytes the connection
    breaks, if it does. The TLS, redirect and user-agent options every new
    handle receives are not represented. */
module Transfer {
  import opened Results
  import opened Paths
  import opened FileSystem
  import opened Progress

  type Url = string

  /** The per-request options set on the current handle. */
  datatype Handle = Handle(url: Option<Url>, resumeFrom: Option<nat>)

  /** A `ContentDownload`: its current handle, how many handles it has
      created so far, and its progress bar. */
  datatype Session = Session(handle: Handle, handles: nat, bar: Bar)

  /** A handle as `refresh` leaves it: no URL and no resume offset. */
  predicate Pristine(h: Handle) {
    h.url.None? && h.resumeFrom.None?
  }

  /** `refresh`: replace the handle by a new one. The bar is kept. */
  function Refresh(s: Session): (r: Session)
    ensures Pristine(r.handle) && r.handles == s.handles + 1 && r.bar == s.bar
  {
    Session(Handle(None, None), s.handles + 1, s.bar)
  }

  /** `ContentDownload.__init__`: an idle bar and a first handle. */
  function NewSession(): (s: Session)
    ensures Pristine(s.handle) && s.handles == 1 && !s.bar.running && s.bar.updates == []
  {
    Refresh(Session(Handle(None, None), 0, Bar(false, [])))
  }

  /** `finish`: stop the bar, then `refresh`. */
  function FinishSession(s: Session): (r: Session)
    ensures Pristine(r.handle) && r.handles == s.handles + 1
    ensures !r.bar.running && r.bar.updates == s.bar.updates
  {
    Refresh(s.(bar := Finish(s.bar)))
  }

  /** `set_resume(target)`: ask the transport to start at the size of the
      file `target`; the size lookup fails when there is no such file. */
  function SetResume(s: Session, fs: Fs, cwd: Path, target: string): (r: Result<Session, OsError>)
    requires Canonical(cwd)
    ensures r.Ok? <==> IsFile(fs, Resolve(cwd, target))
    ensures r.Ok? ==> r.value == s.(handle := s.handle.(resumeFrom :=
                                      Some(|fs.files[Resolve(cwd, target).value]|)))
    ensures r.Err? ==> r.error.path == target
  {
    match GetSize(fs, cwd, target)
    case Err(e) => Err(e)
    case Ok(n) => Ok(s.(handle := s.handle.(resumeFrom := Some(n))))
  }

  /** What the remote side sends for each URL it answers. */
  datatype Server = Server(bodies: map<Url, Bytes>)

  /** Whether the connection holds until the end of the body. */
  datatype Link = Steady | BreaksAfter(count: nat)

  /** The transport errors `perform` raises. */
  datatype CurlFault = CouldNotConnect(url: Url) | RangeRefused(offset: nat) | ConnectionLost(received: nat)

  /** The bytes `perform` wrote to its output and the error it raised, if any. */
  datatype Performed = Performed(written: Bytes, fault: Option<CurlFault>)

  /** The byte a transfer on `h` starts from: its resume offset, or the
      first byte when none is set. */
  function Offset(h: Handle): (from: nat)
    ensures h.resumeFrom.None? ==> from == 0
    ensures h.resumeFrom.Some? ==> from == h.resumeFrom.value
  {
    if h.resumeFrom.Some? then h.resumeFrom.value else 0
  }

  /** `perform` on a handle: fetch the handle's URL from its resume offset
      (0 when none is set). */
  function Perform(h: Handle, server: Server, link: Link): (p: Performed)
    requires h.url.Some?
    ensures var url, from := h.url.value, Offset(h);
            && (url !in server.bodies ==> p == Performed([], Some(CouldNotConnect(url))))
            && (url in server.bodies && from > |server.bodies[url]| ==>
                  p == Performed([], Some(RangeRefused(from))))
            && (url in server.bodies && from <= |server.bodies[url]| ==>
                  p.written <= server.bodies[url][from..]
                  && (p.fault.None? <==> p.written == server.bodies[url][from..]))
  {
    var url := h.url.value;
    var from := Offset(h);
    if url !in server.bodies then Performed([], Some(CouldNotConnect(url)))
    else if from > |server.bodies[url]| then Performed([], Some(RangeRefused(from)))
    else
      var rest := server.bodies[url][from..];
      match link
      case Steady => Performed(rest, None)
      case BreaksAfter(n) =>
        if n < |rest| then Performed(rest[..n], Some(ConnectionLost(n)))
        else Performed(rest, None)
  }

  /** Why a fetch failed: a raised `OSError` or a transport error. */
  datatype Fault = Os(os: OsError) | Curl(curl: CurlFault)

  /** The session and filesystem after a fetch, and the error it raised. */
  datatype Fetched = Fetched(session: Session, fs: Fs, fault: Option<Fault>)

  /** `ContentDownload.__call__(url, path, continue_)`. The URL is set on the
      handle; a non-empty `continue_` sets the resume offset to that file's
      size; then the bar starts and, whatever happens from there on, the bar
      is finished and the handle recreated. The output file is opened
      truncating, so it ends up holding exactly what `perform` wrote. */
  function Fetch(s: Session, fs: Fs, cwd: Path, url: Url, path: string, continue_: Option<string>,
                 server: Server, link: Link, ticks: seq<Tick>): (f: Fetched)
    requires Valid(fs) && Canonical(cwd)
    ensures Valid(f.fs)
    // the resume target's size is looked up before `start()`: if that
    // fails, nothing else happens and the handle is not recreated
    ensures var resuming := continue_.Some? && continue_.value != "";
            if resuming && !IsFile(fs, Resolve(cwd, continue_.value)) then
              && f.fs == fs
              && f.fault.Some? && f.fault.value.Os? && f.fault.value.os.path == continue_.value
              && f.session.handles == s.handles && f.session.bar == s.bar
            else
              && Pristine(f.session.handle) && f.session.handles == s.handles + 1
              && !f.session.bar.running
    ensures s.handle.resumeFrom.None? ==> f.session.handle.resumeFrom.None?
  {
    var s1 := s.(handle := s.handle.(url := Some(url)));
    if continue_.Some? && continue_.value != "" then
      match SetResume(s1, fs, cwd, continue_.value)
      case Err(e) => Fetched(s1, fs, Some(Os(e)))
      case Ok(s2) => TransferInto(s2, fs, cwd, path, server, link, ticks)
    else
      TransferInto(s1, fs, cwd, path, server, link, ticks)
  }

  /** The part of `__call__` inside `start()` and `try ... finally finish()`:
      whether or not the output opens, the bar ends stopped and the handle is
      recreated; an output that does not open raises an `OSError` and leaves
      the disk alone, and a transport error is reported only after the
      output was opened. */
  function TransferInto(s: Session, fs: Fs, cwd: Path, path: string,
                        server: Server, link: Link, ticks: seq<Tick>): (f: Fetched)
    requires Valid(fs) && Canonical(cwd) && s.handle.url.Some?
    ensures Valid(f.fs)
    ensures Pristine(f.session.handle) && f.session.handles == s.handles + 1
    ensures !f.session.bar.running
    ensures OpenTruncate(fs, cwd, path).Err? <==> f.fault.Some? && f.fault.value.Os?
    ensures OpenTruncate(fs, cwd, path).Err? ==> f.fs == fs
  {
    var started := s.(bar := Start(s.bar));
    match OpenTruncate(fs, cwd, path)
    case Err(e) => Fetched(FinishSession(started), fs, Some(Os(e)))
    case Ok(emptied) =>
      var p := Perform(s.handle, server, link);
      var written := WriteAll(emptied, Resolve(cwd, path).value, p.written);
      var shown := started.(bar := NotifyAll(started.bar, ticks));
      Fetched(FinishSession(shown), written, if p.fault.Some? then Some(Curl(p.fault.value)) else None)
  }

  /** Without a resume target, a fetch on a handle that has no resume offset
      empties the output file and fills it with a prefix of the body, the
      whole body exactly when it reports no error; nothing else on disk
      changes. When the output cannot be opened, nothing on disk changes. */
  lemma FetchFromStart(s: Session, fs: Fs, cwd: Path, url: Url, path: string,
                       server: Server, link: Link, ticks: seq<Tick>)
    requires Valid(fs) && Canonical(cwd) && s.handle.resumeFrom.None?
    ensures var f := Fetch(s, fs, cwd, url, path, None, server, link, ticks);
            var t := Resolve(cwd, path);
            if t.None? || IsDir(fs, t) || Parent(t.value) !in fs.dirs then
              f.fs == fs && f.fault.Some? && f.fault.value.Os?
            else
              && f.fs.dirs == fs.dirs
              && (forall q :: q in f.fs.files <==> q in fs.files || q == t.value)
              && (forall q :: q in fs.files && q != t.value ==> f.fs.files[q] == fs.files[q])
              && (url !in server.bodies ==> f.fs.files[t.value] == [] && f.fault.Some?)
              && (url in server.bodies ==>
                    && f.fs.files[t.value] <= server.bodies[url]
                    && (f.fault.None? <==> f.fs.files[t.value] == server.bodies[url]))
  {
    var h := s.handle.(url := Some(url));
    assert Offset(h) == 0;
    if url in server.bodies {
      assert server.bodies[url][0..] == server.bodies[url];
    }
  }

  /** As written, resuming into the very file whose size gave the offset
      loses that file's bytes: the file is opened truncating, so after a
      complete transfer it holds only the part of the body past the offset. */
  lemma ResumeIntoSameFileKeepsOnlyTail(s: Session, fs: Fs, cwd: Path, url: Url, path: string,
                                        server: Server, ticks: seq<Tick>)
    requires Valid(fs) && Canonical(cwd)
    requires IsFile(fs, Resolve(cwd, path)) && url in server.bodies
    requires |fs.files[Resolve(cwd, path).value]| <= |server.bodies[url]|
    ensures var f := Fetch(s, fs, cwd, url, path, Some(path), server, Steady, ticks);
            var n := |fs.files[Resolve(cwd, path).value]|;
            && f.fault.None?
            && f.fs.files[Resolve(cwd, path).value] == server.bodies[url][n..]
            && (n > 0 ==> f.fs.files[Resolve(cwd, path).value] != server.bodies[url])
  {
  }
}
