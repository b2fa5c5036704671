/** The part of the operating system the downloader touches: directories,
    regular files with their bytes, and the calls `os.path.isdir`,
    `os.path.exists`, `os.path.getsize`, `open(path, 'w+b')` and `os.rename`.

    A path string is resolved lexically, as `abspath` does; the empty string
    names nothing. */
module FileSystem {
  import opened Results
  import opened Paths

  newtype byte = x: int | 0 <= x < 256

  type Bytes = seq<byte>

  /** What a failing call reports, with the path string it was given:
      `FileNotFoundError`, `IsADirectoryError` or `NotADirectoryError`. */
  datatype OsError = FileNotFound(path: string) | IsADirectory(path: string) | NotADirectory(path: string)

  datatype Fs = Fs(dirs: set<Path>, files: map<Path, Bytes>)

  /** The root exists, nothing is both a directory and a file, and every
      entry but the root lives in an existing directory. */
  ghost predicate Valid(fs: Fs) {
    && [] in fs.dirs
    && (forall d :: d in fs.dirs ==> Canonical(d) && d !in fs.files && Parent(d) in fs.dirs)
    && (forall f :: f in fs.files ==> Canonical(f) && f != [] && Parent(f) in fs.dirs)
  }

  /** The entry a path string names for a process in directory `cwd`. */
  function Resolve(cwd: Path, s: string): (t: Option<Path>)
    requires Canonical(cwd)
    ensures t.Some? ==> Canonical(t.value)
    ensures t.None? <==> s == ""
  {
    if s == "" then None else Some(AbsPath(cwd, s))
  }

  /** `os.path.isdir`: a string that names nothing is no directory. */
  function IsDir(fs: Fs, t: Option<Path>): (r: bool)
    ensures r ==> t.Some?
  {
    t.Some? && t.value in fs.dirs
  }

  predicate IsFile(fs: Fs, t: Option<Path>) {
    t.Some? && t.value in fs.files
  }

  /** `os.path.exists`: a string that names nothing does not exist. */
  function Exists(fs: Fs, t: Option<Path>): (r: bool)
    ensures r ==> t.Some?
  {
    IsDir(fs, t) || IsFile(fs, t)
  }

  /** Some proper ancestor of `p` is a regular file, so looking `p` up
      stops there. */
  predicate UnderFile(fs: Fs, p: Path) {
    exists i :: 0 < i < |p| && p[..i] in fs.files
  }

  /** The error for a string that names no entry: the lookup fails with
      `NotADirectoryError` when it runs into a regular file on the way, and
      with `FileNotFoundError` otherwise. */
  function Missing(fs: Fs, t: Option<Path>, s: string): (e: OsError)
    ensures e.path == s && !e.IsADirectory?
    ensures e.NotADirectory? <==> t.Some? && UnderFile(fs, t.value)
  {
    if t.Some? && UnderFile(fs, t.value) then NotADirectory(s) else FileNotFound(s)
  }

  /** Nothing lives below a regular file. */
  lemma {:induction false} NothingBelowFile(fs: Fs, p: Path, i: nat)
    requires Valid(fs) && i < |p| && p[..i] in fs.files
    ensures p !in fs.dirs && p !in fs.files
    decreases |p|
  {
    var q := Parent(p);
    if i < |q| {
      assert q[..i] == p[..i];
      NothingBelowFile(fs, q, i);
    } else {
      assert q == p[..i];
    }
  }

  /** A string whose lookup runs into a regular file names no entry, and
      `getsize` and `open` fail on it with `NotADirectoryError`. */
  lemma ThroughFileIsNotADirectory(fs: Fs, cwd: Path, s: string, i: nat)
    requires Valid(fs) && Canonical(cwd)
    requires Resolve(cwd, s).Some?
    requires 0 < i < |Resolve(cwd, s).value| && Resolve(cwd, s).value[..i] in fs.files
    ensures !Exists(fs, Resolve(cwd, s))
    ensures GetSize(fs, cwd, s) == Err(NotADirectory(s))
    ensures OpenTruncate(fs, cwd, s) == Err(NotADirectory(s))
  {
    var p := Resolve(cwd, s).value;
    NothingBelowFile(fs, p, i);
    assert UnderFile(fs, p);
    var q := Parent(p);
    if i < |q| {
      assert q[..i] == p[..i];
      NothingBelowFile(fs, q, i);
    } else {
      assert q == p[..i];
    }
  }

  /** `os.path.getsize(s)`: the number of bytes in the file `s` names. */
  function GetSize(fs: Fs, cwd: Path, s: string): (r: Result<nat, OsError>)
    requires Canonical(cwd)
    ensures r.Ok? <==> IsFile(fs, Resolve(cwd, s))
    ensures r.Ok? ==> r.value == |fs.files[Resolve(cwd, s).value]|
    ensures r.Err? ==> r.error.path == s
  {
    var t := Resolve(cwd, s);
    if IsFile(fs, t) then Ok(|fs.files[t.value]|)
    else if IsDir(fs, t) then Err(IsADirectory(s))
    else Err(Missing(fs, t, s))
  }

  /** `open(s, 'w+b')`: creates the file or empties it, in an existing
      directory; a directory cannot be opened this way, and a missing
      directory fails as `Missing` says. */
  function OpenTruncate(fs: Fs, cwd: Path, s: string): (r: Result<Fs, OsError>)
    requires Valid(fs) && Canonical(cwd)
    ensures r.Ok? <==> (Resolve(cwd, s).Some? && !IsDir(fs, Resolve(cwd, s))
                        && Parent(Resolve(cwd, s).value) in fs.dirs)
    ensures r.Ok? ==> var p := Resolve(cwd, s).value;
                      && Valid(r.value)
                      && r.value.dirs == fs.dirs
                      && r.value.files == fs.files[p := []]
  {
    var t := Resolve(cwd, s);
    if t.None? then Err(FileNotFound(s))
    else if t.value in fs.dirs then Err(IsADirectory(s))
    else if Parent(t.value) !in fs.dirs then Err(Missing(fs, t, s))
    else Ok(Fs(fs.dirs, fs.files[t.value := []]))
  }

  /** The bytes written through an open handle on the file `p`. */
  function WriteAll(fs: Fs, p: Path, data: Bytes): (r: Fs)
    requires Valid(fs) && p in fs.files
    ensures Valid(r)
    ensures r.dirs == fs.dirs && r.files.Keys == fs.files.Keys
    ensures r.files[p] == data
    ensures forall q :: q in fs.files && q != p ==> r.files[q] == fs.files[q]
  {
    Fs(fs.dirs, fs.files[p := data])
  }

  /** `os.rename(src, dst)` of a regular file: the file moves to `dst`,
      replacing a file already there; a directory at `dst`, a missing
      source or a missing target directory make it fail, the last two with
      `NotADirectoryError` when the lookup runs into a regular file. Renaming a path to
      itself changes nothing. */
  function Rename(fs: Fs, cwd: Path, src: string, dst: string): (r: Result<Fs, OsError>)
    requires Valid(fs) && Canonical(cwd)
    requires !IsDir(fs, Resolve(cwd, src))
    ensures r.Ok? <==> (IsFile(fs, Resolve(cwd, src)) && Resolve(cwd, dst).Some?
                        && !IsDir(fs, Resolve(cwd, dst))
                        && Parent(Resolve(cwd, dst).value) in fs.dirs)
    ensures r.Ok? ==> var from, to := Resolve(cwd, src).value, Resolve(cwd, dst).value;
                      && Valid(r.value)
                      && r.value.dirs == fs.dirs
                      && to in r.value.files && r.value.files[to] == fs.files[from]
                      && (from != to ==> from !in r.value.files)
                      && (forall q :: q != from && q != to ==>
                            (q in r.value.files <==> q in fs.files))
                      && (forall q :: q in fs.files && q != from && q != to ==>
                            r.value.files[q] == fs.files[q])
  {
    var from, to := Resolve(cwd, src), Resolve(cwd, dst);
    if !IsFile(fs, from) then Err(Missing(fs, from, src))
    else if to.None? || Parent(to.value) !in fs.dirs then Err(Missing(fs, to, dst))
    else if to.value in fs.dirs then Err(IsADirectory(dst))
    else if from.value == to.value then Ok(fs)
    else Ok(Fs(fs.dirs, (fs.files - {from.value})[to.value := fs.files[from.value]]))
  }
}
