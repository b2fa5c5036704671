/** The `Downloader` methods that decide where a download may be written:
    `can_output_to_file` and `create_tempfile`. Both only read the
    filesystem. */
module OutputGuard {
  import opened Results
  import opened Paths
  import opened FileSystem

  /** The two reasons `OutputFileError` is raised, with the path it names. */
  datatype OutputProblem = NoOutputDirectory(dir: Path) | AlreadyExists(path: string)

  /** The directory the output would land in: `dirname(abspath(path))`. */
  function OutputDirectory(cwd: Path, path: string): (dir: Path)
    requires Canonical(cwd)
  {
    Parent(AbsPath(cwd, path))
  }

  /** `can_output_to_file(path, force, raise_exception)`. `Ok(b)` is a
      returned boolean, `Err(p)` a raised `OutputFileError`. */
  function CanOutputToFile(fs: Fs, cwd: Path, path: string, force: bool, raiseException: bool)
    : (r: Result<bool, OutputProblem>)
    requires Canonical(cwd)
    // a missing output directory refuses, whether or not `force` is set
    ensures !IsDir(fs, Some(OutputDirectory(cwd, path))) ==> r != Ok(true)
    // with the directory in place, refusal means: no `force`, and the path exists
    ensures IsDir(fs, Some(OutputDirectory(cwd, path))) ==>
              (r == Ok(true) <==> force || !Exists(fs, Resolve(cwd, path)))
    // the two modes differ only in how a refusal is reported
    ensures !raiseException ==> r.Ok?
    ensures raiseException ==> r != Ok(false)
    ensures r.Err? ==> (r.error.NoOutputDirectory? <==> !IsDir(fs, Some(OutputDirectory(cwd, path))))
    ensures r.Err? && r.error.NoOutputDirectory? ==> r.error.dir == OutputDirectory(cwd, path)
    ensures r.Err? && r.error.AlreadyExists? ==> r.error.path == path
  {
    var dir := OutputDirectory(cwd, path);
    if dir !in fs.dirs then
      if raiseException then Err(NoOutputDirectory(dir)) else Ok(false)
    else if !force && Exists(fs, Resolve(cwd, path)) then
      if raiseException then Err(AlreadyExists(path)) else Ok(false)
    else Ok(true)
  }

  /** Raising mode and returning mode agree: the raising call passes exactly
      when the returning call answers `True`, and raises exactly when it
      answers `False`. */
  lemma RaisingAgreesWithReturning(fs: Fs, cwd: Path, path: string, force: bool)
    requires Canonical(cwd)
    ensures CanOutputToFile(fs, cwd, path, force, true) == Ok(true)
        <==> CanOutputToFile(fs, cwd, path, force, false) == Ok(true)
    ensures CanOutputToFile(fs, cwd, path, force, true).Err?
        <==> CanOutputToFile(fs, cwd, path, force, false) == Ok(false)
  {
  }

  /** With the output directory in place and `force` set, even an existing
      file may be overwritten. */
  lemma ForceOverridesExisting(fs: Fs, cwd: Path, path: string, raiseException: bool)
    requires Canonical(cwd)
    requires IsDir(fs, Some(OutputDirectory(cwd, path)))
    ensures CanOutputToFile(fs, cwd, path, true, raiseException) == Ok(true)
  {
  }

  /** The check reads only the output directory and the output path: two
      filesystems that agree on those get the same answer. */
  lemma CheckReadsOnlyTwoEntries(fs: Fs, fs': Fs, cwd: Path, path: string, force: bool, raiseException: bool)
    requires Canonical(cwd)
    requires IsDir(fs, Some(OutputDirectory(cwd, path))) == IsDir(fs', Some(OutputDirectory(cwd, path)))
    requires Exists(fs, Resolve(cwd, path)) == Exists(fs', Resolve(cwd, path))
    ensures CanOutputToFile(fs, cwd, path, force, raiseException)
         == CanOutputToFile(fs', cwd, path, force, raiseException)
  {
  }

  const Suffix := ".downloading"

  /** The path a temporary name lands on: the output's own name with the
      suffix appended, in the same directory; the root's sibling is
      `/.downloading`. */
  function Sibling(p: Path): (q: Path)
    requires Canonical(p)
    ensures Canonical(q)
    ensures q != p && |q| >= 1 && Parent(q) == Parent(p)
  {
    if |p| == 0 then [Suffix]
    else p[..|p| - 1] + [p[|p| - 1] + Suffix]
  }

  /** `create_tempfile(path)`: the absolute output path with `.downloading`
      appended. The result starts with the absolute path string and is
      longer than it, resolves to the output's sibling, and so never names
      the output itself. */
  function CreateTempfile(cwd: Path, path: string): (t: string)
    requires Canonical(cwd)
    ensures Render(AbsPath(cwd, path)) < t
    ensures t[|Render(AbsPath(cwd, path))|..] == Suffix
    ensures AbsPath(cwd, t) == Sibling(AbsPath(cwd, path))
    ensures Parent(AbsPath(cwd, t)) == Parent(AbsPath(cwd, path))
    ensures AbsPath(cwd, t) != AbsPath(cwd, path)
  {
    var abs := AbsPath(cwd, path);
    RenderSibling(abs);
    AbsPathOfRender(cwd, Sibling(abs));
    Render(abs) + Suffix
  }

  /** Appending the suffix to the rendered path renders the sibling. */
  lemma RenderSibling(p: Path)
    requires Canonical(p)
    ensures Render(p) + Suffix == Render(Sibling(p))
  {
    if |p| > 0 {
      JoinAppend(p, Suffix);
      AppendAssoc("/", Join(p), Suffix);
    } else {
      assert Join([Suffix]) == Suffix;
    }
  }

  lemma {:induction false} JoinAppend(p: Path, suffix: string)
    requires |p| >= 1
    ensures Join(p) + suffix == Join(p[..|p| - 1] + [p[|p| - 1] + suffix])
    decreases |p|
  {
    var q := p[..|p| - 1] + [p[|p| - 1] + suffix];
    if |p| > 1 {
      JoinAppend(p[1..], suffix);
      assert q[1..] == p[1..][..|p[1..]| - 1] + [p[1..][|p[1..]| - 1] + suffix];
    }
  }
}
