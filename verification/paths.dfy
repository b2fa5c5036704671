/** Path strings and the absolute paths they denote, after the POSIX
    `os.path` functions the downloader relies on (`abspath`, `dirname`).

    A program value is a `string`. What the operating system reaches is a
    `Path`: the names from the root down, with no empty, `.` or `..` name and
    no slash inside a name. */
module Paths {

  type Path = seq<string>

  predicate IsName(s: string) {
    s != "" && s != "." && s != ".." && '/' !in s
  }

  predicate Canonical(p: Path) {
    forall i :: 0 <= i < |p| ==> IsName(p[i])
  }

  predicate NoSlash(parts: seq<string>) {
    forall i :: 0 <= i < |parts| ==> '/' !in parts[i]
  }

  /** `os.path.dirname` of an absolute path: all names but the last; the root
      is its own parent. */
  function Parent(p: Path): (q: Path)
    ensures |p| > 0 ==> |q| == |p| - 1 && q < p
  {
    if |p| == 0 then [] else p[..|p| - 1]
  }

  /** The position of the first slash in `s`. */
  function FirstSlash(s: string): (i: nat)
    requires '/' in s
    ensures i < |s| && s[i] == '/' && '/' !in s[..i]
  {
    if s[0] == '/' then 0
    else
      var j := FirstSlash(s[1..]);
      assert s[..j + 1] == [s[0]] + s[1..][..j];
      j + 1
  }

  /** The pieces of `s` between slashes, as Python's `s.split('/')`. */
  function Split(s: string): (parts: seq<string>)
    ensures |parts| >= 1
    ensures NoSlash(parts)
    decreases |s|
  {
    if '/' !in s then [s]
    else
      var i := FirstSlash(s);
      [s[..i]] + Split(s[i + 1..])
  }

  /** The pieces glued back together with slashes, as `'/'.join(parts)`. */
  function Join(parts: seq<string>): (s: string)
    requires |parts| >= 1
    decreases |parts|
  {
    if |parts| == 1 then parts[0] else parts[0] + "/" + Join(parts[1..])
  }

  /** The string `abspath` produces for a canonical path. */
  function Render(p: Path): (s: string)
    requires Canonical(p)
    ensures |s| >= 1 && s[0] == '/'
  {
    if |p| == 0 then "/" else "/" + Join(p)
  }

  /** One piece of a path applied to a directory: empty pieces and `.` stay
      put, `..` climbs (never above the root), a name descends. */
  function Step(dir: Path, piece: string): (d: Path)
    requires Canonical(dir) && '/' !in piece
    ensures Canonical(d)
  {
    if piece == "" || piece == "." then dir
    else if piece == ".." then Parent(dir)
    else dir + [piece]
  }

  /** The directory reached from `dir` by the pieces in order. */
  function Walk(dir: Path, pieces: seq<string>): (p: Path)
    requires Canonical(dir) && NoSlash(pieces)
    ensures Canonical(p)
    decreases |pieces|
  {
    if |pieces| == 0 then dir else Walk(Step(dir, pieces[0]), pieces[1..])
  }

  /** `os.path.abspath(s)` with working directory `cwd`: a relative string is
      taken from `cwd`, an absolute one from the root, then normalised. */
  function AbsPath(cwd: Path, s: string): (p: Path)
    requires Canonical(cwd)
    ensures Canonical(p)
  {
    Walk(if |s| > 0 && s[0] == '/' then [] else cwd, Split(s))
  }

  /** Concatenation is associative (stated apart from any path facts, so
      the solver proves it on plain sequences). */
  lemma AppendAssoc<T>(a: seq<T>, b: seq<T>, c: seq<T>)
    ensures a + (b + c) == (a + b) + c
  {
  }

  /** A string splits at any slash that has no slash before it. */
  lemma SplitAt(s: string, k: nat)
    requires k < |s| && s[k] == '/' && '/' !in s[..k]
    ensures Split(s) == [s[..k]] + Split(s[k + 1..])
  {
    FirstSlashAt(s, k);
  }

  /** A slash with no slash before it is the first slash. */
  lemma FirstSlashAt(s: string, k: nat)
    requires k < |s| && s[k] == '/' && '/' !in s[..k]
    ensures FirstSlash(s) == k
  {
    var i := FirstSlash(s);
    forall j | 0 <= j < k
      ensures s[j] != '/'
    {
      assert s[..k][j] == s[j];
    }
    forall j | 0 <= j < i
      ensures s[j] != '/'
    {
      assert s[..i][j] == s[j];
    }
  }

  /** A slash in the middle of a string separates the pieces of both sides. */
  lemma {:induction false} SplitConcat(x: string, y: string)
    ensures Split(x + "/" + y) == Split(x) + Split(y)
    decreases |x|
  {
    var s := x + "/" + y;
    if '/' !in x {
      assert s[..|x|] == x && s[|x|] == '/' && s[|x| + 1..] == y;
      SplitAt(s, |x|);
    } else {
      var i := FirstSlash(x);
      var head, tail := x[..i + 1], x[i + 1..];
      assert x == head + tail;
      assert s == head + (tail + "/" + y);
      assert s[..i] == x[..i] && s[i] == '/' && s[i + 1..] == tail + "/" + y;
      SplitAt(s, i);
      SplitConcat(tail, y);
      var a, b, c := [x[..i]], Split(tail), Split(y);
      assert Split(x) == a + b;
      assert Split(s) == a + (b + c);
      AppendAssoc(a, b, c);
    }
  }

  /** Splitting undoes joining, provided no piece holds a slash. */
  lemma {:induction false} SplitJoin(parts: seq<string>)
    requires |parts| >= 1 && NoSlash(parts)
    ensures Split(Join(parts)) == parts
    decreases |parts|
  {
    var p0 := parts[0];
    assert '/' !in p0;
    assert Split(p0) == [p0];
    if |parts| > 1 {
      var rest := parts[1..];
      assert NoSlash(rest) by {
        forall i | 0 <= i < |rest|
          ensures '/' !in rest[i]
        {
          assert rest[i] == parts[i + 1];
        }
      }
      SplitJoin(rest);
      assert Join(parts) == p0 + "/" + Join(rest);
      SplitConcat(p0, Join(rest));
      assert parts == [p0] + rest;
    }
  }

  /** Joining undoes splitting: every string is its pieces glued with slashes. */
  lemma {:induction false} JoinSplit(s: string)
    ensures Join(Split(s)) == s
    decreases |s|
  {
    if '/' in s {
      var i := FirstSlash(s);
      var rest := s[i + 1..];
      var parts := Split(s);
      assert parts == [s[..i]] + Split(rest);
      assert parts[0] == s[..i] && parts[1..] == Split(rest);
      JoinSplit(rest);
      assert Join(parts) == s[..i] + "/" + rest;
      Around(s, i);
    }
  }

  /** A sequence is what comes before position `i`, the element there, and
      what comes after (stated apart from any path facts, like
      `AppendAssoc`). */
  lemma Around<T>(s: seq<T>, i: nat)
    requires i < |s|
    ensures s[..i] + [s[i]] + s[i + 1..] == s
  {
  }

  /** Walking a directory through names only appends them. */
  lemma {:induction false} WalkNames(dir: Path, names: Path)
    requires Canonical(dir) && Canonical(names)
    ensures Walk(dir, names) == dir + names
    decreases |names|
  {
    if |names| > 0 {
      var n := names[0];
      assert IsName(n);
      assert Step(dir, n) == dir + [n];
      assert Walk(dir, names) == Walk(dir + [n], names[1..]);
      WalkNames(dir + [n], names[1..]);
      assert names == [n] + names[1..];
      AppendAssoc(dir, [n], names[1..]);
    }
  }

  /** `abspath` of the string it produced for `p` is `p` again, whatever the
      working directory: rendered paths are absolute and already normal. */
  lemma AbsPathOfRender(cwd: Path, p: Path)
    requires Canonical(cwd) && Canonical(p)
    ensures AbsPath(cwd, Render(p)) == p
  {
    if |p| == 0 {
      assert Split("/") == ["", ""] by {
        assert "/"[1..] == "";
      }
      assert Walk([], ["", ""]) == Walk([], [""]) by {
        assert ["", ""][1..] == [""];
      }
      assert Walk([], [""]) == Walk([], []) by {
        assert [""][1..] == [];
      }
    } else {
      assert Render(p) == Join([""] + p) by {
        assert ([""] + p)[1..] == p;
      }
      SplitJoin([""] + p);
      assert ([""] + p)[1..] == p;
      WalkNames([], p);
    }
  }

  /** `abspath` is idempotent. */
  lemma AbsPathIdempotent(cwd: Path, s: string)
    requires Canonical(cwd)
    ensures AbsPath(cwd, Render(AbsPath(cwd, s))) == AbsPath(cwd, s)
  {
    AbsPathOfRender(cwd, AbsPath(cwd, s));
  }
}
