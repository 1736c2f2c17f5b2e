/**
 * POSIX path joining and the last path component, as Python's `os.path`
 * computes them on text (no file system is consulted).
 */
module Paths {

  predicate StartsWithSep(p: string) {
    |p| > 0 && p[0] == '/'
  }

  predicate EndsWithSep(p: string) {
    |p| > 0 && p[|p| - 1] == '/'
  }

  /**
   * The text that joining puts in front of a relative component: the path
   * itself when it is empty or already ends with '/', otherwise the path
   * followed by one '/'.
   */
  function DirPrefix(p: string): (d: string)
    ensures d == p || d == p + "/"
    ensures d == [] || EndsWithSep(d)
  {
    if p == [] || EndsWithSep(p) then p else p + "/"
  }

  /**
   * `os.path.join(a, b)` on POSIX: an absolute `b` replaces everything before
   * it; otherwise `b` is appended, with one '/' unless `a` is empty or
   * already ends with one.
   */
  function Join(a: string, b: string): string {
    if StartsWithSep(b) then b
    else if a == [] || EndsWithSep(a) then a + b
    else a + "/" + b
  }

  /** `os.path.join(head, *rest)`: joins the components left to right. */
  function JoinAll(head: string, rest: seq<string>): string
    decreases |rest|
  {
    if rest == [] then head else JoinAll(Join(head, rest[0]), rest[1..])
  }

  /** `os.path.basename(p)`: the text after the last '/'. */
  function Basename(p: string): (b: string)
    ensures '/' !in b
    ensures |b| <= |p|
    decreases |p|
  {
    if p == [] || EndsWithSep(p) then []
    else Basename(p[..|p| - 1]) + [p[|p| - 1]]
  }

  /** Joining three components is three nested two-way joins. */
  lemma JoinAllThree(head: string, a: string, b: string, c: string)
    ensures JoinAll(head, [a, b, c]) == Join(Join(Join(head, a), b), c)
  {
    var p1 := Join(head, a);
    var p2 := Join(p1, b);
    assert [a, b, c][1..] == [b, c];
    assert JoinAll(head, [a, b, c]) == JoinAll(p1, [b, c]);
    assert [b, c][1..] == [c];
    assert JoinAll(p1, [b, c]) == JoinAll(p2, [c]);
    assert [c][1..] == [];
    assert JoinAll(p2, [c]) == JoinAll(Join(p2, c), []);
  }

  /** A directory component and then a file name, both relative, land after the prefix separated by one '/'. */
  lemma JoinDirFile(a: string, dir: string, name: string)
    requires dir != [] && !StartsWithSep(dir) && !EndsWithSep(dir) && !StartsWithSep(name)
    ensures Join(Join(a, dir), name) == DirPrefix(a) + dir + "/" + name
  {
    var q := DirPrefix(a) + dir;
    assert Join(a, dir) == q;
    assert q[|q| - 1] == dir[|dir| - 1];
  }

  lemma ConcatKeepsEnd(a: string, b: string)
    requires !EndsWithSep(a) && !EndsWithSep(b)
    ensures !EndsWithSep(a + b)
  {
    if b != [] {
      assert (a + b)[|a + b| - 1] == b[|b| - 1];
    } else {
      assert a + b == a;
    }
  }

  /** Joining a folder, a directory and a file name, the last two relative. */
  lemma JoinAllDirFile(head: string, folder: string, dir: string, name: string)
    requires dir != [] && !StartsWithSep(dir) && !EndsWithSep(dir) && !StartsWithSep(name)
    ensures JoinAll(head, [folder, dir, name]) == DirPrefix(Join(head, folder)) + dir + "/" + name
  {
    JoinAllThree(head, folder, dir, name);
    JoinDirFile(Join(head, folder), dir, name);
  }

  /** Joining a component that contains no '/' makes that component the basename. */
  lemma BasenameOfJoin(a: string, f: string)
    requires '/' !in f
    ensures Basename(Join(a, f)) == f
  {
    BasenameAfterPrefix(DirPrefix(a), f);
  }

  lemma {:induction false} BasenameAfterPrefix(d: string, f: string)
    requires d == [] || EndsWithSep(d)
    requires '/' !in f
    ensures Basename(d + f) == f
    decreases |f|
  {
    if f != [] {
      var p := d + f;
      assert p[..|p| - 1] == d + f[..|f| - 1];
      assert p[|p| - 1] == f[|f| - 1];
      BasenameAfterPrefix(d, f[..|f| - 1]);
    } else {
      assert d + f == d;
    }
  }
}
