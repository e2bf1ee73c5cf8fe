/**
 * `filepath.Dir` and `filepath.Join` on `/`-separated clean paths: no empty,
 * `.` or `..` segment, no trailing separator, except the paths `.` and `/`.
 * On such paths Go's `Clean` has nothing left to do, so `Dir` drops the last
 * segment and `Join` appends one.
 */
module Paths {
  import opened Text

  /** One path segment that `Clean` leaves alone. */
  predicate IsName(s: string) {
    s != "" && s != "." && s != ".." && '/' !in s
  }

  /** The segments of a clean path other than `.` and `/`; a leading empty segment marks an absolute path. */
  predicate CleanSegments(segs: seq<string>) {
    && |segs| >= 1
    && (IsName(segs[0]) || (segs[0] == "" && |segs| >= 2))
    && forall i :: 1 <= i < |segs| ==> IsName(segs[i])
  }

  predicate IsClean(p: string) {
    p == "." || p == "/" || CleanSegments(Split(p, '/'))
  }

  /** Index of the last `/` in `p`, or -1. */
  function LastSlash(p: string): (i: int)
    ensures -1 <= i < |p|
    ensures i >= 0 ==> p[i] == '/'
    ensures forall j :: i < j < |p| ==> p[j] != '/'
  {
    if p == [] then -1 else if p[|p| - 1] == '/' then |p| - 1 else LastSlash(p[..|p| - 1])
  }

  /** `filepath.Dir(p)` on a clean path: everything but the last element. */
  function Dir(p: string): (r: string)
    ensures |r| <= |p| || r == "."
  {
    var i := LastSlash(p);
    if i < 0 then "." else if i == 0 then "/" else p[..i]
  }

  /** The parent of a clean path is clean. */
  lemma DirIsClean(p: string)
    requires IsClean(p)
    ensures IsClean(Dir(p))
  {
    var i := LastSlash(p);
    if i > 0 {
      var q, last := p[..i], p[i + 1..];
      assert p == q + ['/'] + last;
      assert '/' !in last;
      SplitAppend(q, '/', last);
      SplitNoSeparator(last, '/');
      var segs, qs := Split(p, '/'), Split(q, '/');
      assert segs == qs + [last];
      assert p != "/";
      if p == "." {
        assert false;
      }
      assert CleanSegments(segs);
      forall k | 1 <= k < |qs| ensures IsName(qs[k]) {
        assert qs[k] == segs[k];
      }
      assert qs[0] == segs[0];
      JoinSplit(q, '/');
    }
  }

  /** `filepath.Join(dir, name)` on a clean directory and one more segment. */
  function Join(dir: string, name: string): string {
    if dir == "." then name else if dir == "/" then "/" + name else dir + "/" + name
  }

  /** Joining a segment to a clean directory gives a clean path whose parent is that directory. */
  lemma JoinIsClean(dir: string, name: string)
    requires IsClean(dir) && IsName(name)
    ensures IsClean(Join(dir, name)) && Dir(Join(dir, name)) == dir
  {
    var r := Join(dir, name);
    SplitNoSeparator(name, '/');
    if dir == "." {
      assert Split(r, '/') == [name];
      assert LastSlash(r) == -1;
    } else if dir == "/" {
      assert r == "" + ['/'] + name;
      SplitAppend("", '/', name);
      assert Split(r, '/') == ["", name];
      assert LastSlash(r) == 0;
    } else {
      assert r == dir + ['/'] + name;
      SplitAppend(dir, '/', name);
      var segs := Split(dir, '/');
      assert Split(r, '/') == segs + [name];
      LastSlashBefore(dir, name);
      assert r[..|dir|] == dir;
    }
  }

  lemma LastSlashBefore(a: string, b: string)
    requires '/' !in b
    ensures LastSlash(a + "/" + b) == |a|
  {
    var p := a + "/" + b;
    var i := LastSlash(p);
    assert p[|a|] == '/';
  }

  /** Two segments at once: `filepath.Join(dir, a, b)`. */
  lemma DirDirJoin(dir: string, a: string, b: string)
    requires IsClean(dir) && IsName(a) && IsName(b)
    ensures Dir(Join(Join(dir, a), b)) == Join(dir, a)
    ensures Dir(Dir(Join(Join(dir, a), b))) == dir
    ensures IsClean(Join(Join(dir, a), b))
  {
    JoinIsClean(dir, a);
    JoinIsClean(Join(dir, a), b);
  }
}
