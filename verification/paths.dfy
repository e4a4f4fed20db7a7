/** The parts of Node's posix `path` module that the bundler relies on, stated
    over '/'-separated segments: normalisation, `join`, `dirname`, `basename`,
    `resolve` against a working directory, and `relative`. Trailing-slash
    preservation and Windows paths are not part of this model. */
module Paths {
  import opened Text

  predicate IsAbsolute(p: string) {
    |p| > 0 && p[0] == '/'
  }

  /** Every ".." segment comes before every other segment. */
  predicate UpsLead(segs: seq<string>) {
    forall i, j :: 0 <= i < j < |segs| && segs[j] == ".." ==> segs[i] == ".."
  }

  /** Node's segment normalisation: empty and "." segments disappear and ".."
      cancels the previous real segment; a ".." with nothing left to cancel is
      kept when `allowAbove` (relative paths) and dropped otherwise. */
  function Normalized(segs: seq<string>, allowAbove: bool): (r: seq<string>)
    ensures forall i :: 0 <= i < |r| ==> r[i] != "" && r[i] != "."
    ensures forall i :: 0 <= i < |r| ==> r[i] in segs
    ensures !allowAbove ==> forall i :: 0 <= i < |r| ==> r[i] != ".."
    ensures UpsLead(r)
    decreases |segs|
  {
    if |segs| == 0 then []
    else
      var acc := Normalized(segs[..|segs| - 1], allowAbove);
      var s := segs[|segs| - 1];
      if s == "" || s == "." then acc
      else if s == ".." then
        if |acc| > 0 && acc[|acc| - 1] != ".." then acc[..|acc| - 1]
        else if allowAbove then acc + [".."]
        else acc
      else acc + [s]
  }

  /** `path.normalize(p)` */
  function Normalize(p: string): string
  {
    var body := JoinWith(Normalized(Split(p, '/'), !IsAbsolute(p)), "/");
    if IsAbsolute(p) then "/" + body
    else if body == "" then "."
    else body
  }

  /** `path.join(a, b)`: the non-empty arguments joined by '/', then normalised. */
  function Join(a: string, b: string): string
  {
    if a == "" && b == "" then "."
    else Normalize(if a == "" then b else if b == "" then a else a + "/" + b)
  }

  /** `path.resolve(cwd, p)` for an absolute `cwd`. */
  function Resolve(cwd: string, p: string): string
  {
    if IsAbsolute(p) then Normalize(p) else Normalize(cwd + "/" + p)
  }

  /** Index of the last occurrence of `c` in `s`. */
  function LastIndexOf(s: string, c: char): (i: nat)
    requires c in s
    ensures i < |s| && s[i] == c && c !in s[i + 1..]
    decreases |s|
  {
    if s[|s| - 1] == c then |s| - 1
    else
      assert c in s[..|s| - 1] by {
        var k :| 0 <= k < |s| && s[k] == c;
        assert s[..|s| - 1][k] == c;
      }
      LastIndexOf(s[..|s| - 1], c)
  }

  /** `path.dirname(p)` for a path without a trailing '/'. */
  function Dirname(p: string): string
  {
    if '/' !in p then "."
    else
      var i := LastIndexOf(p, '/');
      if i == 0 then "/" else p[..i]
  }

  /** `path.basename(p)` for a path without a trailing '/'. */
  function Basename(p: string): (r: string)
    ensures '/' !in r
  {
    if '/' !in p then p else p[LastIndexOf(p, '/') + 1..]
  }

  /** Length of the longest common prefix of two segment lists. */
  function CommonLength(a: seq<string>, b: seq<string>): (n: nat)
    ensures n <= |a| && n <= |b| && a[..n] == b[..n]
    ensures n < |a| && n < |b| ==> a[n] != b[n]
  {
    if |a| == 0 || |b| == 0 || a[0] != b[0] then 0
    else
      var n := 1 + CommonLength(a[1..], b[1..]);
      assert a[..n] == [a[0]] + a[1..][..n - 1];
      assert b[..n] == [b[0]] + b[1..][..n - 1];
      n
  }

  function Ups(n: nat): (r: seq<string>)
    ensures |r| == n && forall i :: 0 <= i < n ==> r[i] == ".."
  {
    if n == 0 then [] else [".."] + Ups(n - 1)
  }

  /** `path.relative(from, to)` for absolute paths: climb out of what `from`
      does not share with `to`, then descend into the rest of `to`. */
  function Relative(from: string, to: string): string
  {
    var f := Normalized(Split(from, '/'), false);
    var t := Normalized(Split(to, '/'), false);
    var c := CommonLength(f, t);
    JoinWith(Ups(|f| - c) + t[c..], "/")
  }

  lemma {:induction false} JoinStartsWithHead(parts: seq<string>, sep: string)
    requires |parts| >= 1
    ensures parts[0] <= JoinWith(parts, sep)
  {
    if |parts| > 1 {
      assert JoinWith(parts, sep) == parts[0] + (sep + JoinWith(parts[1..], sep));
    }
  }

  /** A normalised relative path that does not start with ".." has no ".."
      segment at all: once the leading ".." segments are ruled out, the path
      stays below its starting directory. */
  lemma NoUpUnlessLeading(p: string)
    ensures !(".." <= Normalize(p)) ==>
      forall i :: 0 <= i < |Split(Normalize(p), '/')| ==> Split(Normalize(p), '/')[i] != ".."
  {
    var segs := Normalized(Split(p, '/'), !IsAbsolute(p));
    var body := JoinWith(segs, "/");
    forall i | 0 <= i < |segs| ensures '/' !in segs[i] {
      var k :| 0 <= k < |Split(p, '/')| && Split(p, '/')[k] == segs[i];
    }
    if body == "" {
      if IsAbsolute(p) {
        assert Normalize(p) == "" + ['/'] + "";
        SplitPrefix("", "", '/');
      } else {
        assert Normalize(p) == ".";
        SplitNoSeparator(".", '/');
      }
    } else {
      assert |segs| >= 1;
      SplitJoin(segs, '/');
      if IsAbsolute(p) {
        assert Normalize(p) == "" + ['/'] + body;
        SplitPrefix("", body, '/');
      } else {
        assert Normalize(p) == body;
        if segs[0] == ".." {
          JoinStartsWithHead(segs, "/");
        }
      }
    }
  }

  /** The same for `path.join`. */
  lemma JoinNoUps(a: string, b: string)
    ensures !(".." <= Join(a, b)) ==>
      forall i :: 0 <= i < |Split(Join(a, b), '/')| ==> Split(Join(a, b), '/')[i] != ".."
  {
    if a == "" && b == "" {
      SplitNoSeparator(".", '/');
    } else {
      NoUpUnlessLeading(if a == "" then b else if b == "" then a else a + "/" + b);
    }
  }

  /** A plain segment: no '/', and neither empty, "." nor "..". */
  predicate IsName(x: string) {
    '/' !in x && x != "" && x != "." && x != ".."
  }

  lemma SplitOne(x: string)
    requires '/' !in x
    ensures Split("/" + x, '/') == ["", x]
  {
    SplitNoSeparator(x, '/');
    assert "/" + x == "" + ['/'] + x;
    SplitPrefix("", x, '/');
  }

  lemma SplitTwo(x: string, y: string)
    requires '/' !in x && '/' !in y
    ensures Split(x + "/" + y, '/') == [x, y]
    ensures Split("/" + x + "/" + y, '/') == ["", x, y]
  {
    SplitNoSeparator(y, '/');
    assert x + "/" + y == x + ['/'] + y;
    SplitPrefix(x, y, '/');
    assert "/" + x + "/" + y == "" + ['/'] + (x + "/" + y);
    SplitPrefix("", x + "/" + y, '/');
  }

  lemma NormalizedNames(x: string, y: string, allowAbove: bool)
    requires IsName(x) && IsName(y)
    ensures Normalized(["", x], allowAbove) == [x]
    ensures Normalized(["", x, y], allowAbove) == [x, y]
  {
    assert Normalized([], allowAbove) == [];
    assert [""][..0] == [];
    assert Normalized([""], allowAbove) == [];
    assert ["", x][..1] == [""];
    assert Normalized(["", x], allowAbove) == [x];
    assert ["", x, y][..2] == ["", x];
  }

  /** `path.relative` between two files of one directory climbs out of the
      first file's own name: it is taken for a directory. */
  lemma RelativeBetweenSiblings(d: string, a: string, b: string)
    requires IsName(d) && IsName(a) && IsName(b) && a != b
    ensures Relative("/" + d + "/" + a, "/" + d + "/" + b) == "../" + b
  {
    SegmentsOfFile(d, a);
    SegmentsOfFile(d, b);
    CommonLengthAfterShared(d, a, b);
    assert Ups(1) + [d, b][1..] == ["..", b];
    assert JoinWith(["..", b], "/") == ".." + "/" + b;
  }

  /** The normalised segments of the absolute path /d/a. */
  lemma SegmentsOfFile(d: string, a: string)
    requires IsName(d) && IsName(a)
    ensures Normalized(Split("/" + d + "/" + a, '/'), false) == [d, a]
  {
    SplitTwo(d, a);
    NormalizedNames(d, a, false);
  }

  lemma CommonLengthAfterShared(d: string, a: string, b: string)
    requires a != b
    ensures CommonLength([d, a], [d, b]) == 1
  {
    assert [d, a][1..] == [a] && [d, b][1..] == [b];
    assert CommonLength([a], [b]) == 0;
  }

  /** From a directory to a file inside it, `path.relative` is the file's name. */
  lemma RelativeIntoDirectory(d: string, b: string)
    requires IsName(d) && IsName(b)
    ensures Relative("/" + d, "/" + d + "/" + b) == b
  {
    SplitOne(d);
    NormalizedNames(d, b, false);
    SegmentsOfFile(d, b);
    assert CommonLength([d][1..], [d, b][1..]) == 0;
    assert CommonLength([d], [d, b]) == 1;
    assert Ups(0) + [d, b][1..] == [b];
  }

  lemma DotRequestSegments(dir: string, x: string)
    requires '/' !in dir && '/' !in x
    ensures Split(dir + "/" + "./" + x, '/') == [dir, ".", x]
  {
    SplitNoSeparator(x, '/');
    assert "./" + x == "." + ['/'] + x;
    SplitPrefix(".", x, '/');
    assert dir + "/" + "./" + x == dir + ['/'] + ("./" + x);
    SplitPrefix(dir, "./" + x, '/');
  }

  /** A "./" request joined to the current directory is the bare name. */
  lemma JoinHere(x: string)
    requires IsName(x)
    ensures Join(".", "./" + x) == x
  {
    DotRequestSegments(".", x);
    assert "." + "/" + ("./" + x) == "." + "/" + "./" + x;
    NormalizedHere(x);
    assert JoinWith([x], "/") == x;
  }

  /** A "./" request joined to the parent directory climbs out of it. */
  lemma JoinAbove(x: string)
    requires IsName(x)
    ensures Join("..", "./" + x) == "../" + x
  {
    DotRequestSegments("..", x);
    assert ".." + "/" + ("./" + x) == ".." + "/" + "./" + x;
    NormalizedAbove(x);
    assert JoinWith(["..", x], "/") == ".." + "/" + x;
  }

  lemma NormalizedHere(x: string)
    requires IsName(x)
    ensures Normalized([".", ".", x], true) == [x]
  {
    assert [".", ".", x][..2] == [".", "."];
    assert [".", "."][..1] == ["."];
    assert ["."][..0] == [];
    assert Normalized([], true) == [];
    assert Normalized(["."], true) == [];
    assert Normalized([".", "."], true) == [];
  }

  lemma NormalizedAbove(x: string)
    requires IsName(x)
    ensures Normalized(["..", ".", x], true) == ["..", x]
  {
    assert ["..", ".", x][..2] == ["..", "."];
    assert ["..", "."][..1] == [".."];
    assert [".."][..0] == [];
    assert Normalized([], true) == [];
    assert Normalized([".."], true) == [".."];
    assert Normalized(["..", "."], true) == [".."];
  }

  /** The directory of dir/f, for a name f without '/'. */
  lemma DirnameOfEntry(dir: string, f: string)
    requires dir != "" && '/' !in f
    ensures Dirname(dir + "/" + f) == dir
  {
    var s := dir + "/" + f;
    var i := LastIndexOf(s, '/');
    assert s[|dir|] == '/';
    assert forall j :: |dir| < j < |s| ==> s[j] != '/' by {
      forall j | |dir| < j < |s| ensures s[j] != '/' {
        assert s[j] == f[j - |dir| - 1];
      }
    }
    assert forall j :: i < j < |s| ==> s[j] != '/' by {
      forall j | i < j < |s| ensures s[j] != '/' {
        assert s[j] == s[i + 1..][j - i - 1];
      }
    }
    assert i == |dir|;
    assert s[..|dir|] == dir;
  }
}
