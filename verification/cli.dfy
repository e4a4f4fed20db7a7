/** The packager behind the `nld` command: parsing `name:path` arguments,
    ordering the inputs, computing the bundle root, loading each input into
    a bundle (merging bundle files with a prefix, naming file symbols,
    handling collisions and join mode), and choosing the adapter and the
    interpreter for the compiler. Reading files, loading modules through the
    host's `require` and compression are oracles. */
module Cli {
  import opened Js
  import opened Text
  import Paths
  import opened BundleStore
  import Compiler
  import Runtime

  /** A command-line option that takes files: absent, given without a value
      (`true`), given once, or given several times. */
  datatype ArgOpt = Unset | Flag | One(text: string) | Many(texts: seq<string>)

  predicate OptTruthy(o: ArgOpt) {
    match o
    case Unset => false
    case Flag => true
    case One(t) => t != ""
    case Many(_) => true
  }

  /** `(o && o !== true) ? [].concat(o) : []` */
  function Listed(o: ArgOpt): seq<string>
  {
    match o
    case Unset => []
    case Flag => []
    case One(t) => if t == "" then [] else [t]
    case Many(ts) => ts
  }

  /** The parsed command line. `plain` holds the bare arguments. */
  datatype Options = Options(
    cwd: string,
    l: ArgOpt, b: ArgOpt, s: ArgOpt, x: ArgOpt, plain: seq<string>,
    j: Value, c: bool, f: bool, q: bool,
    a: Value, i: Value, p: Value, u: Value)

  /** One input: an optional symbol name, an absolute path, and a flag
      (`Link` for a bundle file to merge). */
  datatype Arg = Arg(name: Option<string>, path: string, flag: Flag)

  /** `parse_with_flag(flag)(arg)`: split on ':'; without a ':' the whole
      argument is the path; otherwise the first field is the name and the
      second the path, and any further fields are dropped. */
  function ParseWithFlag(cwd: string, flag: Flag, arg: string): (r: Arg)
    ensures ':' !in arg ==> r == Arg(None, Paths.Resolve(cwd, arg), flag)
    ensures ':' in arg ==>
      r == Arg(Some(Before(arg, ':')), Paths.Resolve(cwd, Before(After(arg, ':'), ':')), flag)
  {
    var parts := Split(arg, ':');
    SplitFields(arg, ':');
    if |parts| < 2 then Arg(None, Paths.Resolve(cwd, arg), flag)
    else
      SplitFields(After(arg, ':'), ':');
      Arg(Some(parts[0]), Paths.Resolve(cwd, parts[1]), flag)
  }

  /** `texts.map(parse_with_flag(flag))`. */
  function Parsed(cwd: string, texts: seq<string>, flag: Flag): (r: seq<Arg>)
    ensures |r| == |texts|
    ensures forall i :: 0 <= i < |r| ==> r[i].flag == flag
    ensures forall i :: 0 <= i < |r| ==> r[i] == ParseWithFlag(cwd, flag, texts[i])
  {
    if texts == [] then [] else [ParseWithFlag(cwd, flag, texts[0])] + Parsed(cwd, texts[1..], flag)
  }

  /** The inputs in processing order: merges, binaries, statics, plain files
      and autoruns; only the plain files when `j` is set. */
  function Inputs(o: Options): (r: seq<Arg>)
    ensures !Truthy(o.j) ==>
      |r| == |Listed(o.l)| + |Listed(o.b)| + |Listed(o.s)| + |o.plain| + |Listed(o.x)| &&
      r[..|Listed(o.l)|] == Parsed(o.cwd, Listed(o.l), Link) &&
      r[|Listed(o.l)|..|r| - |Listed(o.x)|] ==
        Parsed(o.cwd, Listed(o.b), Binary) + Parsed(o.cwd, Listed(o.s), Static) + Parsed(o.cwd, o.plain, Plain) &&
      r[|r| - |Listed(o.x)|..] == Parsed(o.cwd, Listed(o.x), Autorun)
    ensures Truthy(o.j) ==> r == Parsed(o.cwd, o.plain, Plain)
  {
    if !Truthy(o.j) then
      var merges := Parsed(o.cwd, Listed(o.l), Link);
      var middle := Parsed(o.cwd, Listed(o.b), Binary) + Parsed(o.cwd, Listed(o.s), Static) + Parsed(o.cwd, o.plain, Plain);
      var autoruns := Parsed(o.cwd, Listed(o.x), Autorun);
      assert (merges + middle + autoruns)[..|merges|] == merges;
      assert (merges + middle + autoruns)[|merges|..|merges| + |middle|] == middle;
      assert (merges + middle + autoruns)[|merges| + |middle|..] == autoruns;
      merges + middle + autoruns
    else Parsed(o.cwd, o.plain, Plain)
  }

  function Rank(f: Flag): nat {
    match f
    case Link => 0
    case Binary => 1
    case Static => 2
    case Plain => 3
    case Autorun => 4
  }

  predicate Ordered(args: seq<Arg>) {
    forall i, k :: 0 <= i < k < |args| ==> Rank(args[i].flag) <= Rank(args[k].flag)
  }

  predicate RanksWithin(args: seq<Arg>, lo: nat, hi: nat) {
    forall i :: 0 <= i < |args| ==> lo <= Rank(args[i].flag) <= hi
  }

  lemma OrderedConcat(xs: seq<Arg>, ys: seq<Arg>, lo: nat, m1: nat, m2: nat, hi: nat)
    requires lo <= m1 <= m2 <= hi
    requires Ordered(xs) && Ordered(ys) && RanksWithin(xs, lo, m1) && RanksWithin(ys, m2, hi)
    ensures Ordered(xs + ys) && RanksWithin(xs + ys, lo, hi)
  {
    forall i, k | 0 <= i < k < |xs + ys| ensures Rank((xs + ys)[i].flag) <= Rank((xs + ys)[k].flag) {
      if k < |xs| {
        assert (xs + ys)[i] == xs[i] && (xs + ys)[k] == xs[k];
      } else if i >= |xs| {
        assert (xs + ys)[i] == ys[i - |xs|] && (xs + ys)[k] == ys[k - |xs|];
      } else {
        assert (xs + ys)[i] == xs[i] && (xs + ys)[k] == ys[k - |xs|];
      }
    }
    forall i | 0 <= i < |xs + ys| ensures lo <= Rank((xs + ys)[i].flag) <= hi {
      if i < |xs| {
        assert (xs + ys)[i] == xs[i];
      } else {
        assert (xs + ys)[i] == ys[i - |xs|];
      }
    }
  }

  lemma ParsedGroup(cwd: string, texts: seq<string>, flag: Flag)
    ensures Ordered(Parsed(cwd, texts, flag))
    ensures RanksWithin(Parsed(cwd, texts, flag), Rank(flag), Rank(flag))
  {
  }

  /** Outside join mode the inputs come grouped by kind (merge, binary,
      static, plain, autorun), every command-line file once; in join mode
      they are exactly the plain files. */
  lemma InputsOrder(o: Options)
    ensures !Truthy(o.j) ==>
      Ordered(Inputs(o)) &&
      |Inputs(o)| == |Listed(o.l)| + |Listed(o.b)| + |Listed(o.s)| + |o.plain| + |Listed(o.x)|
    ensures Truthy(o.j) ==>
      |Inputs(o)| == |o.plain| && forall i :: 0 <= i < |Inputs(o)| ==> Inputs(o)[i].flag == Plain
  {
    if !Truthy(o.j) {
      var gl, gb, gs := Parsed(o.cwd, Listed(o.l), Link), Parsed(o.cwd, Listed(o.b), Binary), Parsed(o.cwd, Listed(o.s), Static);
      var gp, gx := Parsed(o.cwd, o.plain, Plain), Parsed(o.cwd, Listed(o.x), Autorun);
      ParsedGroup(o.cwd, Listed(o.l), Link);
      ParsedGroup(o.cwd, Listed(o.b), Binary);
      ParsedGroup(o.cwd, Listed(o.s), Static);
      ParsedGroup(o.cwd, o.plain, Plain);
      ParsedGroup(o.cwd, Listed(o.x), Autorun);
      OrderedConcat(gb, gs, 1, 1, 2, 2);
      OrderedConcat(gb + gs, gp, 1, 2, 3, 3);
      OrderedConcat(gl, gb + gs + gp, 0, 0, 1, 3);
      OrderedConcat(gl + (gb + gs + gp), gx, 0, 3, 4, 4);
      assert Inputs(o) == gl + (gb + gs + gp) + gx;
    }
  }

  /** `q` is a prefix of each of the first `n` paths. */
  ghost predicate PrefixOfFirst(q: string, paths: seq<string>, n: nat) {
    forall k :: 0 <= k < n && k < |paths| ==> q <= paths[k]
  }

  /** `q` is a prefix of every path. */
  ghost predicate IsCommonPrefix(q: string, paths: seq<string>) {
    PrefixOfFirst(q, paths, |paths|)
  }

  /** The character loop of the root reduction. */
  method CommonPrefixLength(a: string, b: string) returns (n: nat)
    ensures n <= |a| && n <= |b| && a[..n] == b[..n]
    ensures n < |a| && n < |b| ==> a[n] != b[n]
  {
    n := 0;
    while n < |a| && n < |b| && a[n] == b[n]
      invariant n <= |a| && n <= |b| && a[..n] == b[..n]
    {
      n := n + 1;
    }
  }

  /** `bundle_root` for several inputs outside join mode: the longest common
      prefix of all paths, character by character, whether or not it ends at
      a '/'. */
  method BundleRoot(paths: seq<string>) returns (root: string)
    requires |paths| >= 2
    ensures IsCommonPrefix(root, paths)
    ensures forall q :: IsCommonPrefix(q, paths) ==> q <= root
  {
    root := paths[0];
    for i := 1 to |paths|
      invariant PrefixOfFirst(root, paths, i)
      invariant forall q :: PrefixOfFirst(q, paths, i) ==> q <= root
    {
      var n := CommonPrefixLength(root, paths[i]);
      ghost var previous := root;
      root := root[..n];
      ghost var upto := i + 1;
      assert PrefixOfFirst(root, paths, upto) by {
        forall k | 0 <= k < upto ensures root <= paths[k] {
          if k < i {
            assert previous <= paths[k];
          }
        }
      }
      forall q | PrefixOfFirst(q, paths, upto) ensures q <= root {
        assert PrefixOfFirst(q, paths, i);
        assert q <= previous && q <= paths[i];
        assert forall j :: 0 <= j < |q| ==> previous[j] == paths[i][j];
      }
    }
  }

  /** The paths of the inputs, in order. */
  function PathsOf(args: seq<Arg>): (paths: seq<string>)
    ensures |paths| == |args| && forall k :: 0 <= k < |args| ==> paths[k] == args[k].path
  {
    seq(|args|, k requires 0 <= k < |args| => args[k].path)
  }

  /** The bundle root of `create`: the directory of a single input; for
      several inputs outside join mode, the longest character-wise common
      prefix of their paths; none for several inputs in join mode. */
  method ChooseRoot(args: seq<Arg>, j: Value) returns (root: Option<string>)
    requires |args| >= 1
    ensures |args| == 1 ==> root == Some(Paths.Dirname(args[0].path))
    ensures |args| >= 2 && !Truthy(j) ==>
      root.Some? && IsCommonPrefix(root.value, PathsOf(args)) &&
      forall q :: IsCommonPrefix(q, PathsOf(args)) ==> q <= root.value
    ensures |args| >= 2 && Truthy(j) ==> root == None
  {
    if |args| < 2 {
      root := Some(Paths.Dirname(args[0].path));
    } else if !Truthy(j) {
      var common := BundleRoot(PathsOf(args));
      root := Some(common);
    } else {
      root := None;
    }
  }

  /** `d` is an ancestor directory of `p`. */
  predicate IsDirOf(d: string, p: string) {
    Paths.IsAbsolute(d) && (if d == "/" then Paths.IsAbsolute(p) else d + "/" <= p)
  }

  /** `d` is an ancestor directory of every path. */
  predicate IsDirOfAll(d: string, paths: seq<string>) {
    forall k :: 0 <= k < |paths| ==> IsDirOf(d, paths[k])
  }

  /** The root as evidently intended: the common prefix cut back to the last
      '/', which is the deepest directory holding every input. */
  method DirectoryRoot(paths: seq<string>) returns (root: string)
    requires |paths| >= 2
    requires forall k :: 0 <= k < |paths| ==> Paths.IsAbsolute(paths[k])
    ensures IsDirOfAll(root, paths)
    ensures forall d :: IsDirOfAll(d, paths) ==> d <= root
  {
    var common := BundleRoot(paths);
    assert "/" <= paths[0] && "/" <= paths[1];
    assert IsCommonPrefix("/", paths);
    assert '/' in common by {
      assert "/" <= common;
    }
    var cut := Paths.LastIndexOf(common, '/');
    root := if cut == 0 then "/" else common[..cut];
    forall k | 0 <= k < |paths| ensures IsDirOf(root, paths[k]) {
      assert common <= paths[k];
      if cut > 0 {
        assert root + "/" == common[..cut + 1];
      }
    }
    forall d | IsDirOfAll(d, paths) ensures d <= root {
      assert IsDirOf(d, paths[0]);
      if d != "/" {
        assert IsCommonPrefix(d + "/", paths) by {
          forall k | 0 <= k < |paths| ensures d + "/" <= paths[k] {
            assert IsDirOf(d, paths[k]);
          }
        }
        assert d + "/" <= common;
        assert common[|d|] == '/';
        assert forall j :: cut < j < |common| ==> common[j] != '/' by {
          forall j | cut < j < |common| ensures common[j] != '/' {
            assert common[j] == common[cut + 1..][j - cut - 1];
          }
        }
      }
    }
  }

  /** The symbol name of a file input: its own name unless that is missing
      or empty, else its root-relative path, or that path's last segment
      with `f`. */
  function SymbolName(name: Option<string>, relPath: string, byBasename: bool): (r: string)
    ensures name.Some? && name.value != "" ==> r == name.value
    ensures (name.None? || name.value == "") && byBasename ==> r == Paths.Basename(relPath) && '/' !in r
    ensures (name.None? || name.value == "") && !byBasename ==> r == relPath
  {
    if name.None? || name.value == "" then (if byBasename then Paths.Basename(relPath) else relPath)
    else name.value
  }

  /** The prefix a merge puts in front of every name and path of the merged
      bundle: an explicit name verbatim, else the root-relative directory of
      the bundle file followed by '/', or nothing when that directory is the
      root. Without a root, `path.relative` fails. */
  function MergePrefix(name: Option<string>, root: Option<string>, path: string): (r: Result<string, string>)
    ensures name.Some? ==> r == Ok(name.value)
    ensures name.None? ==> (r.Err? <==> root.None?)
    ensures name.None? && r.Ok? ==>
      var rel := Paths.Relative(root.value, Paths.Dirname(path));
      (rel == "" ==> r.value == "") && (rel != "" ==> r.value == rel + "/" && r.value[|r.value| - 1] == '/')
  {
    if name.Some? then Ok(name.value)
    else if root.None? then Err(NoRoot)
    else
      var rel := Paths.Relative(root.value, Paths.Dirname(path));
      Ok(if rel != "" then rel + "/" else "")
  }

  const NoRoot := "path.relative: the bundle root is undefined"
  const NoInput := "no input file"
  const InvalidAdapter := "invalid adapter"

  function NotFound(path: string): string { "cannot read " + path }

  /** A file's text as stored: for plain and autorun files under `c`, the
      shebang line's text is removed and, outside join mode, the text is
      compressed. */
  function FileData(raw: string, flag: Flag, strip: bool, joining: bool, compress: string -> string): (r: string)
    ensures !(strip && (flag == Plain || flag == Autorun)) ==> r == raw
    ensures strip && (flag == Plain || flag == Autorun) && joining ==> r == StripShebang(raw)
    ensures strip && (flag == Plain || flag == Autorun) && !joining ==> r == compress(StripShebang(raw))
  {
    if strip && (flag == Plain || flag == Autorun) then
      var text := StripShebang(raw);
      if !joining then compress(text) else text
    else raw
  }

  /** The symbol a merge stores for a symbol of the merged bundle. */
  function Prefixed(s: Symbol, prefix: string): Symbol {
    s.(path := prefix + s.path)
  }

  /** `x` is the prefixed form of one of `names`. */
  predicate FromMerge(x: string, prefix: string, names: set<string>) {
    prefix <= x && x[|prefix|..] in names
  }

  /** The merged bundle's symbol table after the merge has written the
      prefixed path back into the symbols named in `done`. */
  function Rewritten(sym: map<string, Symbol>, prefix: string, done: set<string>): map<string, Symbol>
  {
    map n | n in sym :: if n in done then Prefixed(sym[n], prefix) else sym[n]
  }

  /** What merging the symbols `done` of `sub` under `prefix` has made of
      the tables `before`, in three parts. */
  ghost predicate Merged(before: Tables, now: Tables, sub: map<string, Symbol>, prefix: string, done: set<string>) {
    MergedSymbols(before, now, sub, prefix, done) && MergedPaths(before, now, sub, prefix, done) &&
    MergedRun(before, now, sub, prefix, done)
  }

  /** Each merged symbol sits under its prefixed name with its prefixed
      path; every other symbol is untouched; no other symbol appears and
      no name disappears. */
  ghost predicate MergedSymbols(before: Tables, now: Tables, sub: map<string, Symbol>, prefix: string, done: set<string>) {
    before.sym.Keys <= now.sym.Keys &&
    (forall n :: n in sub && n in done ==>
       prefix + n in now.sym && now.sym[prefix + n] == Prefixed(sub[n], prefix)) &&
    (forall x :: x in before.sym && !FromMerge(x, prefix, done) ==> x in now.sym && now.sym[x] == before.sym[x]) &&
    (forall x :: x in now.sym ==> x in before.sym || FromMerge(x, prefix, done))
  }

  /** The prefixed paths of the merged symbols `done`. */
  function PrefixedPaths(sub: map<string, Symbol>, prefix: string, done: set<string>): set<string> {
    set n | n in done && n in sub :: prefix + sub[n].path
  }

  /** The merged symbols `done` that are autoruns. */
  function AutorunsOf(sub: map<string, Symbol>, done: set<string>): set<string> {
    set n | n in done && n in sub && sub[n].flag == Autorun
  }

  /** The prefixed path of each merged symbol maps to a merged name; every
      other path keeps its entry, and no other path appears. */
  ghost predicate MergedPaths(before: Tables, now: Tables, sub: map<string, Symbol>, prefix: string, done: set<string>) {
    (forall n :: n in sub && n in done ==>
       prefix + sub[n].path in now.paths && FromMerge(now.paths[prefix + sub[n].path], prefix, done)) &&
    (forall q :: q in before.paths && q !in PrefixedPaths(sub, prefix, done) ==>
       q in now.paths && now.paths[q] == before.paths[q]) &&
    (forall q :: q in now.paths ==> q in before.paths || q in PrefixedPaths(sub, prefix, done))
  }

  /** The autorun list is extended by one entry per merged autorun, only by
      merged autoruns, and holds every one of them. */
  ghost predicate MergedRun(before: Tables, now: Tables, sub: map<string, Symbol>, prefix: string, done: set<string>) {
    |now.run| == |before.run| + |AutorunsOf(sub, done)| && now.run[..|before.run|] == before.run &&
    (forall i :: |before.run| <= i < |now.run| ==>
       FromMerge(now.run[i], prefix, done) && now.run[i][|prefix|..] in sub &&
       sub[now.run[i][|prefix|..]].flag == Autorun) &&
    (forall n :: n in sub && n in done && sub[n].flag == Autorun ==> prefix + n in now.run[|before.run|..])
  }

  /** Adding one more symbol of the merged bundle keeps `Merged`. */
  lemma MergeStep(before: Tables, now: Tables, sub: map<string, Symbol>, prefix: string, done: set<string>, n: string)
    requires Merged(before, now, sub, prefix, done) && n in sub && n !in done
    ensures Merged(before, Added(now, prefix + n, sub[n].data, prefix + sub[n].path, sub[n].flag), sub, prefix, done + {n})
  {
    MergeStepSymbols(before, now, sub, prefix, done, n);
    MergeStepPaths(before, now, sub, prefix, done, n);
    MergeStepRun(before, now, sub, prefix, done, n);
  }

  lemma MergeStepSymbols(before: Tables, now: Tables, sub: map<string, Symbol>, prefix: string, done: set<string>, n: string)
    requires MergedSymbols(before, now, sub, prefix, done) && n in sub && n !in done
    ensures MergedSymbols(before, Added(now, prefix + n, sub[n].data, prefix + sub[n].path, sub[n].flag), sub, prefix, done + {n})
  {
    var next := Added(now, prefix + n, sub[n].data, prefix + sub[n].path, sub[n].flag);
    assert (prefix + n)[|prefix|..] == n;
    forall x | x in before.sym && !FromMerge(x, prefix, done + {n})
      ensures x in next.sym && next.sym[x] == before.sym[x]
    {
      assert x != prefix + n;
    }
    forall m | m in sub && m in done + {n}
      ensures prefix + m in next.sym && next.sym[prefix + m] == Prefixed(sub[m], prefix)
    {
      if m != n {
        assert prefix + m != prefix + n by {
          assert (prefix + m)[|prefix|..] == m;
        }
      }
    }
  }

  lemma MergeStepPaths(before: Tables, now: Tables, sub: map<string, Symbol>, prefix: string, done: set<string>, n: string)
    requires MergedPaths(before, now, sub, prefix, done) && n in sub && n !in done
    ensures MergedPaths(before, Added(now, prefix + n, sub[n].data, prefix + sub[n].path, sub[n].flag), sub, prefix, done + {n})
  {
    var next := Added(now, prefix + n, sub[n].data, prefix + sub[n].path, sub[n].flag);
    assert (prefix + n)[|prefix|..] == n;
    assert PrefixedPaths(sub, prefix, done + {n}) == PrefixedPaths(sub, prefix, done) + {prefix + sub[n].path};
    forall m | m in sub && m in done + {n}
      ensures prefix + sub[m].path in next.paths && FromMerge(next.paths[prefix + sub[m].path], prefix, done + {n})
    {
      if prefix + sub[m].path != prefix + sub[n].path {
        assert next.paths[prefix + sub[m].path] == now.paths[prefix + sub[m].path];
      }
    }
  }

  lemma MergeStepRun(before: Tables, now: Tables, sub: map<string, Symbol>, prefix: string, done: set<string>, n: string)
    requires MergedRun(before, now, sub, prefix, done) && n in sub && n !in done
    ensures MergedRun(before, Added(now, prefix + n, sub[n].data, prefix + sub[n].path, sub[n].flag), sub, prefix, done + {n})
  {
    var next := Added(now, prefix + n, sub[n].data, prefix + sub[n].path, sub[n].flag);
    assert (prefix + n)[|prefix|..] == n;
    AutorunsStep(sub, done, n);
    forall i | |before.run| <= i < |next.run|
      ensures FromMerge(next.run[i], prefix, done + {n}) && next.run[i][|prefix|..] in sub &&
              sub[next.run[i][|prefix|..]].flag == Autorun
    {
      if i < |now.run| {
        assert next.run[i] == now.run[i];
      }
    }
    forall m | m in sub && m in done + {n} && sub[m].flag == Autorun
      ensures prefix + m in next.run[|before.run|..]
    {
      if m != n {
        assert prefix + m in now.run[|before.run|..];
        assert now.run[|before.run|..] <= next.run[|before.run|..];
      } else {
        assert next.run[|next.run| - 1] == prefix + n;
      }
    }
  }

  /** One more merged symbol adds one merged autorun exactly when it is one. */
  lemma AutorunsStep(sub: map<string, Symbol>, done: set<string>, n: string)
    requires n in sub && n !in done
    ensures |AutorunsOf(sub, done + {n})| == |AutorunsOf(sub, done)| + (if sub[n].flag == Autorun then 1 else 0)
  {
    if sub[n].flag == Autorun {
      assert AutorunsOf(sub, done + {n}) == AutorunsOf(sub, done) + {n};
    } else {
      assert AutorunsOf(sub, done + {n}) == AutorunsOf(sub, done);
    }
  }

  /** The state of `create` while it loads the inputs. */
  class Packager {
    const root: Option<string>
    const joining: bool                      // `j` is a non-empty string
    const strip: bool                        // `c`
    const byBasename: bool                   // `f`
    const quiet: bool                        // `q`
    const read: (string, bool) -> Option<string>  // `fs.readFileSync(path, binary ? "base64" : "utf8")`
    const compress: string -> string
    const bundle: Bundle
    var loaded: set<string>                  // `symbols_loaded`
    var join: seq<string>                    // the texts collected in join mode
    var warnings: seq<string>
    var files: map<string, BundleFile>       // bundle files as the host's module cache holds them

    /** Every name a file input has claimed is defined in the bundle. */
    ghost predicate Valid()
      reads this, bundle
    {
      loaded <= bundle.sym.Keys
    }

    constructor (root: Option<string>, joining: bool, strip: bool, byBasename: bool, quiet: bool,
                 read: (string, bool) -> Option<string>, compress: string -> string, files: map<string, BundleFile>)
      ensures this.root == root && this.joining == joining && this.strip == strip
      ensures this.byBasename == byBasename && this.quiet == quiet
      ensures this.read == read && this.compress == compress && this.files == files
      ensures fresh(bundle) && bundle.View() == Empty
      ensures loaded == {} && join == [] && warnings == []
      ensures Valid()
    {
      this.root, this.joining, this.strip, this.byBasename, this.quiet := root, joining, strip, byBasename, quiet;
      this.read, this.compress, this.files := read, compress, files;
      bundle := new Bundle();
      loaded, join, warnings := {}, [], [];
    }

    /** `load_symbol(arg)` */
    method LoadSymbol(arg: Arg) returns (r: Result<(), string>)
      requires Valid()
      modifies this, bundle
      ensures Valid()
      // A bundle-file input is merged.
      ensures arg.flag == Link ==> loaded == old(loaded) && join == old(join) && warnings == old(warnings)
      ensures arg.flag == Link && r.Err? ==> bundle.View() == old(bundle.View()) && files == old(files)
      ensures arg.flag == Link && arg.path !in old(files) ==> r == Err(NotFound(arg.path))
      ensures arg.flag == Link && arg.path in old(files) ==>
        var file := old(files)[arg.path];
        (file.sym.None? || file.paths.None? || file.run.None?) ==> r == Err("Unable to read bundle file")
      ensures arg.flag == Link && r.Err? && arg.path in old(files) && old(files)[arg.path].sym.Some? &&
              old(files)[arg.path].paths.Some? && old(files)[arg.path].run.Some? ==>
        old(files)[arg.path].sym.value != map[] && arg.name.None? && root.None? && r == Err(NoRoot)
      ensures arg.flag == Link && r.Ok? ==>
        arg.path in old(files) &&
        var file := old(files)[arg.path];
        file.sym.Some? && file.paths.Some? && file.run.Some? &&
        var sub := file.sym.value;
        (sub != map[] ==> MergePrefix(arg.name, root, arg.path).Ok?) &&
        var prefix := if sub == map[] then "" else MergePrefix(arg.name, root, arg.path).value;
        Merged(old(bundle.View()), bundle.View(), sub, prefix, sub.Keys) &&
        files == old(files)[arg.path := file.(sym := Some(Rewritten(sub, prefix, sub.Keys)))]
      // Any other input is a file.
      ensures arg.flag != Link ==> files == old(files)
      ensures arg.flag != Link && read(arg.path, arg.flag == Binary).None? ==>
        r == Err(NotFound(arg.path)) &&
        bundle.View() == old(bundle.View()) && loaded == old(loaded) && join == old(join) && warnings == old(warnings)
      ensures arg.flag != Link && read(arg.path, arg.flag == Binary).Some? && joining ==>
        var data := FileData(read(arg.path, arg.flag == Binary).value, arg.flag, strip, joining, compress);
        r.Ok? && join == old(join) + [data] &&
        bundle.View() == old(bundle.View()) && loaded == old(loaded) && warnings == old(warnings)
      ensures arg.flag != Link && read(arg.path, arg.flag == Binary).Some? && !joining && root.None? ==>
        r == Err(NoRoot) &&
        bundle.View() == old(bundle.View()) && loaded == old(loaded) && join == old(join) && warnings == old(warnings)
      ensures arg.flag != Link && read(arg.path, arg.flag == Binary).Some? && !joining && root.Some? ==>
        var data := FileData(read(arg.path, arg.flag == Binary).value, arg.flag, strip, joining, compress);
        var rel := Paths.Relative(root.value, arg.path);
        var name := SymbolName(arg.name, rel, byBasename);
        r.Ok? && join == old(join) && loaded == old(loaded) + {name} &&
        (name in old(loaded) ==> name in old(bundle.sym)) &&
        bundle.View() == Added(if name in old(loaded) then Removed(old(bundle.View()), name) else old(bundle.View()),
                               name, data, rel, arg.flag) &&
        bundle.sym[name] == Symbol(data, rel, arg.flag) &&
        warnings == old(warnings) + (if name in old(loaded) && !quiet then ["symbol collision on " + name] else [])
    {
      if arg.flag == Link {
        r := Merge(arg);
      } else {
        r := LoadFile(arg);
      }
    }

    /** A file input: read it, then either collect its text for the join or
        store it under its symbol name, replacing (with a warning unless
        `q`) an earlier file input of the same name. */
    method LoadFile(arg: Arg) returns (r: Result<(), string>)
      requires Valid() && arg.flag != Link
      modifies this, bundle
      ensures Valid() && files == old(files)
      ensures read(arg.path, arg.flag == Binary).None? ==>
        r == Err(NotFound(arg.path)) &&
        bundle.View() == old(bundle.View()) && loaded == old(loaded) && join == old(join) && warnings == old(warnings)
      ensures read(arg.path, arg.flag == Binary).Some? && joining ==>
        var data := FileData(read(arg.path, arg.flag == Binary).value, arg.flag, strip, joining, compress);
        r.Ok? && join == old(join) + [data] &&
        bundle.View() == old(bundle.View()) && loaded == old(loaded) && warnings == old(warnings)
      ensures read(arg.path, arg.flag == Binary).Some? && !joining && root.None? ==>
        r == Err(NoRoot) &&
        bundle.View() == old(bundle.View()) && loaded == old(loaded) && join == old(join) && warnings == old(warnings)
      ensures read(arg.path, arg.flag == Binary).Some? && !joining && root.Some? ==>
        var data := FileData(read(arg.path, arg.flag == Binary).value, arg.flag, strip, joining, compress);
        var rel := Paths.Relative(root.value, arg.path);
        var name := SymbolName(arg.name, rel, byBasename);
        r.Ok? && join == old(join) && loaded == old(loaded) + {name} &&
        (name in old(loaded) ==> name in old(bundle.sym)) &&
        bundle.View() == Added(if name in old(loaded) then Removed(old(bundle.View()), name) else old(bundle.View()),
                               name, data, rel, arg.flag) &&
        bundle.sym[name] == Symbol(data, rel, arg.flag) &&
        warnings == old(warnings) + (if name in old(loaded) && !quiet then ["symbol collision on " + name] else [])
    {
      var raw := read(arg.path, arg.flag == Binary);
      if raw.None? {
        return Err(NotFound(arg.path));
      }
      var data := FileData(raw.value, arg.flag, strip, joining, compress);
      if joining {
        join := join + [data];
        return Ok(());
      }
      if root.None? {
        return Err(NoRoot);
      }
      var rel := Paths.Relative(root.value, arg.path);
      var name := SymbolName(arg.name, rel, byBasename);
      Store(name, data, rel, arg.flag);
      return Ok(());
    }

    /** Storing a file input under its name: a name an earlier file input
        already claimed is removed first (with a warning unless `q`), then
        the symbol is added. */
    method Store(name: string, data: string, rel: string, flag: Flag)
      requires Valid()
      modifies this`loaded, this`warnings, bundle
      ensures Valid() && loaded == old(loaded) + {name}
      ensures name in old(loaded) ==> name in old(bundle.sym)
      ensures bundle.View() == Added(if name in old(loaded) then Removed(old(bundle.View()), name) else old(bundle.View()),
                                     name, data, rel, flag)
      ensures bundle.sym[name] == Symbol(data, rel, flag)
      ensures warnings == old(warnings) + (if name in old(loaded) && !quiet then ["symbol collision on " + name] else [])
    {
      if name in loaded {
        if !quiet {
          warnings := warnings + ["symbol collision on " + name];
        }
        var found := bundle.RemoveSymbol(name);
      } else {
        loaded := loaded + {name};
      }
      bundle.AddSymbol(name, data, rel, flag);
    }

    /** A bundle-file input: open it through the module cache and add each
        of its symbols under the prefixed name and path, writing the prefixed
        path back into the cached symbol. The merged bundle's own path map
        and autorun list are not used; merged symbols are not claimed. */
    method Merge(arg: Arg) returns (r: Result<(), string>)
      requires Valid() && arg.flag == Link
      modifies this`files, bundle
      ensures Valid() && loaded == old(loaded) && join == old(join) && warnings == old(warnings)
      ensures r.Err? ==> bundle.View() == old(bundle.View()) && files == old(files)
      ensures arg.path !in old(files) ==> r == Err(NotFound(arg.path))
      ensures arg.path in old(files) ==>
        var file := old(files)[arg.path];
        (file.sym.None? || file.paths.None? || file.run.None?) ==> r == Err("Unable to read bundle file")
      ensures r.Err? && arg.path in old(files) && old(files)[arg.path].sym.Some? && old(files)[arg.path].paths.Some? &&
              old(files)[arg.path].run.Some? ==>
        old(files)[arg.path].sym.value != map[] && arg.name.None? && root.None? && r == Err(NoRoot)
      ensures r.Ok? ==>
        arg.path in old(files) &&
        var file := old(files)[arg.path];
        file.sym.Some? && file.paths.Some? && file.run.Some? &&
        var sub := file.sym.value;
        (sub != map[] ==> MergePrefix(arg.name, root, arg.path).Ok?) &&
        var prefix := if sub == map[] then "" else MergePrefix(arg.name, root, arg.path).value;
        Merged(old(bundle.View()), bundle.View(), sub, prefix, sub.Keys) &&
        files == old(files)[arg.path := file.(sym := Some(Rewritten(sub, prefix, sub.Keys)))]
    {
      var plan := OpenMerged(arg);
      if plan.Err? {
        return Err(plan.error);
      }
      var file := files[arg.path];
      MergeAll(arg.path, file, plan.value.1);
      return Ok(());
    }

    /** The first half of a merge, which changes nothing: the bundle file
        through the module cache, its three tables, and the prefix, which
        needs a root only when there is a symbol to prefix and no explicit
        name. */
    method OpenMerged(arg: Arg) returns (r: Result<(map<string, Symbol>, string), string>)
      ensures arg.path !in files ==> r == Err(NotFound(arg.path))
      ensures arg.path in files ==>
        var file := files[arg.path];
        (file.sym.None? || file.paths.None? || file.run.None?) ==> r == Err("Unable to read bundle file")
      ensures r.Err? && arg.path in files && files[arg.path].sym.Some? && files[arg.path].paths.Some? &&
              files[arg.path].run.Some? ==>
        files[arg.path].sym.value != map[] && arg.name.None? && root.None? && r == Err(NoRoot)
      ensures r.Ok? ==>
        arg.path in files &&
        var file := files[arg.path];
        file.sym.Some? && file.paths.Some? && file.run.Some? && file.sym.value == r.value.0 &&
        (r.value.0 != map[] ==> MergePrefix(arg.name, root, arg.path) == Ok(r.value.1)) &&
        (r.value.0 == map[] ==> r.value.1 == "")
    {
      if arg.path !in files {
        return Err(NotFound(arg.path));
      }
      var file := files[arg.path];
      var sub := new Bundle();
      var status := sub.Open(file);
      if status.Err? {
        return Err(status.error);
      }
      var subsym := sub.sym;
      var prefix := "";
      if subsym != map[] {
        var p := MergePrefix(arg.name, root, arg.path);
        if p.Err? {
          return Err(p.error);
        }
        prefix := p.value;
      }
      return Ok((subsym, prefix));
    }

    /** The loop of a merge: every symbol of the opened bundle file, in an
        order left open, is added under its prefixed name and path, and the
        prefixed path is written back into the cached file's symbol. */
    method MergeAll(path: string, file: BundleFile, prefix: string)
      requires Valid() && path in files && files[path] == file && file.sym.Some?
      modifies this`files, bundle
      ensures Valid()
      ensures Merged(old(bundle.View()), bundle.View(), file.sym.value, prefix, file.sym.value.Keys)
      ensures files == old(files)[path := file.(sym := Some(Rewritten(file.sym.value, prefix, file.sym.value.Keys)))]
    {
      var subsym := file.sym.value;
      var cache := files;
      ghost var before := bundle.View();
      var done: set<string> := {};
      assert Rewritten(subsym, prefix, {}) == subsym;
      assert file.(sym := Some(subsym)) == file;
      assert cache[path := file] == cache;
      assert before.run[..|before.run|] == before.run;
      assert PrefixedPaths(subsym, prefix, {}) == {} && AutorunsOf(subsym, {}) == {};
      ghost var view := before;
      while done != subsym.Keys
        invariant done <= subsym.Keys
        invariant view == bundle.View() && loaded <= view.sym.Keys
        invariant Merged(before, view, subsym, prefix, done)
        invariant files == cache[path := file.(sym := Some(Rewritten(subsym, prefix, done)))]
        decreases subsym.Keys - done
      {
        assert !(subsym.Keys <= done);
        var n :| n in subsym && n !in done;
        MergeStep(before, view, subsym, prefix, done, n);
        var s := subsym[n];
        files := cache[path := file.(sym := Some(Rewritten(subsym, prefix, done + {n})))];
        bundle.AddSymbol(prefix + n, s.data, prefix + s.path, s.flag);
        view := Added(view, prefix + n, s.data, prefix + s.path, s.flag);
        done := done + {n};
      }
    }

    /** Join mode's last step: the collected texts joined by ";\n",
        compressed under `c`, become one symbol whose name and path are the
        `j` value, an autorun iff `x` is set. */
    method FinishJoin(name: string, autorun: bool)
      requires Valid()
      modifies bundle
      ensures Valid()
      ensures var text := JoinWith(join, ";\n");
        bundle.View() == Added(old(bundle.View()), name, if strip then compress(text) else text, name,
                               if autorun then Autorun else Plain)
    {
      var data := JoinWith(join, ";\n");
      if strip {
        data := compress(data);
      }
      bundle.AddSymbol(name, data, name, if autorun then Autorun else Plain);
    }
  }

  /** The adapters `do_compile` can choose. */
  datatype Adapter = Generic | Node | External(hook: Value)

  /** The built-in adapters, as the functions the compiler is given. */
  const GenericFunction := Fun(0)
  const NodeFunction := Fun(1)

  /** The adapter selection of `do_compile`: no `a` selects `node`, a bare
      `a` selects `generic`, a built-in name selects that adapter, and any
      other value is loaded as a module, which must be a function. */
  function SelectAdapter(a: Value, load: string -> Option<Value>): (r: Result<Adapter, string>)
    ensures !Truthy(a) ==> r == Ok(Node)
    ensures a == Bool(true) ==> r == Ok(Generic)
    ensures a == Str("generic") ==> r == Ok(Generic)
    ensures a == Str("node") ==> r == Ok(Node)
    ensures r.Ok? && r.value.External? ==> IsFunction(r.value.hook) && a.Str? && load(a.s) == Some(r.value.hook)
    ensures Truthy(a) && a != Bool(true) && a != Str("generic") && a != Str("node") ==>
      (r.Ok? <==> a.Str? && load(a.s).Some? && IsFunction(load(a.s).value))
    ensures a.Str? && a.s != "" && a.s != "generic" && a.s != "node" && load(a.s).Some? && !IsFunction(load(a.s).value) ==>
      r == Err(InvalidAdapter)
  {
    if !Truthy(a) then Ok(Node)
    else if a == Bool(true) then Ok(Generic)
    else if a == Str("generic") then Ok(Generic)
    else if a == Str("node") then Ok(Node)
    else if !a.Str? then Err("the adapter must be named by a string")
    else
      match load(a.s)
      case None => Err(NotFound(a.s))
      case Some(f) => if IsFunction(f) then Ok(External(f)) else Err(InvalidAdapter)
  }

  function AdapterFunction(ad: Adapter): Value {
    match ad
    case Generic => GenericFunction
    case Node => NodeFunction
    case External(f) => f
  }

  /** The interpreter of the shebang line: none unless `i` is set, `i` itself
      when it is a string, else `/usr/bin/env node`. */
  function Interpreter(i: Value): (r: string)
    ensures !Truthy(i) ==> r == ""
    ensures Truthy(i) && i.Str? ==> r == i.s && r != ""
    ensures Truthy(i) && !i.Str? ==> r == "/usr/bin/env node"
  {
    if !Truthy(i) then "" else if i.Str? then i.s else "/usr/bin/env node"
  }

  function CompileOptions(ad: Adapter, o: Options): Compiler.Options {
    Compiler.Options(AdapterFunction(ad), Interpreter(o.i), o.p, Truthy(o.u))
  }

  /** `do_compile`: select the adapter and compile. Every adapter it
      selects is a function, so the compiler's own adapter check never
      fails here. */
  method DoCompile(t: Tables, o: Options, load: string -> Option<Value>,
                   render: Compiler.Segment -> string, compress: string -> string) returns (r: Result<string, string>)
    ensures SelectAdapter(o.a, load).Err? ==> r == Err(SelectAdapter(o.a, load).error)
    ensures SelectAdapter(o.a, load).Ok? ==>
      var opts := CompileOptions(SelectAdapter(o.a, load).value, o);
      Compiler.Layout(t, opts).Ok? &&
      r == Ok(Compiler.Shebang(Interpreter(o.i)) + compress(Compiler.Emitted(Compiler.Layout(t, opts).value, render)))
  {
    var ad := SelectAdapter(o.a, load);
    if ad.Err? {
      return Err(ad.error);
    }
    r := Compiler.Compile(t, CompileOptions(ad.value, o), render, compress);
  }

  /** `create`: parse and order the inputs, compute the root, load every
      input, finish a join, and compile. */
  method Create(o: Options, read: (string, bool) -> Option<string>, files: map<string, BundleFile>,
                load: string -> Option<Value>, render: Compiler.Segment -> string, compress: string -> string)
    returns (r: Result<string, string>)
    ensures Inputs(o) == [] ==> r == Err(NoInput)
    ensures r.Ok? ==> SelectAdapter(o.a, load).Ok?
  {
    var args := Inputs(o);
    if |args| == 0 {
      return Err(NoInput);
    }
    var root := ChooseRoot(args, o.j);
    var joining := o.j.Str? && o.j.s != "";
    var packager := new Packager(root, joining, o.c, o.f, o.q, read, compress, files);
    for k := 0 to |args|
      invariant packager.Valid()
    {
      var loaded := packager.LoadSymbol(args[k]);
      if loaded.Err? {
        return Err(loaded.error);
      }
    }
    if joining {
      packager.FinishJoin(o.j.s, OptTruthy(o.x));
    }
    r := DoCompile(packager.bundle.View(), o, load, render, compress);
  }

  // ---------------------------------------------------------------------------
  // The character-wise root, on two files of one directory.

  /** For /p/aa.js and /p/ab.js every longest common prefix is "/p/a",
      which is not a directory of either. */
  lemma SiblingCharacterRoot(r: string)
    requires IsCommonPrefix(r, ["/p/aa.js", "/p/ab.js"])
    requires forall q :: IsCommonPrefix(q, ["/p/aa.js", "/p/ab.js"]) ==> q <= r
    ensures r == "/p/a"
  {
    var paths := ["/p/aa.js", "/p/ab.js"];
    assert IsCommonPrefix("/p/a", paths) by {
      assert "/p/a" <= paths[0] && "/p/a" <= paths[1];
    }
    assert "/p/a" <= r;
    assert r <= paths[0] && r <= paths[1];
    assert forall j :: 0 <= j < |r| ==> paths[0][j] == paths[1][j];
    assert paths[0][4] != paths[1][4];
  }

  /** Whenever the character-wise root stops inside a file name — the root
      is /d/c for files /d/x and /d/y — each file is named and placed at
      "../x", and a relative request from it for any plain name is refused
      as leaving the bundle, whatever the tables hold. */
  lemma CharacterRootLeavesBundle(t: Tables, d: string, c: string, x: string, y: string)
    requires Paths.IsName(d) && Paths.IsName(c) && Paths.IsName(x) && Paths.IsName(y) && c != x
    ensures Paths.Relative("/" + d + "/" + c, "/" + d + "/" + x) == "../" + x
    ensures Runtime.LocalTarget(t, "../" + x, "./" + y) == Err(Runtime.OutsideBundle)
  {
    Paths.RelativeBetweenSiblings(d, c, x);
    Paths.DirnameOfEntry("..", x);
    assert "../" + x == ".." + "/" + x;
    Paths.JoinAbove(y);
    assert ".." <= "../" + y;
  }

  /** The intended root for the same two files is their directory "/p". */
  lemma SiblingDirectoryRoot(r: string)
    requires IsDirOfAll(r, ["/p/aa.js", "/p/ab.js"])
    requires forall d :: IsDirOfAll(d, ["/p/aa.js", "/p/ab.js"]) ==> d <= r
    ensures r == "/p"
  {
    var paths := ["/p/aa.js", "/p/ab.js"];
    assert IsDirOfAll("/p", paths) by {
      assert "/p" + "/" <= paths[0] && "/p" + "/" <= paths[1];
    }
    assert "/p" <= r;
    assert IsDirOf(r, paths[0]) && IsDirOf(r, paths[1]);
    assert r != "/";
    var s := r + "/";
    assert s <= paths[0] && s <= paths[1];
    assert s[|r|] == '/';
    var k3 := if |r| < 3 then |r| else 3;
    var k4 := if |r| < 4 then |r| else 4;
    assert s[k3] == paths[0][k3] && s[k4] == paths[0][k4] && s[k4] == paths[1][k4];
    assert paths[0][3] == 'a' && paths[0][4] == 'a' && paths[1][4] == 'b';
    assert r == s[..|r|] && "/p" == s[..2];
  }

  /** Under the directory root /d a file /d/x is named "x", and a request
      "./y" from it finds the symbol "y.js" through the ".js" fallback. */
  lemma DirectoryRootKeepsSiblings(t: Tables, d: string, x: string, y: string)
    requires Paths.IsName(d) && Paths.IsName(x) && Paths.IsName(y) && !(".." <= y)
    requires y !in t.sym && y !in t.paths && y + ".js" in t.sym
    ensures Paths.Relative("/" + d, "/" + d + "/" + x) == x
    ensures Runtime.LocalTarget(t, x, "./" + y) == Ok(y + ".js")
  {
    Paths.RelativeIntoDirectory(d, x);
    Paths.JoinHere(y);
    assert "." <= "./" + y;
    assert Runtime.RequestKey(x, "./" + y) == y;
  }
}
