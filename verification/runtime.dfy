/** The runtime that the compiler emits into every artifact: the loader
    `__nld` with its cache, the throwing resolver `__nld.resolve`, the failing
    load stub, and the two adapters that install a real `__nld.load` (the
    `node` adapter, which executes a symbol with a module record and a scoped
    `require`, and the `generic` adapter, which hands the runtime to a host
    hook). Loader and node adapter call each other, so they live in one class.

    Executing a symbol's text is an oracle, `program`: it turns the
    (shebang-stripped) text into the requests and `module.exports`
    assignments that the code performs. The host's own `require` is the
    oracle `host`. Module records live in an arena: a record's parent is an
    index below its own. */
module Runtime {
  import opened Js
  import opened Text
  import Paths
  import opened BundleStore

  datatype Error =
    | UndefinedSymbol(name: string)   // "nld: undefined symbol '<name>'"
    | MissingEntry(name: string)      // TypeError: `__nld._sym[name]` is undefined
    | LoadUnavailable                 // "nld: invalid adapter, load unavailable"
    | NoAdapterHook                   // "nld: generic bundle requires a __nld_adapter function"
    | OutsideBundle                   // `throw null` for a relative request leaving the bundle
    | HostNotFound(request: string)   // the host's `require` failed
    | Thrown(value: Value)            // thrown by executed code
    | StackExhausted                  // the JavaScript call stack overflowed

  datatype Outcome = Returned(value: Value) | Threw(error: Error)

  /** What executing a symbol's code does, step by step. */
  datatype Step =
    | Require(request: string, weak: bool)        // `require(request, weak);`
    | ExportRequire(request: string, weak: bool)  // `module.exports = require(request, weak);`
    | SetExports(value: Value)                    // `module.exports = value;`
    | Throw(value: Value)                         // `throw value;`

  /** A module record: `id`, `exports`, `parent` and `children` of the object
      the node adapter builds for each execution. */
  datatype Record = Record(id: string, exports: Value, parent: Option<nat>, children: seq<nat>)

  /** The `__nld.load` currently installed. */
  datatype Loader = StubLoad | NodeLoad | HookLoad(hook: nat)

  predicate IsStatic(f: Flag) {
    f == Static || f == Binary
  }

  /** The emitted `__nld.resolve`: like the bundle's `resolve`, but a failed
      lookup throws instead of returning `false`. */
  function ResolveOrThrow(t: Tables, s: string): (r: Result<string, Error>)
    ensures r.Ok? <==> ResolveIn(t, s).Some?
    ensures r.Ok? ==> r.value == ResolveIn(t, s).value
    ensures r.Err? ==> r.error == UndefinedSymbol(s)
  {
    if s !in t.sym then
      if s in t.paths && t.paths[s] != "" then Ok(t.paths[s])
      else Err(UndefinedSymbol(s))
    else Ok(s)
  }

  /** A path and the name it maps to resolve to the same name, so the loader,
      which keys its cache by the resolved name, gives both one cache slot. */
  lemma PathAndNameShareSlot(t: Tables, path: string, name: string)
    requires path !in t.sym && path in t.paths && t.paths[path] == name && name != "" && name in t.sym
    ensures ResolveOrThrow(t, path) == ResolveOrThrow(t, name) == Ok(name)
  {
  }

  /** On coherent tables, resolving a resolved name again gives it back, so
      the name the node adapter checks for cycles is the name the loader then
      executes and caches. */
  lemma ResolveTwiceCoherent(t: Tables, s: string)
    requires Coherent(t)
    ensures ResolveOrThrow(t, s).Ok? ==> ResolveOrThrow(t, ResolveOrThrow(t, s).value) == ResolveOrThrow(t, s)
  {
  }

  /** With a stale path-map entry the second resolution takes another hop: a
      request for "p" is checked for cycles as "q" but executed as "a". */
  lemma ResolveTwiceStale()
    ensures var t := Tables(map["a" := Symbol("", "q", Plain)], map["p" := "q", "q" := "a"], []);
      ResolveOrThrow(t, "p") == Ok("q") && ResolveOrThrow(t, "q") == Ok("a")
  {
  }

  predicate ParentsBelow(recs: seq<Record>) {
    forall k :: 0 <= k < |recs| && recs[k].parent.Some? ==> recs[k].parent.value < k
  }

  /** Parent and child links agree: every record with a parent is among its
      parent's children, and every child points back at its parent. */
  ghost predicate WellLinked(recs: seq<Record>) {
    ParentsBelow(recs) &&
    (forall k :: 0 <= k < |recs| && recs[k].parent.Some? ==> k in recs[recs[k].parent.value].children) &&
    (forall k, i :: 0 <= k < |recs| && 0 <= i < |recs[k].children| ==>
       k < recs[k].children[i] < |recs| && recs[recs[k].children[i]].parent == Some(k))
  }

  /** Record `k` and its ancestors, nearest first. */
  function Chain(recs: seq<Record>, k: nat): (c: seq<nat>)
    requires ParentsBelow(recs) && k < |recs|
    ensures |c| >= 1 && c[0] == k
    ensures forall j :: j in c ==> j <= k
    decreases k
  {
    match recs[k].parent
    case None => [k]
    case Some(p) => [k] + Chain(recs, p)
  }

  /** `find_cycle_root`: walk from record `k` up the parent links to the
      nearest record whose id is `target`. */
  function CycleRoot(recs: seq<Record>, target: string, k: nat): (r: Option<nat>)
    requires ParentsBelow(recs) && k < |recs|
    ensures r.Some? ==> r.value in Chain(recs, k) && recs[r.value].id == target
    ensures r.Some? ==> forall j :: j in Chain(recs, k) && j > r.value ==> recs[j].id != target
    ensures r.None? ==> forall j :: j in Chain(recs, k) ==> recs[j].id != target
    decreases k
  {
    if recs[k].id == target then Some(k)
    else
      match recs[k].parent
      case None => None
      case Some(p) => CycleRoot(recs, target, p)
  }

  /** The identifier `local_require` looks up: a request starting with "." is
      joined onto the directory of the requiring symbol's path. */
  function RequestKey(symPath: string, request: string): string
  {
    if "." <= request then Paths.Join(Paths.Dirname(symPath), request) else request
  }

  /** The local strategy's lookup: reject a relative request whose joined path
      starts with "..", then try the identifier as given and then with ".js"
      appended. */
  function LocalTarget(t: Tables, symPath: string, request: string): (r: Result<string, Error>)
    ensures var key := RequestKey(symPath, request);
      r == Err(OutsideBundle) <==> "." <= request && ".." <= key
    ensures var key := RequestKey(symPath, request);
      !("." <= request && ".." <= key) && ResolveIn(t, key).Some? ==> r == Ok(ResolveIn(t, key).value)
    ensures var key := RequestKey(symPath, request);
      !("." <= request && ".." <= key) && ResolveIn(t, key).None? ==>
        (r.Ok? <==> ResolveIn(t, key + ".js").Some?) &&
        (r.Ok? ==> r.value == ResolveIn(t, key + ".js").value) &&
        (r.Err? ==> r.error == UndefinedSymbol(key + ".js"))
    ensures var key := RequestKey(symPath, request);
      r.Ok? && "." <= request ==> forall i :: 0 <= i < |Split(key, '/')| ==> Split(key, '/')[i] != ".."
  {
    var key := RequestKey(symPath, request);
    if "." <= request && ".." <= key then Err(OutsideBundle)
    else
      Paths.JoinNoUps(Paths.Dirname(symPath), request);
      match ResolveOrThrow(t, key)
      case Ok(name) => Ok(name)
      case Err(_) => ResolveOrThrow(t, key + ".js")
  }

  /** The arena only grows; ids, parents and exports of existing records stay,
      and their children lists only gain entries. */
  ghost predicate Extends(before: seq<Record>, after: seq<Record>) {
    |before| <= |after| &&
    forall k :: 0 <= k < |before| ==>
      after[k].id == before[k].id && after[k].parent == before[k].parent &&
      after[k].exports == before[k].exports && before[k].children <= after[k].children
  }

  /** As `Extends`, except that record `x` may have new exports. */
  ghost predicate ExtendsExcept(before: seq<Record>, after: seq<Record>, x: nat) {
    |before| <= |after| &&
    forall k :: 0 <= k < |before| ==>
      after[k].id == before[k].id && after[k].parent == before[k].parent &&
      (k != x ==> after[k].exports == before[k].exports) && before[k].children <= after[k].children
  }

  /** Growing the arena is transitive, and a change of one record's exports
      folds into it. */
  lemma ExtendsTrans(a: seq<Record>, b: seq<Record>, c: seq<Record>, x: nat)
    requires ExtendsExcept(a, b, x) && Extends(b, c)
    ensures ExtendsExcept(a, c, x)
  {
    forall k | 0 <= k < |a| ensures a[k].children <= c[k].children {
      assert a[k].children <= b[k].children <= c[k].children;
    }
  }

  lemma ExtendsExceptTrans(a: seq<Record>, b: seq<Record>, c: seq<Record>, x: nat)
    requires ExtendsExcept(a, b, x) && ExtendsExcept(b, c, x)
    ensures ExtendsExcept(a, c, x)
  {
    forall k | 0 <= k < |a| ensures a[k].children <= c[k].children {
      assert a[k].children <= b[k].children <= c[k].children;
    }
  }

  /** Setting a record's exports keeps the links and touches nothing else. */
  lemma SetExportsKeepsLinks(recs: seq<Record>, k: nat, v: Value)
    requires WellLinked(recs) && k < |recs|
    ensures WellLinked(recs[k := recs[k].(exports := v)])
    ensures ExtendsExcept(recs, recs[k := recs[k].(exports := v)], k)
  {
    var after := recs[k := recs[k].(exports := v)];
    assert forall j :: 0 <= j < |recs| ==> after[j].parent == recs[j].parent && after[j].children == recs[j].children;
  }

  /** The arena after `Attach`: a new record at the end, listed among its
      parent's children. */
  function Attached(recs: seq<Record>, name: string, parent: Option<nat>): seq<Record>
    requires parent.Some? ==> parent.value < |recs|
  {
    var k := |recs|;
    var grown := recs + [Record(name, Obj(k), parent, [])];
    if parent.Some? then grown[parent.value := grown[parent.value].(children := grown[parent.value].children + [k])]
    else grown
  }

  /** Attaching a record keeps parent and child links in agreement and
      only grows the arena. */
  lemma AttachKeepsLinks(recs: seq<Record>, name: string, parent: Option<nat>)
    requires WellLinked(recs) && (parent.Some? ==> parent.value < |recs|)
    ensures WellLinked(Attached(recs, name, parent)) && Extends(recs, Attached(recs, name, parent))
    ensures |Attached(recs, name, parent)| == |recs| + 1
  {
    var k := |recs|;
    var after := Attached(recs, name, parent);
    assert |after| == k + 1;
    assert forall j :: 0 <= j < k ==>
      after[j].parent == recs[j].parent && after[j].id == recs[j].id && after[j].exports == recs[j].exports;
    assert after[k] == Record(name, Obj(k), parent, []);
    forall j | 0 <= j < k ensures recs[j].children <= after[j].children {
      if parent.Some? && j == parent.value {
        assert after[j].children == recs[j].children + [k];
      } else {
        assert after[j].children == recs[j].children;
      }
    }
    forall j | 0 <= j < |after| && after[j].parent.Some?
      ensures j in after[after[j].parent.value].children
    {
      if j < k {
        assert j in recs[recs[j].parent.value].children;
      } else {
        assert after[parent.value].children == recs[parent.value].children + [k];
      }
    }
    forall j, i | 0 <= j < |after| && 0 <= i < |after[j].children|
      ensures j < after[j].children[i] < |after| && after[after[j].children[i]].parent == Some(j)
    {
      if parent.Some? && j == parent.value && i == |recs[j].children| {
        assert after[j].children[i] == k;
      } else {
        assert j < k;
        assert after[j].children[i] == recs[j].children[i];
      }
    }
  }

  /** A truthy cache entry never changes. */
  ghost predicate Stable(before: map<string, Value>, after: map<string, Value>) {
    forall x :: x in before && Truthy(before[x]) ==> x in after && after[x] == before[x]
  }

  /** What calling a `generic`-adapter hook with the runtime does: whether
      it installs its own `load`, and whether it then throws. */
  datatype HookEffect = HookEffect(installs: bool, throws: Option<Value>)

  /** The runtime's mutable state at one moment: the cache, the module
      records and the log of loads. */
  datatype Snapshot = Snapshot(cache: map<string, Value>, records: seq<Record>, loads: seq<string>)

  /** A record's `module.exports` after the steps that produced `trace`: the
      value of the last completed assignment, else `initial`. */
  function Exported(steps: seq<Step>, trace: seq<Outcome>, initial: Value): Value
    requires |trace| <= |steps|
    decreases |trace|
  {
    if trace == [] then initial
    else
      var i := |trace| - 1;
      if (steps[i].SetExports? || steps[i].ExportRequire?) && trace[i].Returned? then trace[i].value
      else Exported(steps, trace[..i], initial)
  }

  class Runtime {
    const tables: Tables                      // `__nld._sym`, `__nld._map`, `__nld._run`
    const program: string -> seq<Step>        // executing a symbol's text
    const host: string -> Option<Value>       // the host's `require`
    const hookEffect: nat -> HookEffect       // calling a generic-adapter hook
    const hookLoad: (nat, string) -> Outcome  // a `load` installed by a generic-adapter hook
    var load: Loader                          // `__nld.load`
    var cache: map<string, Value>             // `__nld.cache`
    var records: seq<Record>                  // every module record created so far
    ghost var loads: seq<string>              // every name passed to `__nld.load`, in order
    ghost var roots: seq<string>              // every identifier passed to `__nld` without a parent record

    ghost predicate Valid()
      reads this
    {
      WellLinked(records)
    }

    /** The artifact's start: tables in place, the cache empty, and the
        failing stub as `__nld.load`. */
    constructor (tables: Tables, program: string -> seq<Step>, host: string -> Option<Value>,
                 hookEffect: nat -> HookEffect, hookLoad: (nat, string) -> Outcome)
      ensures this.tables == tables && this.program == program && this.host == host
      ensures this.hookEffect == hookEffect && this.hookLoad == hookLoad
      ensures load == StubLoad && cache == map[] && records == [] && loads == [] && roots == []
      ensures Valid()
    {
      this.tables, this.program, this.host, this.hookEffect, this.hookLoad := tables, program, host, hookEffect, hookLoad;
      load, cache, records, loads, roots := StubLoad, map[], [], [], [];
    }

    ghost function Snap(): Snapshot
      reads this
    {
      Snapshot(cache, records, loads)
    }

    /** The host strategy: the host's `require`, failing when it has nothing. */
    function HostOutcome(request: string): Outcome
    {
      match host(request)
      case Some(v) => Returned(v)
      case None => Threw(HostNotFound(request))
    }

    /** What `__nld(ident, statically, parent)` does from state `s0` to `s1`,
        with result `r`: resolve; return the raw data of a static request or
        a static symbol; return a truthy cached value; otherwise fetch. */
    ghost predicate Obtained(ident: string, statically: bool, parent: Option<nat>, fuel: nat,
                             s0: Snapshot, s1: Snapshot, r: Outcome)
      reads this`load
      decreases fuel, 2
    {
      var res := ResolveOrThrow(tables, ident);
      if res.Err? then r == Threw(res.error) && s1 == s0
      else if res.value !in tables.sym then r == Threw(MissingEntry(res.value)) && s1 == s0
      else if statically || IsStatic(tables.sym[res.value].flag) then
        r == Returned(Str(tables.sym[res.value].data)) && s1 == s0
      else if res.value in s0.cache && Truthy(s0.cache[res.value]) then r == Returned(s0.cache[res.value]) && s1 == s0
      else Fetched(res.value, parent, fuel, s0, s1, r)
    }

    /** A cache miss on `name`: the load is logged, the installed `load`
        gives the outcome, and a returned value is cached. The node `load`
        adds a record for `name` under `parent`, runs the symbol's code and
        returns the record's exports. */
    ghost predicate Fetched(name: string, parent: Option<nat>, fuel: nat, s0: Snapshot, s1: Snapshot, r: Outcome)
      reads this`load
      decreases fuel, 1
    {
      |s1.loads| > |s0.loads| && s1.loads[|s0.loads|] == name &&
      (r.Returned? ==> name in s1.cache && s1.cache[name] == r.value) &&
      (load == StubLoad ==> r == Threw(LoadUnavailable)) &&
      (load.HookLoad? ==> r == hookLoad(load.hook, name)) &&
      (load == NodeLoad && fuel == 0 ==> r == Threw(StackExhausted)) &&
      (load != NodeLoad || fuel == 0 ==>
         s1.loads == s0.loads + [name] && s1.records == s0.records &&
         s1.cache == (if r.Returned? then s0.cache[name := r.value] else s0.cache)) &&
      (load == NodeLoad && fuel > 0 ==>
         |s1.records| > |s0.records| &&
         s1.records[|s0.records|].id == name && s1.records[|s0.records|].parent == parent &&
         (parent.Some? && parent.value < |s0.records| ==> |s0.records| in s1.records[parent.value].children) &&
         (r.Returned? ==> r.value == s1.records[|s0.records|].exports) &&
         exists snaps, firsts, trace :: Ran(name, parent, fuel, s0, s1, snaps, firsts, trace, r))
    }

    /** The node `load` of `name` from `s0` (before the load was logged) to
        `s1` (after its value was cached): the new record's code, the
        shebang-stripped text, ran as `snaps`, `firsts`, `trace` with one
        less level of stack; its exports are the last assigned value and
        are the outcome unless the code threw. */
    ghost predicate Ran(name: string, parent: Option<nat>, fuel: nat, s0: Snapshot, s1: Snapshot,
                        snaps: seq<Snapshot>, firsts: seq<Outcome>, trace: seq<Outcome>, r: Outcome)
      reads this`load
      decreases fuel, 0
    {
      name in tables.sym && fuel > 0 && |snaps| == |trace| + 1 &&
      (parent.Some? ==> parent.value < |s0.records|) &&
      var k := |s0.records|;
      var steps := program(StripShebang(tables.sym[name].data));
      var end := snaps[|trace|];
      |trace| <= |steps| &&
      Executed(k, tables.sym[name].path, steps, fuel - 1,
               Snapshot(s0.cache, Attached(s0.records, name, parent), s0.loads + [name]), end,
               snaps, firsts, trace, if r.Threw? then r else Returned(Undefined)) &&
      k < |end.records| && end.records[k].exports == Exported(steps, trace, Obj(k)) &&
      (r.Returned? ==> r.value == end.records[k].exports) &&
      s1 == end.(cache := if r.Returned? then end.cache[name := r.value] else end.cache)
    }

    /** What `local_require(request)` does for record `k`: a failed lookup
        throws; a target on `k`'s chain of parents gives that record's
        current exports; any other target goes to `__nld(target, undefined,
        module)`. */
    ghost predicate LocallyRequired(k: nat, path: string, request: string, fuel: nat,
                                    s0: Snapshot, s1: Snapshot, r: Outcome)
      reads this`load
      decreases fuel, 3
    {
      ParentsBelow(s0.records) && k < |s0.records| &&
      (var target := LocalTarget(tables, path, request);
       if target.Err? then r == Threw(target.error) && s1 == s0
       else
         match CycleRoot(s0.records, target.value, k)
         case Some(j) => r == Returned(s0.records[j].exports) && s1 == s0
         case None => Obtained(target.value, false, Some(k), fuel, s0, s1, r))
    }

    /** What `sandbox.require(request, weak)` does for record `k`: `first` is
        the outcome of the strategy tried first (local, or the host's when
        `weak`); its value is returned, and its exception is discarded for
        the outcome of the other strategy. */
    ghost predicate Required(k: nat, path: string, request: string, weak: bool, fuel: nat,
                             s0: Snapshot, s1: Snapshot, first: Outcome, r: Outcome)
      reads this`load
      decreases fuel, 4
    {
      if weak then
        first == HostOutcome(request) &&
        (first.Returned? ==> r == first && s1 == s0) &&
        (first.Threw? ==> LocallyRequired(k, path, request, fuel, s0, s1, r))
      else
        LocallyRequired(k, path, request, fuel, s0, s1, first) &&
        (first.Returned? ==> r == first) &&
        (first.Threw? ==> r == HostOutcome(request))
    }

    /** One step of record `k`'s code, from `s0` to `s1`, with outcome `r`. */
    ghost predicate Stepped(k: nat, path: string, step: Step, fuel: nat,
                            s0: Snapshot, s1: Snapshot, first: Outcome, r: Outcome)
      reads this`load
      decreases fuel, 5
    {
      match step
      case Require(request, weak) => Required(k, path, request, weak, fuel, s0, s1, first, r)
      case ExportRequire(request, weak) =>
        if r.Threw? then Required(k, path, request, weak, fuel, s0, s1, first, r)
        else
          k < |s0.records| && k < |s1.records| && s1.records[k].exports == r.value &&
          Required(k, path, request, weak, fuel, s0,
                   s1.(records := s1.records[k := s1.records[k].(exports := s0.records[k].exports)]), first, r)
      case SetExports(value) =>
        r == Returned(value) && k < |s0.records| &&
        s1 == s0.(records := s0.records[k := s0.records[k].(exports := value)])
      case Throw(value) => r == Threw(Thrown(value)) && s1 == s0
    }

    /** Step `j` of a run: from `snaps[j]` to `snaps[j + 1]`, with outcome `trace[j]`. */
    ghost predicate StepAt(k: nat, path: string, steps: seq<Step>, fuel: nat, snaps: seq<Snapshot>,
                           firsts: seq<Outcome>, trace: seq<Outcome>, j: nat)
      reads this`load
      decreases fuel, 6
    {
      j < |steps| && j < |firsts| && j < |trace| && j + 1 < |snaps| &&
      Stepped(k, path, steps[j], fuel, snaps[j], snaps[j + 1], firsts[j], trace[j])
    }

    /** Running `steps` for record `k` from `s0` to `s1`: the steps ran in
        order, step `i` from `snaps[i]` to `snaps[i + 1]` with outcome
        `trace[i]`, and the first exception stopped the run and is its
        outcome. */
    ghost predicate Executed(k: nat, path: string, steps: seq<Step>, fuel: nat, s0: Snapshot, s1: Snapshot,
                             snaps: seq<Snapshot>, firsts: seq<Outcome>, trace: seq<Outcome>, r: Outcome)
      reads this`load
      decreases fuel, 7
    {
      |trace| <= |steps| && |firsts| == |trace| && |snaps| == |trace| + 1 &&
      snaps[0] == s0 && snaps[|trace|] == s1 &&
      (forall i :: 0 <= i < |trace| ==> StepAt(k, path, steps, fuel, snaps, firsts, trace, i)) &&
      (forall i :: 0 <= i < |trace| - 1 ==> trace[i].Returned?) &&
      (r.Threw? ==> |trace| > 0 && r == trace[|trace| - 1]) &&
      (r.Returned? ==> r == Returned(Undefined) && |trace| == |steps| && forall i :: 0 <= i < |trace| ==> trace[i].Returned?)
    }

    /** The `node` adapter: install the executing `__nld.load`. */
    method InstallNode()
      modifies this`load
      ensures load == NodeLoad
    {
      load := NodeLoad;
    }

    /** The `generic` adapter: fail unless the host defines the hook
        function; otherwise call it once with the runtime, which may install
        its own `load` and may throw. */
    method InstallGeneric(hook: Value) returns (r: Outcome)
      modifies this`load
      ensures !IsFunction(hook) ==> r == Threw(NoAdapterHook) && load == old(load)
      ensures IsFunction(hook) ==>
        load == (if hookEffect(hook.ref).installs then HookLoad(hook.ref) else old(load))
      ensures IsFunction(hook) && hookEffect(hook.ref).throws.Some? ==> r == Threw(Thrown(hookEffect(hook.ref).throws.value))
      ensures IsFunction(hook) && hookEffect(hook.ref).throws.None? ==> r == Returned(Undefined)
    {
      if !IsFunction(hook) {
        return Threw(NoAdapterHook);
      }
      var effect := hookEffect(hook.ref);
      if effect.installs {
        load := HookLoad(hook.ref);
      }
      if effect.throws.Some? {
        return Threw(Thrown(effect.throws.value));
      }
      return Returned(Undefined);
    }

    /** `__nld(ident, statically, parent)`. */
    method Obtain(ident: string, statically: bool, parent: Option<nat>, fuel: nat) returns (r: Outcome)
      requires Valid()
      requires parent.Some? ==> parent.value < |records|
      modifies this`cache, this`records, this`loads, this`roots
      ensures Valid() && Extends(old(records), records) && Stable(old(cache), cache) && old(loads) <= loads
      ensures roots == old(roots) + (if parent.None? then [ident] else [])
      ensures Obtained(ident, statically, parent, fuel, old(Snap()), Snap(), r)
      decreases fuel, 3
    {
      if parent.None? {
        roots := roots + [ident];
      }
      var res := ResolveOrThrow(tables, ident);
      if res.Err? {
        return Threw(res.error);
      }
      var name := res.value;
      if name !in tables.sym {
        return Threw(MissingEntry(name));
      }
      if statically || IsStatic(tables.sym[name].flag) {
        return Returned(Str(tables.sym[name].data));
      }
      if name in cache && Truthy(cache[name]) {
        return Returned(cache[name]);
      }
      r := Fetch(name, parent, fuel);
    }

    /** A cache miss: record the load, run `__nld.load`, and cache what it
        returns. */
    method Fetch(name: string, parent: Option<nat>, fuel: nat) returns (r: Outcome)
      requires Valid() && name in tables.sym && !(name in cache && Truthy(cache[name]))
      requires parent.Some? ==> parent.value < |records|
      modifies this`cache, this`records, this`loads, this`roots
      ensures Valid() && Extends(old(records), records) && Stable(old(cache), cache) && old(loads) <= loads
      ensures roots == old(roots)
      ensures Fetched(name, parent, fuel, old(Snap()), Snap(), r)
      decreases fuel, 2
    {
      loads := loads + [name];
      ghost var before := loads;
      ghost var snaps, firsts, trace;
      r, snaps, firsts, trace := Load(name, parent, fuel);
      assert before <= loads;
      ghost var end := Snap();
      if r.Returned? {
        cache := cache[name := r.value];
      }
      if load == NodeLoad && fuel > 0 {
        assert end == snaps[|trace|];
        assert Ran(name, parent, fuel, old(Snap()), Snap(), snaps, firsts, trace, r);
      }
    }

    /** The installed `__nld.load`. For the node adapter: create the record
        (`id`, empty `exports`, `parent`, no children), append it to the
        parent's children, execute the symbol's shebang-stripped text, and
        return the record's final `exports`. */
    method Load(name: string, parent: Option<nat>, fuel: nat)
      returns (r: Outcome, ghost snaps: seq<Snapshot>, ghost firsts: seq<Outcome>, ghost trace: seq<Outcome>)
      requires Valid() && name in tables.sym
      requires parent.Some? ==> parent.value < |records|
      modifies this`cache, this`records, this`loads, this`roots
      ensures Valid() && Extends(old(records), records) && Stable(old(cache), cache) && old(loads) <= loads
      ensures roots == old(roots)
      ensures load != NodeLoad || fuel == 0 ==> records == old(records) && cache == old(cache) && loads == old(loads)
      ensures load == StubLoad ==> r == Threw(LoadUnavailable)
      ensures load.HookLoad? ==> r == hookLoad(load.hook, name)
      ensures load == NodeLoad && fuel == 0 ==> r == Threw(StackExhausted)
      ensures load == NodeLoad && fuel > 0 ==>
        var k := |old(records)|;
        k < |records| && records[k].id == name && records[k].parent == parent &&
        (parent.Some? ==> k in records[parent.value].children) &&
        (r.Returned? ==> r.value == records[k].exports)
      ensures load == NodeLoad && fuel > 0 ==>
        var k := |old(records)|;
        var steps := program(StripShebang(tables.sym[name].data));
        Executed(k, tables.sym[name].path, steps, fuel - 1,
                 Snapshot(old(cache), Attached(old(records), name, parent), old(loads)), Snap(),
                 snaps, firsts, trace, if r.Threw? then r else Returned(Undefined)) &&
        |snaps| == |trace| + 1 && snaps[|trace|] == Snap() &&
        k < |records| && records[k].exports == Exported(steps, trace, Obj(k))
      decreases fuel, 1
    {
      snaps, firsts, trace := [], [], [];
      match load
      case StubLoad =>
        return Threw(LoadUnavailable), snaps, firsts, trace;
      case HookLoad(hook) =>
        return hookLoad(hook, name), snaps, firsts, trace;
      case NodeLoad =>
        if fuel == 0 {
          return Threw(StackExhausted), snaps, firsts, trace;
        }
        r, snaps, firsts, trace := LoadNode(name, parent, fuel);
    }

    /** The node adapter's `load` with stack to spare: create the record,
        run the symbol's shebang-stripped text as its code, and return the
        record's exports unless the code threw. */
    method LoadNode(name: string, parent: Option<nat>, fuel: nat)
      returns (r: Outcome, ghost snaps: seq<Snapshot>, ghost firsts: seq<Outcome>, ghost trace: seq<Outcome>)
      requires Valid() && name in tables.sym && fuel > 0
      requires parent.Some? ==> parent.value < |records|
      modifies this`cache, this`records, this`loads, this`roots
      ensures Valid() && Extends(old(records), records) && Stable(old(cache), cache) && old(loads) <= loads
      ensures roots == old(roots)
      ensures var k := |old(records)|;
        k < |records| && records[k].id == name && records[k].parent == parent &&
        (parent.Some? ==> k in records[parent.value].children) &&
        (r.Returned? ==> r.value == records[k].exports)
      ensures var k := |old(records)|;
        var steps := program(StripShebang(tables.sym[name].data));
        Executed(k, tables.sym[name].path, steps, fuel - 1,
                 Snapshot(old(cache), Attached(old(records), name, parent), old(loads)), Snap(),
                 snaps, firsts, trace, if r.Threw? then r else Returned(Undefined)) &&
        |snaps| == |trace| + 1 && snaps[|trace|] == Snap() &&
        k < |records| && records[k].exports == Exported(steps, trace, Obj(k))
      decreases fuel, 0
    {
      var k := Attach(name, parent);
      ghost var created := records;
      var sym := tables.sym[name];
      assert Snap() == Snapshot(old(cache), Attached(old(records), name, parent), old(loads));
      ghost var start := Snap();
      var steps := program(StripShebang(sym.data));
      var e;
      e, snaps, firsts, trace := Exec(k, sym.path, steps, fuel - 1);
      assert Executed(k, sym.path, steps, fuel - 1, start, Snap(), snaps, firsts, trace, e);
      assert e == (if e.Threw? then e else Returned(Undefined));
      assert records[k].id == created[k].id && records[k].parent == created[k].parent;
      assert parent.Some? ==> created[parent.value].children <= records[parent.value].children;
      if e.Threw? {
        return e, snaps, firsts, trace;
      }
      return Returned(records[k].exports), snaps, firsts, trace;
    }

    /** The record the node adapter builds before executing a symbol: a
        fresh `exports` object, no children, and a place among its parent's
        children. */
    method Attach(name: string, parent: Option<nat>) returns (k: nat)
      requires Valid()
      requires parent.Some? ==> parent.value < |records|
      modifies this`records
      ensures Valid() && Extends(old(records), records)
      ensures k == |old(records)| && |records| == k + 1
      ensures records == Attached(old(records), name, parent)
      ensures records[k] == Record(name, Obj(k), parent, [])
      ensures parent.Some? ==> records[parent.value].children == old(records)[parent.value].children + [k]
    {
      AttachKeepsLinks(records, name, parent);
      k := |records|;
      records := records + [Record(name, Obj(k), parent, [])];
      if parent.Some? {
        var p := parent.value;
        records := records[p := records[p].(children := records[p].children + [k])];
      }
    }

    /** Run the steps of record `k`'s code in order; an exception stops the
        run. `trace` holds the outcome of every step that ran, `snaps` the
        state before each of them and at the end, and `firsts` the outcome
        of the strategy each require tried first. */
    method Exec(k: nat, path: string, steps: seq<Step>, fuel: nat)
      returns (r: Outcome, ghost snaps: seq<Snapshot>, ghost firsts: seq<Outcome>, ghost trace: seq<Outcome>)
      requires Valid() && k < |records|
      modifies this`cache, this`records, this`loads, this`roots
      ensures Valid() && ExtendsExcept(old(records), records, k) && Stable(old(cache), cache) && old(loads) <= loads
      ensures roots == old(roots)
      ensures Executed(k, path, steps, fuel, old(Snap()), Snap(), snaps, firsts, trace, r)
      ensures |snaps| == |trace| + 1 && snaps[|trace|] == Snap()
      ensures r.Returned? ==> r == Returned(Undefined)
      ensures |trace| <= |steps| && k < |records| && records[k].exports == Exported(steps, trace, old(records)[k].exports)
      decreases fuel, 8
    {
      snaps, firsts, trace := [Snap()], [], [];
      var i := 0;
      while i < |steps|
        invariant 0 <= i <= |steps|
        invariant Valid() && ExtendsExcept(old(records), records, k) && Stable(old(cache), cache)
        invariant old(loads) <= loads && roots == old(roots)
        invariant |trace| == i && |firsts| == i && |snaps| == i + 1
        invariant snaps[0] == old(Snap()) && snaps[i] == Snap()
        invariant forall j :: 0 <= j < i ==> StepAt(k, path, steps, fuel, snaps, firsts, trace, j)
        invariant forall j :: 0 <= j < i ==> trace[j].Returned?
        invariant records[k].exports == Exported(steps, trace, old(records)[k].exports)
      {
        ghost var before := records;
        ghost var s0 := Snap();
        var v: Outcome;
        ghost var first: Outcome;
        v, first := RunStep(k, path, steps[i], fuel);
        assert Stepped(k, path, steps[i], fuel, s0, Snap(), first, v);
        assert snaps[|trace|] == s0 && steps[|trace|] == steps[i];
        ExtendsExceptTrans(old(records), before, records, k);
        assert (trace + [v])[..i] == trace;
        StepsExtend(k, path, steps, fuel, snaps, firsts, trace, Snap(), first, v);
        snaps, firsts, trace := snaps + [Snap()], firsts + [first], trace + [v];
        if v.Threw? {
          return v, snaps, firsts, trace;
        }
        i := i + 1;
      }
      return Returned(Undefined), snaps, firsts, trace;
    }

    /** A run of steps extended by one more step. */
    lemma StepsExtend(k: nat, path: string, steps: seq<Step>, fuel: nat, snaps: seq<Snapshot>,
                      firsts: seq<Outcome>, trace: seq<Outcome>, s: Snapshot, f: Outcome, v: Outcome)
      requires |trace| < |steps| && |firsts| == |trace| && |snaps| == |trace| + 1
      requires forall j :: 0 <= j < |trace| ==> StepAt(k, path, steps, fuel, snaps, firsts, trace, j)
      requires Stepped(k, path, steps[|trace|], fuel, snaps[|trace|], s, f, v)
      ensures forall j :: 0 <= j < |trace| + 1 ==> StepAt(k, path, steps, fuel, snaps + [s], firsts + [f], trace + [v], j)
    {
      var ns, nf, nt := snaps + [s], firsts + [f], trace + [v];
      forall j | 0 <= j < |trace| + 1
        ensures StepAt(k, path, steps, fuel, ns, nf, nt, j)
      {
        if j < |trace| {
          assert StepAt(k, path, steps, fuel, snaps, firsts, trace, j);
          assert ns[j] == snaps[j] && ns[j + 1] == snaps[j + 1] && nf[j] == firsts[j] && nt[j] == trace[j];
        } else {
          assert ns[j] == snaps[j] && ns[j + 1] == s && nf[j] == f && nt[j] == v;
        }
      }
    }

    /** One step of record `k`'s code. */
    method RunStep(k: nat, path: string, step: Step, fuel: nat) returns (v: Outcome, ghost first: Outcome)
      requires Valid() && k < |records|
      modifies this`cache, this`records, this`loads, this`roots
      ensures Valid() && ExtendsExcept(old(records), records, k) && Stable(old(cache), cache) && old(loads) <= loads
      ensures roots == old(roots)
      ensures Stepped(k, path, step, fuel, old(Snap()), Snap(), first, v)
      ensures k < |records| && records[k].exports ==
        if (step.SetExports? || step.ExportRequire?) && v.Returned? then v.value else old(records)[k].exports
      decreases fuel, 7
    {
      match step {
      case Require(request, weak) =>
        v, first := Require(k, path, request, weak, fuel);
      case ExportRequire(request, weak) =>
        v, first := ExportRequire(k, path, request, weak, fuel);
      case SetExports(value) =>
        first := Returned(value);
        SetExportsKeepsLinks(records, k, value);
        records := records[k := records[k].(exports := value)];
        v := Returned(value);
      case Throw(value) =>
        first := Threw(Thrown(value));
        v := Threw(Thrown(value));
      }
    }

    /** `module.exports = require(request, weak);` for record `k`. */
    method ExportRequire(k: nat, path: string, request: string, weak: bool, fuel: nat) returns (v: Outcome, ghost first: Outcome)
      requires Valid() && k < |records|
      modifies this`cache, this`records, this`loads, this`roots
      ensures Valid() && ExtendsExcept(old(records), records, k) && Stable(old(cache), cache) && old(loads) <= loads
      ensures roots == old(roots)
      ensures Stepped(k, path, Step.ExportRequire(request, weak), fuel, old(Snap()), Snap(), first, v)
      ensures k < |records| && records[k].exports == if v.Returned? then v.value else old(records)[k].exports
      decreases fuel, 6
    {
      v, first := Require(k, path, request, weak, fuel);
      if v.Returned? {
        ghost var mid := records;
        ghost var sMid := Snap();
        SetExportsKeepsLinks(records, k, v.value);
        records := records[k := records[k].(exports := v.value)];
        ExtendsExceptTrans(old(records), mid, records, k);
        assert mid == records[k := records[k].(exports := old(records)[k].exports)];
        assert sMid == Snap().(records := records[k := records[k].(exports := old(records)[k].exports)]);
      }
    }

    /** `sandbox.require(request, weak)` for record `k`. */
    method Require(k: nat, path: string, request: string, weak: bool, fuel: nat) returns (r: Outcome, ghost first: Outcome)
      requires Valid() && k < |records|
      modifies this`cache, this`records, this`loads, this`roots
      ensures Valid() && Extends(old(records), records) && Stable(old(cache), cache) && old(loads) <= loads
      ensures roots == old(roots)
      ensures Required(k, path, request, weak, fuel, old(Snap()), Snap(), first, r)
      decreases fuel, 5
    {
      var v: Outcome;
      if weak {
        v := HostOutcome(request);
        first := v;
        if v.Returned? {
          return v, first;
        }
        r := LocalRequire(k, path, request, fuel);
      } else {
        v := LocalRequire(k, path, request, fuel);
        first := v;
        if v.Returned? {
          return v, first;
        }
        r := HostOutcome(request);
      }
    }

    /** `local_require(request)` for record `k`. */
    method LocalRequire(k: nat, path: string, request: string, fuel: nat) returns (r: Outcome)
      requires Valid() && k < |records|
      modifies this`cache, this`records, this`loads, this`roots
      ensures Valid() && Extends(old(records), records) && Stable(old(cache), cache) && old(loads) <= loads
      ensures roots == old(roots)
      ensures LocallyRequired(k, path, request, fuel, old(Snap()), Snap(), r)
      decreases fuel, 4
    {
      var target := LocalTarget(tables, path, request);
      if target.Err? {
        return Threw(target.error);
      }
      var root := CycleRoot(records, target.value, k);
      if root.Some? {
        return Returned(records[root.value].exports);
      }
      r := Obtain(target.value, false, Some(k), fuel);
    }

    /** Code without steps returns `undefined` and changes nothing. */
    lemma ExecutedNothing(k: nat, path: string, fuel: nat, s0: Snapshot, s1: Snapshot,
                          snaps: seq<Snapshot>, firsts: seq<Outcome>, trace: seq<Outcome>, r: Outcome)
      requires Executed(k, path, [], fuel, s0, s1, snaps, firsts, trace, r)
      ensures r == Returned(Undefined) && s1 == s0 && trace == []
    {
    }

    /** Code whose first step throws stops there with that exception, and
        changes nothing. */
    lemma ExecutedThrowFirst(k: nat, path: string, steps: seq<Step>, fuel: nat, s0: Snapshot, s1: Snapshot,
                             snaps: seq<Snapshot>, firsts: seq<Outcome>, trace: seq<Outcome>, r: Outcome, v: Value)
      requires |steps| > 0 && steps[0] == Step.Throw(v)
      requires Executed(k, path, steps, fuel, s0, s1, snaps, firsts, trace, r)
      ensures r == Threw(Thrown(v)) && s1 == s0 && |trace| == 1
    {
      assert |trace| > 0;
      assert StepAt(k, path, steps, fuel, snaps, firsts, trace, 0);
      assert Stepped(k, path, steps[0], fuel, snaps[0], snaps[1], firsts[0], trace[0]);
      assert trace[0] == Threw(Thrown(v)) && snaps[1] == snaps[0];
    }

    /** Without `weak`, a request the local lookup cannot place goes to the
        host's `require`. */
    lemma RequiredLocalFirst(k: nat, path: string, request: string, fuel: nat,
                             s0: Snapshot, s1: Snapshot, first: Outcome, r: Outcome)
      requires Required(k, path, request, false, fuel, s0, s1, first, r)
      requires LocalTarget(tables, path, request).Err?
      ensures first == Threw(LocalTarget(tables, path, request).error) && r == HostOutcome(request) && s1 == s0
    {
      assert LocallyRequired(k, path, request, fuel, s0, s1, first);
    }

    /** A local request for a static symbol outside any cycle gives the
        symbol's text and changes nothing. */
    lemma LocalStaticTarget(k: nat, path: string, request: string, fuel: nat, s0: Snapshot, s1: Snapshot, r: Outcome)
      requires ParentsBelow(s0.records) && k < |s0.records|
      requires LocallyRequired(k, path, request, fuel, s0, s1, r)
      requires LocalTarget(tables, path, request).Ok?
      requires var n := LocalTarget(tables, path, request).value;
        n in tables.sym && IsStatic(tables.sym[n].flag) && CycleRoot(s0.records, n, k).None?
      ensures r == Returned(Str(tables.sym[LocalTarget(tables, path, request).value].data)) && s1 == s0
    {
      var n := LocalTarget(tables, path, request).value;
      assert Obtained(n, false, Some(k), fuel, s0, s1, r);
    }

    /** Pass `i` of the autorun pass: `__nld(tables.run[i])` without a
        parent record, from `snaps[i]` to `snaps[i + 1]`, with outcome
        `outs[i]`. */
    ghost predicate AutorunAt(fuel: nat, snaps: seq<Snapshot>, outs: seq<Outcome>, i: nat)
      reads this`load
    {
      i < |tables.run| && i < |outs| && i + 1 < |snaps| &&
      Obtained(tables.run[i], false, None, fuel, snaps[i], snaps[i + 1], outs[i])
    }

    /** The autorun passes extended by one more pass. */
    lemma AutorunsExtend(fuel: nat, snaps: seq<Snapshot>, outs: seq<Outcome>, s: Snapshot, v: Outcome)
      requires |outs| < |tables.run| && |snaps| == |outs| + 1
      requires forall j :: 0 <= j < |outs| ==> AutorunAt(fuel, snaps, outs, j)
      requires Obtained(tables.run[|outs|], false, None, fuel, snaps[|outs|], s, v)
      ensures forall j :: 0 <= j < |outs| + 1 ==> AutorunAt(fuel, snaps + [s], outs + [v], j)
    {
      var ns, no := snaps + [s], outs + [v];
      forall j | 0 <= j < |outs| + 1
        ensures AutorunAt(fuel, ns, no, j)
      {
        if j < |outs| {
          assert AutorunAt(fuel, snaps, outs, j);
          assert ns[j] == snaps[j] && ns[j + 1] == snaps[j + 1] && no[j] == outs[j];
        } else {
          assert ns[j] == snaps[j] && ns[j + 1] == s && no[j] == v;
        }
      }
    }

    /** The artifact's autorun pass: `__nld(name)` for every entry of the
        autorun list in order, stopping at the first exception. Pass `i`
        runs from `snaps[i]` to `snaps[i + 1]` with outcome `outs[i]`. */
    method RunAutoruns(fuel: nat) returns (r: Outcome, ghost snaps: seq<Snapshot>, ghost outs: seq<Outcome>)
      requires Valid()
      modifies this`cache, this`records, this`loads, this`roots
      ensures Valid() && Extends(old(records), records) && Stable(old(cache), cache)
      ensures |outs| <= |tables.run| && |snaps| == |outs| + 1 && snaps[0] == old(Snap()) && snaps[|outs|] == Snap()
      ensures forall i :: 0 <= i < |outs| ==> AutorunAt(fuel, snaps, outs, i)
      ensures forall i :: 0 <= i < |outs| - 1 ==> outs[i].Returned?
      ensures r.Threw? ==> |outs| > 0 && r == outs[|outs| - 1]
      ensures r.Returned? ==>
        r == Returned(Undefined) && |outs| == |tables.run| && forall i :: 0 <= i < |outs| ==> outs[i].Returned?
      ensures roots == old(roots) + tables.run[..|outs|]
    {
      snaps, outs := [Snap()], [];
      for i := 0 to |tables.run|
        invariant Valid() && Extends(old(records), records) && Stable(old(cache), cache)
        invariant |outs| == i && |snaps| == i + 1 && snaps[0] == old(Snap()) && snaps[i] == Snap()
        invariant forall j :: 0 <= j < i ==> AutorunAt(fuel, snaps, outs, j)
        invariant forall j :: 0 <= j < i ==> outs[j].Returned?
        invariant roots == old(roots) + tables.run[..i]
      {
        ghost var s0 := Snap();
        var v := Obtain(tables.run[i], false, None, fuel);
        AutorunsExtend(fuel, snaps, outs, Snap(), v);
        snaps, outs := snaps + [Snap()], outs + [v];
        assert tables.run[..i + 1] == tables.run[..i] + [tables.run[i]];
        if v.Threw? {
          return v, snaps, outs;
        }
      }
      assert tables.run[..|tables.run|] == tables.run;
      return Returned(Undefined), snaps, outs;
    }
  }
}
