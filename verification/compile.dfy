/** The compiler: the artifact is a list of text segments (wrapper, runtime
    definitions, serialised tables, failing load stub, and the branch that
    either exports the runtime to an importer or installs the adapter and
    runs the autoruns), joined, compressed and optionally given a shebang
    line. The JavaScript text of each segment and the compressor are oracles;
    what the segments do when the artifact is evaluated is given by `Eval`. */
module Compiler {
  import opened Js
  import opened BundleStore

  datatype Segment =
    | Opener(param: Option<Value>)        // `(function(P){`, or `(function(){` when None
    | Loader                              // `var __nld = function(symbol, statically, loadOpts) {…};`
    | CacheInit                           // `__nld.cache = [];`
    | Resolver                            // `__nld.resolve = function(symbol) {…};`
    | Table(property: string, of: Tables) // `__nld.<property> = <JSON of that table of `of`>;`
    | LoadStub                            // the `__nld.load` that throws "invalid adapter, load unavailable"
    | ImportGuard                         // `if(<loaded by a require other than the main one>) {`
    | ExportRuntime                       // `module.exports = __nld;`
    | Otherwise                           // `} else {`
    | AdapterCall(adapter: nat)           // `(<adapter function>)();`
    | AutorunPass                         // `__nld._run.forEach(function(symbol) { __nld(symbol); });`
    | CloseBranch                         // `}`
    | Closer(invoke: bool)                // `})();` when invoked, `})` otherwise

  /** The compile options: the adapter function, the interpreter of the
      shebang line ("" for none), the passive parameter and `unwrapped`. */
  datatype Options = Options(adapter: Value, interpreter: string, passive: Value, unwrapped: bool)

  const InvalidAdapter := "nld compiler: invalid adapter"

  /** The wrapper's opening segment, if any. */
  function Opening(opts: Options): seq<Segment>
  {
    if opts.unwrapped then []
    else if Truthy(opts.passive) && opts.passive != Bool(true) then [Opener(Some(opts.passive))]
    else [Opener(None)]
  }

  /** The wrapper's closing segment, if any: a passive artifact is not called. */
  function Closing(opts: Options): seq<Segment>
  {
    if opts.unwrapped then [] else [Closer(!Truthy(opts.passive))]
  }

  /** The serialised tables, one per serialisable property. */
  function TableSegments(t: Tables): seq<Segment>
  {
    [Table("_sym", t), Table("_map", t), Table("_run", t)]
  }

  /** Everything the artifact defines before it branches. */
  function Definitions(t: Tables): seq<Segment>
  {
    [Loader, CacheInit, Resolver] + TableSegments(t) + [LoadStub]
  }

  /** The import/run branch. */
  function Branch(t: Tables, adapter: nat): seq<Segment>
  {
    [ImportGuard, ExportRuntime, Otherwise, AdapterCall(adapter)] +
    (if |t.run| > 0 then [AutorunPass] else []) + [CloseBranch]
  }

  /** The segments of the artifact, or the compiler's error. */
  function Layout(t: Tables, opts: Options): (r: Result<seq<Segment>, string>)
    ensures r.Err? <==> !IsFunction(opts.adapter)
    ensures r.Err? ==> r.error == InvalidAdapter
  {
    if !IsFunction(opts.adapter) then Err(InvalidAdapter)
    else Ok(Opening(opts) + Definitions(t) + Branch(t, opts.adapter.ref) + Closing(opts))
  }

  /** `out.join("")` over the rendered segments. */
  function Emitted(segs: seq<Segment>, render: Segment -> string): string
  {
    if segs == [] then "" else render(segs[0]) + Emitted(segs[1..], render)
  }

  function Shebang(interpreter: string): string
  {
    if interpreter == "" then "" else "#!" + interpreter + "\n"
  }

  /** `compile(bundle, opts)`: push the segments in order (the adapter check
      comes after the import branch is already pushed), join, compress, and
      put the shebang line in front. */
  method Compile(t: Tables, opts: Options, render: Segment -> string, compress: string -> string)
    returns (r: Result<string, string>)
    ensures Layout(t, opts).Err? ==> r == Err(InvalidAdapter)
    ensures Layout(t, opts).Ok? ==>
      r == Ok(Shebang(opts.interpreter) + compress(Emitted(Layout(t, opts).value, render)))
  {
    var out: seq<Segment> := [];
    if !opts.unwrapped {
      if Truthy(opts.passive) && opts.passive != Bool(true) {
        out := out + [Opener(Some(opts.passive))];
      } else {
        out := out + [Opener(None)];
      }
    }
    assert out == Opening(opts);
    out := out + [Loader];
    out := out + [CacheInit];
    out := out + [Resolver];
    for i := 0 to |Serializable|
      invariant out == Opening(opts) + [Loader, CacheInit, Resolver] + TableSegments(t)[..i]
    {
      out := out + [Table(Serializable[i], t)];
    }
    assert TableSegments(t)[..|Serializable|] == TableSegments(t);
    out := out + [LoadStub];
    assert out == Opening(opts) + Definitions(t);
    ghost var defined := out;
    out := out + [ImportGuard];
    out := out + [ExportRuntime];
    out := out + [Otherwise];
    if !IsFunction(opts.adapter) {
      return Err(InvalidAdapter);
    }
    out := out + [AdapterCall(opts.adapter.ref)];
    if |t.run| > 0 {
      out := out + [AutorunPass];
    }
    out := out + [CloseBranch];
    assert out == defined + Branch(t, opts.adapter.ref);
    ghost var branched := out;
    if !opts.unwrapped {
      if Truthy(opts.passive) {
        out := out + [Closer(false)];
      } else {
        out := out + [Closer(true)];
      }
    }
    assert out == branched + Closing(opts);
    assert out == Layout(t, opts).value;
    var text := Emitted(out, render);
    text := compress(text);
    ghost var body := text;
    assert body == compress(Emitted(Layout(t, opts).value, render));
    if opts.interpreter != "" {
      text := "#!" + opts.interpreter + "\n" + text;
      assert text == Shebang(opts.interpreter) + body;
    } else {
      assert text == Shebang(opts.interpreter) + body;
    }
    return Ok(text);
  }

  // ---------------------------------------------------------------------------
  // What the segments do when the artifact is evaluated.

  /** Whether evaluation is outside the branch, in the branch taken, or in
      the branch skipped. */
  datatype Mode = Straight | Taken | Skipped

  /** The evaluation state: the mode and the tables assigned so far. */
  datatype State = State(mode: Mode, tables: Tables)

  /** What the host observes. */
  datatype Effect = ExportsRuntime | RunsAdapter(adapter: nat) | RunsAutoruns(run: seq<string>)

  /** `__nld.<property> = <that table of src>;` */
  function Assign(t: Tables, property: string, src: Tables): Tables
  {
    if property == "_sym" then t.(sym := src.sym)
    else if property == "_map" then t.(paths := src.paths)
    else if property == "_run" then t.(run := src.run)
    else t
  }

  function Step(s: Segment, imported: bool, st: State): State
  {
    match s
    case ImportGuard => st.(mode := if imported then Taken else Skipped)
    case Otherwise => st.(mode := if st.mode == Taken then Skipped else if st.mode == Skipped then Taken else st.mode)
    case CloseBranch => st.(mode := Straight)
    case Table(p, src) => if st.mode == Skipped then st else st.(tables := Assign(st.tables, p, src))
    case _ => st
  }

  function Emits(s: Segment, st: State): seq<Effect>
  {
    if st.mode == Skipped then []
    else
      match s
      case ExportRuntime => [ExportsRuntime]
      case AdapterCall(a) => [RunsAdapter(a)]
      case AutorunPass => [RunsAutoruns(st.tables.run)]
      case _ => []
  }

  /** The effects of evaluating `segs` from state `st`. */
  function Eval(segs: seq<Segment>, imported: bool, st: State): seq<Effect>
    decreases |segs|
  {
    if segs == [] then [] else Emits(segs[0], st) + Eval(segs[1..], imported, Step(segs[0], imported, st))
  }

  /** The state after evaluating `segs` from `st`. */
  function Final(segs: seq<Segment>, imported: bool, st: State): State
    decreases |segs|
  {
    if segs == [] then st else Final(segs[1..], imported, Step(segs[0], imported, st))
  }

  /** What evaluating the artifact does, when imported by another module or
      run as the main one: a wrapper closed without a call only yields a
      function, so nothing inside it runs. */
  function Behaviour(segs: seq<Segment>, imported: bool): seq<Effect>
  {
    if |segs| > 0 && segs[|segs| - 1] == Closer(false) then []
    else Eval(segs, imported, State(Straight, Empty))
  }

  lemma {:induction false} EvalAppend(a: seq<Segment>, b: seq<Segment>, imported: bool, st: State)
    ensures Eval(a + b, imported, st) == Eval(a, imported, st) + Eval(b, imported, Final(a, imported, st))
    ensures Final(a + b, imported, st) == Final(b, imported, Final(a, imported, st))
    decreases |a|
  {
    if a == [] {
      assert a + b == b;
    } else {
      assert (a + b)[0] == a[0];
      assert (a + b)[1..] == a[1..] + b;
      EvalAppend(a[1..], b, imported, Step(a[0], imported, st));
    }
  }

  lemma EvalOne(s: Segment, imported: bool, st: State)
    ensures Eval([s], imported, st) == Emits(s, st)
    ensures Final([s], imported, st) == Step(s, imported, st)
  {
    assert [s][1..] == [];
  }

  /** The three table assignments and the stub emit nothing and assign the
      bundle's tables. */
  lemma EvalTables(t: Tables, imported: bool, env: Tables)
    ensures var segs := [Table("_sym", t), Table("_map", t), Table("_run", t), LoadStub];
      Eval(segs, imported, State(Straight, env)) == [] &&
      Final(segs, imported, State(Straight, env)) == State(Straight, t)
  {
    var s1 := State(Straight, env.(sym := t.sym));
    var s2 := State(Straight, env.(sym := t.sym, paths := t.paths));
    var s3 := State(Straight, t);
    assert [LoadStub] == [LoadStub] + [];
    EvalCons(LoadStub, [], imported, s3);
    EvalCons(Table("_run", t), [LoadStub], imported, s2);
    assert [Table("_run", t), LoadStub] == [Table("_run", t)] + [LoadStub];
    EvalCons(Table("_map", t), [Table("_run", t), LoadStub], imported, s1);
    assert [Table("_map", t), Table("_run", t), LoadStub] == [Table("_map", t)] + [Table("_run", t), LoadStub];
    EvalCons(Table("_sym", t), [Table("_map", t), Table("_run", t), LoadStub], imported, State(Straight, env));
    assert [Table("_sym", t), Table("_map", t), Table("_run", t), LoadStub] ==
      [Table("_sym", t)] + [Table("_map", t), Table("_run", t), LoadStub];
  }

  /** The definitions emit nothing and leave the bundle's tables assigned. */
  lemma EvalDefinitions(t: Tables, imported: bool, env: Tables)
    ensures Eval(Definitions(t), imported, State(Straight, env)) == []
    ensures Final(Definitions(t), imported, State(Straight, env)) == State(Straight, t)
  {
    var s0 := State(Straight, env);
    var l4 := [Table("_sym", t), Table("_map", t), Table("_run", t), LoadStub];
    var l3 := [Resolver] + l4;
    var l2 := [CacheInit] + l3;
    assert Definitions(t) == [Loader] + l2;
    EvalTables(t, imported, env);
    EvalCons(Resolver, l4, imported, s0);
    EvalCons(CacheInit, l3, imported, s0);
    EvalCons(Loader, l2, imported, s0);
  }

  lemma EvalCons(s: Segment, rest: seq<Segment>, imported: bool, st: State)
    ensures Eval([s] + rest, imported, st) == Emits(s, st) + Eval(rest, imported, Step(s, imported, st))
    ensures Final([s] + rest, imported, st) == Final(rest, imported, Step(s, imported, st))
  {
    assert ([s] + rest)[1..] == rest;
  }

  /** From the adapter call on, with `mode` being the mode of the run branch. */
  lemma EvalRunPart(t: Tables, adapter: nat, imported: bool, mode: Mode)
    requires mode != Straight
    ensures var rest := [AdapterCall(adapter)] + (if |t.run| > 0 then [AutorunPass] else []) + [CloseBranch];
      Eval(rest, imported, State(mode, t)) ==
        (if mode == Skipped then [] else [RunsAdapter(adapter)] + (if |t.run| > 0 then [RunsAutoruns(t.run)] else [])) &&
      Final(rest, imported, State(mode, t)) == State(Straight, t)
  {
    var st := State(mode, t);
    EvalCons(CloseBranch, [], imported, st);
    assert [CloseBranch] == [CloseBranch] + [];
    if |t.run| > 0 {
      EvalCons(AutorunPass, [CloseBranch], imported, st);
      EvalCons(AdapterCall(adapter), [AutorunPass, CloseBranch], imported, st);
      assert [AdapterCall(adapter)] + [AutorunPass] + [CloseBranch] == [AdapterCall(adapter)] + [AutorunPass, CloseBranch];
      assert [AutorunPass, CloseBranch] == [AutorunPass] + [CloseBranch];
    } else {
      EvalCons(AdapterCall(adapter), [CloseBranch], imported, st);
      assert [AdapterCall(adapter)] + [] + [CloseBranch] == [AdapterCall(adapter)] + [CloseBranch];
    }
  }

  /** The branch: an importer gets only the exported runtime; a main run
      gets the adapter call and then, if there are autoruns, the autorun pass
      over the assigned autorun list. Either way the tables stay as they are. */
  lemma EvalBranch(t: Tables, adapter: nat, imported: bool)
    ensures Eval(Branch(t, adapter), imported, State(Straight, t)) ==
      if imported then [ExportsRuntime]
      else [RunsAdapter(adapter)] + (if |t.run| > 0 then [RunsAutoruns(t.run)] else [])
    ensures Final(Branch(t, adapter), imported, State(Straight, t)) == State(Straight, t)
  {
    var rest := [AdapterCall(adapter)] + (if |t.run| > 0 then [AutorunPass] else []) + [CloseBranch];
    assert Branch(t, adapter) == [ImportGuard] + ([ExportRuntime] + ([Otherwise] + rest));
    EvalGuarded(t, adapter, imported);
    EvalCons(ImportGuard, [ExportRuntime] + ([Otherwise] + rest), imported, State(Straight, t));
  }

  /** The branch after its guard, in the mode the guard chose. */
  lemma EvalGuarded(t: Tables, adapter: nat, imported: bool)
    ensures var rest := [AdapterCall(adapter)] + (if |t.run| > 0 then [AutorunPass] else []) + [CloseBranch];
      var st := State(if imported then Taken else Skipped, t);
      Eval([ExportRuntime] + ([Otherwise] + rest), imported, st) ==
        (if imported then [ExportsRuntime]
         else [RunsAdapter(adapter)] + (if |t.run| > 0 then [RunsAutoruns(t.run)] else [])) &&
      Final([ExportRuntime] + ([Otherwise] + rest), imported, st) == State(Straight, t)
  {
    var rest := [AdapterCall(adapter)] + (if |t.run| > 0 then [AutorunPass] else []) + [CloseBranch];
    if imported {
      EvalRunPart(t, adapter, imported, Skipped);
      EvalCons(Otherwise, rest, imported, State(Taken, t));
      EvalCons(ExportRuntime, [Otherwise] + rest, imported, State(Taken, t));
    } else {
      EvalRunPart(t, adapter, imported, Taken);
      EvalCons(Otherwise, rest, imported, State(Skipped, t));
      EvalCons(ExportRuntime, [Otherwise] + rest, imported, State(Skipped, t));
    }
  }

  /** The definitions followed by the branch, from the empty state. */
  lemma EvalBody(t: Tables, adapter: nat, imported: bool)
    ensures var body := Definitions(t) + Branch(t, adapter);
      Eval(body, imported, State(Straight, Empty)) == Eval(Branch(t, adapter), imported, State(Straight, t)) &&
      Final(body, imported, State(Straight, Empty)) == State(Straight, t)
  {
    EvalDefinitions(t, imported, Empty);
    EvalBranch(t, adapter, imported);
    EvalAppend(Definitions(t), Branch(t, adapter), imported, State(Straight, Empty));
  }

  /** The effects and final state of an artifact are those of its body,
      unless it is a passive wrapper, which does nothing. */
  lemma EvalLayout(t: Tables, opts: Options, imported: bool)
    requires Layout(t, opts).Ok?
    ensures var segs := Layout(t, opts).value;
      var body := Definitions(t) + Branch(t, opts.adapter.ref);
      Final(segs, imported, State(Straight, Empty)) == State(Straight, t) &&
      Behaviour(segs, imported) ==
        if !opts.unwrapped && Truthy(opts.passive) then [] else Eval(body, imported, State(Straight, Empty))
  {
    var segs := Layout(t, opts).value;
    var st := State(Straight, Empty);
    var body := Definitions(t) + Branch(t, opts.adapter.ref);
    assert segs == Opening(opts) + body + Closing(opts);
    EvalBody(t, opts.adapter.ref, imported);
    if opts.unwrapped {
      assert segs == body;
    } else {
      var op := Opening(opts)[0];
      var cl := Closing(opts)[0];
      assert segs == [op] + (body + [cl]);
      EvalAppend(body, [cl], imported, st);
      EvalOne(cl, imported, State(Straight, t));
      EvalCons(op, body + [cl], imported, st);
      assert segs[|segs| - 1] == cl;
    }
  }

  /** Evaluating the artifact: when imported by another module it only
      exports the runtime; when run as the main module it installs the adapter
      and runs the autorun list in order iff that list is non-empty; a
      passive wrapper does neither until its caller invokes it. */
  lemma LayoutBehaviour(t: Tables, opts: Options, imported: bool)
    requires Layout(t, opts).Ok?
    ensures var segs := Layout(t, opts).value;
      Behaviour(segs, imported) ==
        if !opts.unwrapped && Truthy(opts.passive) then []
        else if imported then [ExportsRuntime]
        else [RunsAdapter(opts.adapter.ref)] + (if |t.run| > 0 then [RunsAutoruns(t.run)] else [])
  {
    EvalLayout(t, opts, imported);
    EvalBody(t, opts.adapter.ref, imported);
    EvalBranch(t, opts.adapter.ref, imported);
  }

  /** The tables the artifact's runtime ends up with are the bundle's. */
  lemma LayoutTables(t: Tables, opts: Options, imported: bool)
    requires Layout(t, opts).Ok?
    ensures Final(Layout(t, opts).value, imported, State(Straight, Empty)).tables == t
  {
    EvalLayout(t, opts, imported);
  }

  /** The wrapper: none when unwrapped; otherwise the first segment opens a
      function whose parameter is the passive value exactly when that value
      is truthy and not `true`, and the last closes it, calling it exactly
      when the artifact is not passive. */
  lemma LayoutWrapper(t: Tables, opts: Options)
    requires Layout(t, opts).Ok?
    ensures var segs := Layout(t, opts).value;
      opts.unwrapped ==> forall i :: 0 <= i < |segs| ==> !segs[i].Opener? && !segs[i].Closer?
    ensures var segs := Layout(t, opts).value;
      !opts.unwrapped ==>
        segs[0].Opener? && segs[|segs| - 1].Closer? &&
        (segs[0].param.Some? <==> Truthy(opts.passive) && opts.passive != Bool(true)) &&
        (segs[0].param.Some? ==> segs[0].param.value == opts.passive) &&
        (segs[|segs| - 1].invoke <==> !Truthy(opts.passive)) &&
        forall i :: 0 < i < |segs| - 1 ==> !segs[i].Opener? && !segs[i].Closer?
  {
    var segs := Layout(t, opts).value;
    var body := Definitions(t) + Branch(t, opts.adapter.ref);
    assert segs == Opening(opts) + body + Closing(opts);
    assert forall i :: 0 <= i < |body| ==> !body[i].Opener? && !body[i].Closer?;
    if !opts.unwrapped {
      forall i | 0 < i < |segs| - 1 ensures !segs[i].Opener? && !segs[i].Closer? {
        assert segs[i] == body[i - 1];
      }
    } else {
      assert segs == body;
    }
  }

  /** The segments that branch on how the artifact is loaded, or act in the run branch. */
  predicate Branching(s: Segment) {
    s == ImportGuard || s.AdapterCall? || s == AutorunPass
  }

  /** The runtime is complete before the branch: every definition and table
      segment comes before the import guard, the adapter call and the autorun
      pass. */
  lemma LayoutDefinitionsFirst(t: Tables, opts: Options)
    requires Layout(t, opts).Ok?
    ensures var segs := Layout(t, opts).value;
      forall i, j :: 0 <= i < |segs| && 0 <= j < |segs| && segs[i] in Definitions(t) && Branching(segs[j]) ==> i < j
  {
    var segs := Layout(t, opts).value;
    var o := |Opening(opts)|;
    var defs := Definitions(t);
    var branch := Branch(t, opts.adapter.ref);
    assert segs == Opening(opts) + defs + branch + Closing(opts);
    assert |defs| == 7;
    forall i | 0 <= i < |segs| ensures segs[i] in defs ==> o <= i < o + 7 {
      if i < o {
        assert segs[i] == Opening(opts)[i];
      } else if i >= o + 7 + |branch| {
        assert segs[i] == Closing(opts)[i - o - 7 - |branch|];
      } else if i >= o + 7 {
        assert segs[i] == branch[i - o - 7];
      }
    }
    forall j | 0 <= j < |segs|
      ensures Branching(segs[j]) ==> o + 7 <= j
    {
      if j < o {
        assert segs[j] == Opening(opts)[j];
      } else if j < o + 7 {
        assert segs[j] == defs[j - o];
      }
    }
  }
}
