/** The bundle store: a symbol table (`_sym`), a path map (`_map`) and an
    autorun list (`_run`), edited in place by `addSymbol` and `removeSymbol`
    and queried by `resolve`. */
module BundleStore {
  import opened Js

  /** The symbol flags: "" (plain, executed lazily), "s" (static text),
      "b" (static binary, base64 text), "x" (autorun) and "l" (a bundle to
      merge, only seen on command-line inputs). */
  datatype Flag = Plain | Static | Binary | Autorun | Link

  datatype Symbol = Symbol(data: string, path: string, flag: Flag)

  /** The three serialisable tables of a bundle, as values. */
  datatype Tables = Tables(sym: map<string, Symbol>, paths: map<string, string>, run: seq<string>)

  /** The names of the serialisable tables, in the order in which they are
      read by `open` and written into the artifact. */
  const Serializable: seq<string> := ["_sym", "_map", "_run"]

  const Empty := Tables(map[], map[], [])

  /** What `require` returns for a bundle file: each table may be missing. */
  datatype BundleFile = BundleFile(sym: Option<map<string, Symbol>>,
                                   paths: Option<map<string, string>>,
                                   run: Option<seq<string>>)

  predicate Present(file: BundleFile, property: string) {
    match property
    case "_sym" => file.sym.Some?
    case "_map" => file.paths.Some?
    case "_run" => file.run.Some?
    case _ => false
  }

  /** `resolve`: a known symbol name resolves to itself; otherwise a path with
      a non-empty mapped name resolves to that name, which is not checked
      against the symbol table again. */
  function ResolveIn(t: Tables, s: string): Option<string>
  {
    if s in t.sym then Some(s)
    else if s in t.paths && t.paths[s] != "" then Some(t.paths[s])
    else None
  }

  /** The tables after `addSymbol(name, data, path, flag)`. */
  function Added(t: Tables, name: string, data: string, path: string, flag: Flag): (r: Tables)
    ensures name in r.sym && r.sym[name] == Symbol(data, path, flag)
    ensures forall k :: k != name ==> (k in r.sym <==> k in t.sym) && (k in t.sym ==> r.sym[k] == t.sym[k])
    ensures path in r.paths && r.paths[path] == name
    ensures forall q :: q != path ==> (q in r.paths <==> q in t.paths) && (q in t.paths ==> r.paths[q] == t.paths[q])
    ensures flag == Autorun ==> r.run == t.run + [name]
    ensures flag != Autorun ==> r.run == t.run
  {
    Tables(t.sym[name := Symbol(data, path, flag)],
           t.paths[path := name],
           if flag == Autorun then t.run + [name] else t.run)
  }

  /** JavaScript's `!==` on two values. */
  predicate StrictNotEqual(a: Value, b: Value) {
    a != b
  }

  /** `run.filter(function(sym, sym_name) { return sym_name !== name; })` from
      position `i` on: the callback's second argument is the element's index,
      a number, so it is never strictly equal to the name, a string. */
  function KeepWhereIndexDiffers(run: seq<string>, name: string, i: nat): (r: seq<string>)
    requires i <= |run|
    ensures r == run[i..]
    decreases |run| - i
  {
    if i == |run| then []
    else (if StrictNotEqual(Num(i), Str(name)) then [run[i]] else []) + KeepWhereIndexDiffers(run, name, i + 1)
  }

  /** The tables after `removeSymbol(name)`, as written: an absent name changes
      nothing; a present one loses its symbol and the path-map entry for its
      recorded path, whatever name that entry holds; the autorun list is
      rebuilt by the index-comparing filter and so keeps every entry. */
  function Removed(t: Tables, name: string): (r: Tables)
    ensures name !in t.sym ==> r == t
    ensures name in t.sym ==> r.sym == t.sym - {name}
    ensures name in t.sym ==> r.paths == t.paths - {t.sym[name].path}
    ensures r.run == t.run
  {
    if name !in t.sym then t
    else Tables(t.sym - {name}, t.paths - {t.sym[name].path}, KeepWhereIndexDiffers(t.run, name, 0))
  }

  /** The filter the autorun list was evidently meant to get: drop every
      occurrence of `name`, keep everything else in order. */
  function Without(run: seq<string>, name: string): (r: seq<string>)
    ensures name !in r
    ensures forall x :: x != name ==> multiset(r)[x] == multiset(run)[x]
    ensures forall x :: x in r ==> x in run
    ensures name !in run ==> r == run
  {
    if |run| == 0 then []
    else
      var rest := Without(run[1..], name);
      assert run == [run[0]] + run[1..];
      if run[0] == name then rest else [run[0]] + rest
  }

  /** The filter keeps the relative order of what it keeps: filtering a
      concatenation filters each part. */
  lemma {:induction false} WithoutAppend(a: seq<string>, b: seq<string>, name: string)
    ensures Without(a + b, name) == Without(a, name) + Without(b, name)
    decreases |a|
  {
    if |a| == 0 {
      assert a + b == b;
    } else {
      assert (a + b)[1..] == a[1..] + b;
      WithoutAppend(a[1..], b, name);
    }
  }

  /** `removeSymbol` with the filter comparing names, as intended. */
  function RemovedIntended(t: Tables, name: string): (r: Tables)
    ensures name !in t.sym ==> r == t
    ensures name in t.sym ==> r.sym == t.sym - {name}
    ensures name in t.sym ==> r.paths == t.paths - {t.sym[name].path}
    ensures name in t.sym ==> r.run == Without(t.run, name)
  {
    if name !in t.sym then t
    else Tables(t.sym - {name}, t.paths - {t.sym[name].path}, Without(t.run, name))
  }

  /** Every autorun entry names a symbol of the bundle. */
  ghost predicate RunClosed(t: Tables) {
    forall i :: 0 <= i < |t.run| ==> t.run[i] in t.sym
  }

  /** Every path-map entry points at a symbol whose recorded path is that key,
      so no entry is stale. */
  ghost predicate Coherent(t: Tables) {
    forall q :: q in t.paths ==> t.paths[q] in t.sym && t.sym[t.paths[q]].path == q
  }

  /** `addSymbol` keeps every autorun entry pointing at a symbol. */
  lemma AddedKeepsRunClosed(t: Tables, name: string, data: string, path: string, flag: Flag)
    requires RunClosed(t)
    ensures RunClosed(Added(t, name, data, path, flag))
  {
  }

  /** The intended `removeSymbol` keeps every autorun entry pointing at a symbol. */
  lemma {:induction false} RemovedIntendedKeepsRunClosed(t: Tables, name: string)
    requires RunClosed(t)
    ensures RunClosed(RemovedIntended(t, name))
    ensures name !in RemovedIntended(t, name).run
  {
    var r := RemovedIntended(t, name);
    if name in t.sym {
      forall i | 0 <= i < |r.run| ensures r.run[i] in r.sym {
        assert r.run[i] in t.run;
        var j :| 0 <= j < |t.run| && t.run[j] == r.run[i];
        assert r.run[i] != name;
      }
    }
  }

  /** As written, removing an autorun symbol leaves its name on the autorun
      list although the symbol is gone. */
  lemma RemovedLeavesDanglingAutorun()
    ensures var t := Added(Empty, "main.js", "", "main.js", Autorun);
      RunClosed(t) && !RunClosed(Removed(t, "main.js"))
  {
    var t := Added(Empty, "main.js", "", "main.js", Autorun);
    assert t.run == ["main.js"];
    assert Removed(t, "main.js").run[0] !in Removed(t, "main.js").sym;
  }

  /** After `addSymbol`, the name resolves to itself, and its path resolves to
      it too unless the path is itself a symbol name or the name is empty. */
  lemma ResolveAfterAdd(t: Tables, name: string, data: string, path: string, flag: Flag)
    ensures ResolveIn(Added(t, name, data, path, flag), name) == Some(name)
    ensures path != name && path !in t.sym && name != "" ==>
      ResolveIn(Added(t, name, data, path, flag), path) == Some(name)
  {
  }

  /** On coherent tables, after `removeSymbol(name)` neither the former name
      nor the former path resolves to the removed name, and the tables stay
      coherent. */
  lemma {:induction false} ResolveAfterRemove(t: Tables, name: string)
    requires Coherent(t) && name in t.sym
    ensures ResolveIn(Removed(t, name), name) != Some(name)
    ensures ResolveIn(Removed(t, name), t.sym[name].path) != Some(name)
    ensures Coherent(Removed(t, name))
  {
    var r := Removed(t, name);
    var p := t.sym[name].path;
    if name in r.paths {
      assert t.paths[name] in t.sym && t.sym[t.paths[name]].path == name;
      assert t.paths[name] != name;
    }
    forall q | q in r.paths ensures r.paths[q] in r.sym && r.sym[r.paths[q]].path == q {
      assert q != p;
      assert t.paths[q] != name;
    }
  }

  /** Re-adding a name after removing it (the packager's collision handling)
      keeps coherent tables coherent. */
  lemma {:induction false} RemoveThenAddKeepsCoherent(t: Tables, name: string, data: string, path: string, flag: Flag)
    requires Coherent(t)
    ensures Coherent(Added(Removed(t, name), name, data, path, flag))
  {
    var m := Removed(t, name);
    var r := Added(m, name, data, path, flag);
    forall q | q in m.paths ensures m.paths[q] in m.sym && m.sym[m.paths[q]].path == q {
      assert name in t.sym ==> q != t.sym[name].path;
      assert t.paths[q] in t.sym && t.sym[t.paths[q]].path == q;
    }
    forall q | q in r.paths ensures r.paths[q] in r.sym && r.sym[r.paths[q]].path == q {
      if q != path {
        assert m.paths[q] != name;
      }
    }
  }

  /** Overwriting a symbol under a new path, without removing it first, leaves
      the old path mapped to the name; once the symbol is removed, that path
      still resolves to the vanished name, because resolution takes one hop. */
  lemma StaleEntryOutlivesRemoval()
    ensures var t := Added(Added(Empty, "a", "", "old.js", Plain), "a", "", "new.js", Plain);
      !Coherent(t) &&
      ResolveIn(t, "old.js") == Some("a") &&
      ResolveIn(Removed(t, "a"), "old.js") == Some("a") &&
      "a" !in Removed(t, "a").sym
  {
    var t := Added(Added(Empty, "a", "", "old.js", Plain), "a", "", "new.js", Plain);
    assert "old.js" != "new.js";
    assert t.paths["old.js"] == "a";
    assert t.sym["a"].path == "new.js";
  }

  /** The store as the source's `Bundle` object: three tables updated in place. */
  class Bundle {
    var sym: map<string, Symbol>
    var paths: map<string, string>
    var run: seq<string>

    function View(): Tables
      reads this
    {
      Tables(sym, paths, run)
    }

    /** `new Bundle()`: all three tables empty. */
    constructor ()
      ensures View() == Empty
    {
      sym, paths, run := map[], map[], [];
    }

    /** `open`: adopt the loaded file's tables in the order of `Serializable`;
        the first missing table aborts with "Unable to read bundle file",
        after the tables before it have already been adopted. */
    method Open(file: BundleFile) returns (r: Result<(), string>)
      modifies this
      ensures r.Ok? <==> file.sym.Some? && file.paths.Some? && file.run.Some?
      ensures r.Err? ==> r.error == "Unable to read bundle file"
      ensures sym == if file.sym.Some? then file.sym.value else old(sym)
      ensures paths == if file.sym.Some? && file.paths.Some? then file.paths.value else old(paths)
      ensures run == if r.Ok? then file.run.value else old(run)
    {
      for i := 0 to |Serializable|
        invariant i > 0 ==> file.sym.Some?
        invariant i > 1 ==> file.paths.Some?
        invariant i > 2 ==> file.run.Some?
        invariant sym == if i > 0 && file.sym.Some? then file.sym.value else old(sym)
        invariant paths == if i > 1 && file.paths.Some? then file.paths.value else old(paths)
        invariant run == if i > 2 && file.run.Some? then file.run.value else old(run)
      {
        var property := Serializable[i];
        if !Present(file, property) {
          return Err("Unable to read bundle file");
        }
        match property
        case "_sym" => sym := file.sym.value;
        case "_map" => paths := file.paths.value;
        case _ => run := file.run.value;
      }
      return Ok(());
    }

    /** `resolve`: the name first, then one hop through the path map. */
    function Resolve(s: string): (r: Option<string>)
      reads this
      ensures s in sym ==> r == Some(s)
      ensures s !in sym ==> (r.Some? <==> s in paths && paths[s] != "")
      ensures s !in sym && r.Some? ==> r.value == paths[s]
    {
      ResolveIn(View(), s)
    }

    /** `addSymbol`: insert or overwrite the symbol, map its path to it and,
        for the autorun flag, append it to the autorun list. */
    method AddSymbol(name: string, data: string, path: string, flag: Flag)
      modifies this
      ensures View() == Added(old(View()), name, data, path, flag)
    {
      sym := sym[name := Symbol(data, path, flag)];
      paths := paths[path := name];
      if flag == Autorun {
        run := run + [name];
      }
    }

    /** `removeSymbol`, as written. */
    method RemoveSymbol(name: string) returns (found: bool)
      modifies this
      ensures found <==> name in old(sym)
      ensures View() == Removed(old(View()), name)
    {
      if name !in sym {
        return false;
      }
      paths := paths - {sym[name].path};
      sym := sym - {name};
      run := KeepWhereIndexDiffers(run, name, 0);
      return true;
    }

    /** `removeSymbol` with the autorun filter comparing names. */
    method RemoveSymbolIntended(name: string) returns (found: bool)
      modifies this
      ensures found <==> name in old(sym)
      ensures View() == RemovedIntended(old(View()), name)
    {
      if name !in sym {
        return false;
      }
      paths := paths - {sym[name].path};
      sym := sym - {name};
      run := Without(run, name);
      return true;
    }
  }
}
