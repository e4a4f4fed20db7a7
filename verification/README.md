# nld, modelled in Dafny

nld packs JavaScript files into one self-contained artifact. It has four parts, each modelled here:

- **The bundle store.** It keeps three tables:
  - the symbol table `_sym`: name → data, path, flag;
  - the path map `_map`: path → name;
  - the autorun list `_run`.

  `addSymbol` and `removeSymbol` edit these tables in place, and `resolve` answers lookups.
- **The compiler.** It emits the artifact as an ordered list of text segments:
  - an optional wrapper;
  - the runtime loader `__nld` with its cache and its throwing resolver;
  - the serialised tables;
  - a failing load stub;
  - a branch that either exports the runtime to an importing module, or installs an adapter and runs the autoruns.
- **The adapters.** The `generic` adapter hands the runtime to a host hook. The `node` adapter installs a `__nld.load`. That load builds a module record linked to its parent and gives the code a scoped `require` with these rules:
  - relative requests are joined onto the symbol's directory, and a request that leaves the bundle is refused;
  - a name that fails falls back to the name with `.js` appended;
  - a cycle is found through the parent links;
  - the local and host strategies are tried in an order set by `weak`.

  The load then executes the shebang-stripped text.
- **The `nld` command.** It works as follows:
  - parses `name:path` arguments;
  - orders the inputs by kind;
  - computes the bundle root;
  - loads every input into a bundle: merging bundle files under a prefix, naming files, replacing colliding names, collecting texts in join mode;
  - chooses the adapter and the interpreter for the compiler.

The modules are:

- `Js`: values and truthiness.
- `Text`: `split`, `join`, shebang removal.
- `Paths`: Node's posix `path` functions on segment lists.
- `BundleStore`: the class `Bundle` plus pure functions on its tables.
- `Compiler`: the segment layout, plus an evaluation semantics of the segments.
- `Runtime`: the class `Runtime`. It holds the loader, the cache, the resolver and both adapters. Loader and node adapter call each other, so they share one class.
- `Cli`: the class `Packager` for `load_symbol`, plus the functions around it.

Some things are parameters of the model rather than parts of it:

- executing a symbol's text (the `program` oracle, which yields the requests and `module.exports` assignments the code performs);
- the host's `require`;
- reading files;
- loading bundle files through the module cache;
- compression;
- rendering a segment as text.

The model follows the code in four places where it departs from the evident design:

- `removeSymbol` keeps the autorun list.
- A merge writes the prefixed path back into the cached bundle file's symbol.
- The loader's cache test is truthiness.
- `resolve` takes a single hop through the path map.

## Model

| member | source | states |
|---|---|---|
| BundleStore.Bundle.constructor | lib/bundle.js:29-37 | A new bundle has an empty symbol table, an empty path map and an empty autorun list. |
| BundleStore.Bundle.Open | lib/bundle.js:39-57 | Opening succeeds iff all three tables are present. On failure the error is "Unable to read bundle file". The tables are adopted in the order `_sym`, `_map`, `_run`, so the tables before the first missing one are already replaced. |
| BundleStore.Bundle.Resolve | lib/bundle.js:77-87 | A defined name resolves to itself. Otherwise a path with a non-empty mapped name resolves to that name. Otherwise resolution fails. The mapped name is not checked again. |
| BundleStore.Added | lib/bundle.js:91-98 | After `addSymbol(n,d,p,f)`, `_sym[n]` is `{d,p,f}` and `_map[p]` is `n`. No other key of either table changes, so an entry for `n`'s old path survives. `n` is appended to `_run` iff `f` is the autorun flag, with no check for duplicates. |
| BundleStore.Bundle.AddSymbol | lib/bundle.js:91-98 | The bundle's new tables are `Added` of its old tables. |
| BundleStore.KeepWhereIndexDiffers | lib/bundle.js:109 | The `_run` filter, whose callback compares the element's index with the name, keeps every element. |
| BundleStore.Removed | lib/bundle.js:101-112 | For an absent name nothing changes. For a present name the symbol is deleted, and so is the path-map entry at its recorded path, whatever name that entry holds. The autorun list is unchanged. |
| BundleStore.Bundle.RemoveSymbol | lib/bundle.js:101-112 | The method returns true iff the name was defined, and the new tables are `Removed` of the old tables. |
| BundleStore.RemovedLeavesDanglingAutorun | lib/bundle.js:109 | Removing an autorun symbol leaves its name on the autorun list with no symbol behind it. |
| BundleStore.Without | lib/bundle.js:109 | The name-comparing filter drops every occurrence of the name and keeps the count of every other entry. A list without the name is unchanged. |
| BundleStore.WithoutAppend | lib/bundle.js:109 | The filter keeps the relative order of the entries it keeps: filtering a concatenation filters each part. |
| BundleStore.RemovedIntendedKeepsRunClosed | lib/bundle.js:101-112 | With the name-comparing filter, removal keeps every autorun entry pointing at a symbol, and the removed name leaves the list. |
| BundleStore.Bundle.RemoveSymbolIntended | lib/bundle.js:101-112 | The same as `RemoveSymbol`, but with the autorun filter comparing names. |
| BundleStore.AddedKeepsRunClosed | lib/bundle.js:91-98 | `addSymbol` keeps every autorun entry pointing at a symbol. |
| BundleStore.ResolveAfterAdd | lib/bundle.js:77-98 | After `addSymbol`, the name resolves to itself. Its path resolves to it too, unless the path is another symbol's name or the name is empty. |
| BundleStore.ResolveAfterRemove | lib/bundle.js:77-112 | On coherent tables, after `removeSymbol`, neither the name nor its path resolves to the removed name, and the tables stay coherent. |
| BundleStore.RemoveThenAddKeepsCoherent | lib/bundle.js:91-112 | The packager's collision handling (remove, then add) keeps coherent tables coherent. |
| BundleStore.StaleEntryOutlivesRemoval | lib/bundle.js:77-112 | Overwriting a symbol under a new path leaves its old path mapped. After the symbol is removed, the old path still resolves to the vanished name. |
| Runtime.ResolveOrThrow | lib/compile.js:69-81 | The emitted resolver succeeds exactly where the bundle's `resolve` does, with the same name. Otherwise it throws "undefined symbol" for the requested identifier. |
| Runtime.PathAndNameShareSlot | lib/compile.js:48-62 | A path and the name it maps to resolve to the same name, so they share one cache slot. |
| Runtime.ResolveTwiceCoherent | lib/compile.js:69-81 | On coherent tables, resolving twice gives the same name as resolving once. |
| Runtime.ResolveTwiceStale | lib/compile.js:69-81 | With a stale path-map entry, a second resolution takes another hop to a different name. |
| Runtime.Runtime.constructor | lib/compile.js:66-89 | The artifact starts with the tables in place, an empty cache and the failing load stub. |
| Runtime.Runtime.Obtain | lib/compile.js:46-63 | `__nld` resolves first, and a failed resolution throws. A missing entry throws. A static request or a static or binary symbol returns its data, and the state does not change. A truthy cached value is returned, and the state does not change. Otherwise the outcome is that of a cache miss on the resolved name with the given parent. |
| Runtime.Runtime.Fetch | lib/compile.js:62 | On a cache miss, the name is appended to the load log, and `load` gives the outcome. A returned value is cached. Truthy cache entries never change. The stub and a hook's `load` change nothing else. The node `load` adds a record under the parent, and runs the symbol's shebang-stripped code as that record, one stack level deeper. Its value is the record's last assigned exports, unless the code threw. |
| Runtime.Runtime.InstallGeneric | lib/adapters.js:25-30 | The generic adapter throws "requires a __nld_adapter function" iff the hook is not a function, and then leaves `load` unchanged. Otherwise the hook is called once. It may install its own `load`, and an exception it throws is the adapter's outcome. |
| Runtime.Runtime.InstallNode | lib/adapters.js:33-37 | The node adapter installs its `load`. |
| Runtime.Runtime.Load | lib/adapters.js:37-123 | The stub `load` throws "invalid adapter, load unavailable". A hook's `load` gives the hook's outcome. Both change nothing else. The node `load` without stack to spare overflows. Otherwise it creates a record with the symbol as id and the given parent, and lists it among its parent's children. It then runs the shebang-stripped text as that record's code, and returns the record's final exports unless the code threw. |
| Runtime.Runtime.LoadNode | lib/adapters.js:37-122 | The node `load` starts from the state with the new record attached. The record's code runs step by step from there, and the final exports are the value of the last completed assignment, or the fresh exports object when there was none. |
| Runtime.Runtime.Attach | lib/adapters.js:40-53 | The new record has the symbol as id, a fresh exports object, the given parent and no children. It is appended to the parent's children, and the arena stays well linked. |
| Runtime.AttachKeepsLinks | lib/adapters.js:40-53 | Attaching a record keeps parent and child links in agreement and only grows the arena. |
| Runtime.SetExportsKeepsLinks | lib/adapters.js:61-64 | Assigning `module.exports` changes that record's exports only, and keeps the links. |
| Runtime.Runtime.Exec | lib/adapters.js:119-122 | The steps of the executed code run in order, each from the state the previous one left. The first exception stops the run and is its outcome. A run without an exception covers every step. Existing records keep their ids, parents and children, and only the running record's exports may change. Its final exports are the last assigned value. |
| Runtime.Runtime.RunStep | lib/adapters.js:108-122 | A `require` step has the outcome of `sandbox.require`. An assignment of a value sets the record's exports to it. A `throw` changes nothing and throws. |
| Runtime.Runtime.ExportRequire | lib/adapters.js:108-120 | `module.exports = require(...)` has the outcome of `sandbox.require`. A returned value becomes the record's exports, and a thrown one leaves them as they were. |
| Runtime.Runtime.StepsExtend | lib/adapters.js:119-122 | A run of steps extended by one more step is still a run of steps. |
| Runtime.Runtime.ExecutedNothing | lib/adapters.js:119-122 | Code without steps returns and changes nothing. |
| Runtime.Runtime.ExecutedThrowFirst | lib/adapters.js:119-122 | Code whose first step throws stops there, with that exception as its outcome, and changes nothing. |
| Runtime.Runtime.RequiredLocalFirst | lib/adapters.js:108-117 | Without `weak`, a request the local lookup refuses or cannot resolve is answered by the host's `require`, and the state does not change. |
| Runtime.Runtime.LocalStaticTarget | lib/adapters.js:99-104 | A local request for a static symbol outside any cycle gives the symbol's text and changes nothing. |
| Runtime.Chain | lib/adapters.js:89-97 | The ancestors of a record start with the record itself and are never above it in the arena, so the walk terminates. |
| Runtime.CycleRoot | lib/adapters.js:89-97 | `find_cycle_root` finds a record on the chain whose id is the target, and no record nearer the start has that id. When it finds none, no record on the chain has the target id. |
| Runtime.LocalTarget | lib/adapters.js:69-86 | A relative request is joined onto the symbol's directory. The request is refused iff it is relative and the joined result starts with "..". Otherwise the name as given is resolved when it resolves. Failing that, the name with ".js" appended is resolved, and if that fails too the error is "undefined symbol" for the ".js" name. A relative request that succeeds has no ".." segment. |
| Runtime.Runtime.LocalRequire | lib/adapters.js:69-105 | A failed lookup throws and changes nothing. A target on the requiring record's chain returns that record's current, possibly partial, exports and changes nothing. Any other target is `__nld(target)` with the requiring record as parent, with the outcome and state change stated for `Obtain`. |
| Runtime.Runtime.Require | lib/adapters.js:108-117 | Without `weak` the local strategy comes first, and with `weak` the host comes first. The first strategy's value is returned. When it throws, its exception is discarded, and the second strategy runs from the state the first one left. The second strategy's outcome is returned. |
| Runtime.Runtime.RunAutoruns | lib/compile.js:103-107 | Pass `i` is `__nld(run[i])` without a parent, from the state the previous pass left. Every pass but the last returned. A thrown outcome is the last pass's, and the entries after it are not run. A run that returns has passed every entry. The roots grow by the entries run. |
| Runtime.Runtime.AutorunsExtend | lib/compile.js:103-107 | A run of autorun passes extended by one more pass is still a run of autorun passes. |
| Text.StripShebangSpec | lib/adapters.js:120 | Text not starting with `#!` is unchanged. Otherwise exactly the first line, up to the line terminator, is removed. Stripping twice is the same as stripping once. |
| Compiler.Layout | lib/compile.js:33-118 | The layout fails with "nld compiler: invalid adapter" iff the adapter is not a function. |
| Compiler.Compile | lib/compile.js:33-132 | Pushing the segments one by one gives the layout. The output is the shebang line, when an interpreter is set, in front of the compressed joined text. An invalid adapter gives the compiler's error. |
| Compiler.LayoutWrapper | lib/compile.js:37-43 | Unwrapped artifacts have no wrapper. Otherwise the opener takes the passive value as parameter iff that value is truthy and not `true`, and the closer calls the function iff the artifact is not passive. |
| Compiler.LayoutDefinitionsFirst | lib/compile.js:46-108 | Every definition, table and stub segment comes before the import guard, the adapter call and the autorun pass. |
| Compiler.LayoutTables | lib/compile.js:84-86 | After the artifact is evaluated, the runtime's tables equal the bundle's tables. |
| Compiler.LayoutBehaviour | lib/compile.js:92-118 | When imported by another module, the artifact only exports the runtime. As the main module, it runs the adapter, then runs the autorun list in order iff that list is non-empty. A passive wrapper does neither. |
| Cli.ParseWithFlag | lib/cli.js:42-51 | Without ':' the whole argument is the path and there is no name. Otherwise the name is the text before the first ':', the path is the second field, and later fields are dropped. |
| Cli.Parsed | lib/cli.js:53-59 | Each option's texts are parsed one by one, in order, with that option's flag. |
| Cli.Inputs | lib/cli.js:61-67 | Outside join mode the inputs are the parsed merges, then the binaries, statics and plain files, then the autoruns, one per text. In join mode they are exactly the parsed plain files. |
| Cli.InputsOrder | lib/cli.js:53-67 | Outside join mode the inputs are ordered by kind (merges, binaries, statics, plain files, autoruns), and there is one per text of the five options. In join mode there is one per plain text, each flagged plain. |
| Cli.CommonPrefixLength | lib/cli.js:82-84 | The character loop stops at the first position where the two paths differ, or at the end of either. |
| Cli.BundleRoot | lib/cli.js:77-85 | The root of several inputs is a prefix of every path, and every common prefix is a prefix of it. |
| Cli.SiblingCharacterRoot | lib/cli.js:77-85 | For /p/aa.js and /p/ab.js the root is "/p/a", which is not a directory. |
| Cli.CharacterRootLeavesBundle | lib/cli.js:140 | When the root stops inside a file name, each file is placed at "../name". Every "./" request from it is then refused as leaving the bundle. |
| Cli.DirectoryRoot | lib/cli.js:77-85 | The corrected root is an ancestor directory of every input, and the deepest such directory. |
| Cli.SiblingDirectoryRoot | lib/cli.js:77-85 | The corrected root of /p/aa.js and /p/ab.js is "/p". |
| Cli.DirectoryRootKeepsSiblings | lib/cli.js:140 | Under the corrected root, a file /d/x is placed at "x", and a request "./y" from it finds the symbol "y.js". |
| Cli.MergePrefix | lib/cli.js:106-116 | An explicit name is the prefix verbatim. Otherwise the prefix is the root-relative directory of the bundle file followed by '/', or "" when that directory is the root. With no root the prefix cannot be computed. |
| Cli.MergeStep | lib/cli.js:102-119 | Adding one more merged symbol, under its prefixed name and path, keeps the merge invariant. |
| Cli.AutorunsStep | lib/cli.js:118 | One more merged symbol adds one to the count of merged autoruns exactly when it is an autorun. |
| Cli.Packager.OpenMerged | lib/cli.js:100-113 | A bundle file absent from the module cache fails. A file missing a table fails with "Unable to read bundle file". The prefix needs a root only when the file has a symbol and the input has no name. |
| Cli.Packager.MergeAll | lib/cli.js:102-119 | Every merged symbol is added under its prefixed name with its prefixed path, and no other symbol changes. The prefixed paths map to merged names. No other path-map entry changes, and no other path appears. The autorun list gains one entry per merged autorun and nothing else. Each cached symbol gets its prefixed path written back. |
| Cli.Packager.Merge | lib/cli.js:100-121 | A merge either fails and changes nothing, or does all of `MergeAll`. It leaves the claimed names, the join texts and the warnings alone. |
| Cli.FileData | lib/cli.js:123-133 | With `c`, plain and autorun texts lose their shebang line and, outside join mode, are compressed. Every other text is stored as read. |
| Cli.SymbolName | lib/cli.js:140-143 | A non-empty given name is kept. Otherwise the name is the root-relative path, or its last segment with `f`. |
| Cli.Packager.Store | lib/cli.js:145-152 | A name already claimed by a file input is removed first, with a "symbol collision" warning unless `q`, and the new symbol wins. A first-time name is claimed. |
| Cli.Packager.LoadSymbol | lib/cli.js:98-153 | A bundle-file input is merged. A failed merge changes nothing: a missing file is not found, a missing table is "Unable to read bundle file", and a missing root fails. A successful merge adds every merged symbol and writes the merged files back. Any other input is loaded as a file and never changes the files. An unreadable file is not found. A join collects the text. A missing root fails. Otherwise the file is stored under its name, replacing a claimed name with a collision warning unless `q`. |
| Cli.Packager.LoadFile | lib/cli.js:123-153 | An unreadable file fails. In join mode the text is collected. Without a root the input fails. Otherwise the file is stored under its name, at its root-relative path, with its flag. |
| Cli.Packager.FinishJoin | lib/cli.js:158-166 | The collected texts, joined by ";\n" and compressed under `c`, become one symbol whose name and path are the join value. The symbol is an autorun iff `x` is set. |
| Cli.SelectAdapter | lib/cli.js:247-261 | No adapter selects `node`, and a bare flag or "generic" selects `generic`. "node" selects `node`. Any other value must load as a function, and loading something that is not a function gives "invalid adapter". |
| Cli.Interpreter | lib/cli.js:266-268 | There is no interpreter unless `i` is set. A string `i` is the interpreter itself, and anything else gives "/usr/bin/env node". |
| Cli.DoCompile | lib/cli.js:245-271 | An adapter error is returned as is. Otherwise the compiler's adapter check passes, and the output is the compiled layout for the selected adapter and options. |
| Cli.ChooseRoot | lib/cli.js:73-86 | One input gives its directory. Several inputs outside join mode give the longest character-wise common prefix of their paths. Several inputs in join mode give no root. |
| Cli.Create | lib/cli.js:61-168 | Without inputs, `create` fails with "no input file". Any output comes from a valid adapter selection. |

## Left out

- Reading files, loading a bundle file through `require`, writing the output, console output and the `dump` listing are left out. Reads and bundle-file loads are parameters (`read`, `files`); the rest is not modelled.
- Executing a symbol's text is the `program` oracle. It is a list of requests, `module.exports` assignments and throws. Property writes on the `exports` object, the copied globals of the sandbox, `__filename`, `__dirname` and `sandbox.root` are not modelled.
- A module record's `filename`, `paths`, `loaded` and `exited` fields, and the bundle's `load` property set by `open`, are not modelled.
- Compression is an opaque function from text to text. The JavaScript text of each segment, including the `%j` rendering of the tables, is an opaque `render` function.
- Node's `path` functions are modelled on posix segment lists for paths without trailing slashes. Windows paths are out of scope.
- Objects are plain maps, so keys inherited from `Object.prototype` (a symbol named `constructor`, say) behave like absent keys. Numbers are integers.
- The JavaScript call stack is a `fuel` bound on the loader recursion. Running out of it is reported as `StackExhausted`, which stands for the host's stack overflow.
- In the node adapter, a parent always has a `children` list, so the model always appends the new record to it.
- Runtime.Runtime.Exec: the `program` oracle's steps do not depend on what earlier requests returned.
- Runtime.Runtime.InstallGeneric: the hook's effect is an oracle (`hookEffect`). It may install a `load` and may throw. It cannot call `__nld`, read or change the cache, or create records while it runs.
- Runtime.Runtime.Load: a `load` installed by a hook is a pure oracle (`hookLoad`). Its outcome depends only on the hook and the name, and it cannot call back into `__nld` or change the cache or the records.
- Runtime.Runtime.Fetch: the cache is the array `[]` in the emitted code. Assigning a symbol named "length" to it sets the array's length, and throws a RangeError for a value that is not a valid length. The model's cache is a map, and that assignment never throws.
- Cli.CommonPrefixLength: `charAt` compares UTF-16 code units, and the model compares Unicode characters. Two paths whose first difference lies in the low half of a surrogate pair share its high half in the code, so the code's root ends in a lone high surrogate where the model's stops one character earlier.
- Cli.Create: it only states the no-input error and adapter validity. Its root is specified by `ChooseRoot` and its loading steps by `LoadSymbol`.
- Cli.Create: it uses the character-wise root as written. `path.relative` with an undefined root (join mode coerced off) is the error `NoRoot`.
- Cli.Packager.MergeAll: the order in which symbols of the merged bundle are added is left open, and the contract holds for every order.
- Cli.Packager.Merge: an input name set by a merge (`symbol.name = prefix`) is not written back into the argument list, because nothing reads it afterwards.
- The `dump`, `convert` and `exec` commands are not modelled, nor are the output writing and printing of `do_compile`.

## Findings

| source | as written | input that shows it | evidently intended | confidence | as-written member | corrected member |
|---|---|---|---|---|---|---|
| lib/bundle.js:109 | The `_run` filter compares each element's index (a number) with the name (a string), so nothing is ever removed. | `addSymbol("main.js", "", "main.js", "x")` then `removeSymbol("main.js")`: `_run` still holds "main.js" while `_sym` does not. | Drop the removed name from the autorun list. | high (not executed) | BundleStore.RemovedLeavesDanglingAutorun | BundleStore.RemovedIntendedKeepsRunClosed |
| lib/cli.js:77-85 | The bundle root is the common prefix of the input paths character by character, so it can stop inside a file name. | `/p/aa.js` and `/p/ab.js` give the root "/p/a". The files are named "../aa.js" and "../ab.js". Every "./" request between them is refused as leaving the bundle, so it falls to the host's `require` instead. | The root should be the deepest common directory, "/p". | medium (not executed) | Cli.CharacterRootLeavesBundle | Cli.DirectoryRootKeepsSiblings |

`Bundle.RemoveSymbol` and `Cli.Create` keep the code's behaviour. `Bundle.RemoveSymbolIntended` and `Cli.DirectoryRoot` are the corrected definitions, with the properties above proved about them.
