/**
 * Loading box modules: a memoised depth-first walk over imports with a stack of the modules being
 * loaded and a cache that every checker of a run shares. The cache holds what the imports alone
 * determine, whatever was loaded first and however checkers interleave.
 */
module BoxModules {

  import opened Wrappers

  /**
   * The module files of a run. An import names candidate files in order; `modules` gives the
   * imports of each loadable one, `opaque` holds the files that exist but cannot be used, and any
   * other candidate is absent. `inventory` is a module's inventory given those of its imports.
   */
  datatype Program<!Inv> = Program(
    modules: map<string, seq<seq<string>>>,
    unusable: set<string>,
    inventory: (string, seq<Option<Inv>>) -> Inv)

  /** The module an import selects: the first candidate that is not absent, if it is loadable. */
  function Resolve<Inv>(p: Program<Inv>, candidates: seq<string>): (r: Option<string>)
    ensures r.Some? ==> r.value in p.modules
  {
    if candidates == [] then None
    else if candidates[0] in p.modules then Some(candidates[0])
    else if candidates[0] in p.unusable then None
    else Resolve(p, candidates[1..])
  }

  // ---------------------------------------------------------------------------------------------
  // Import cycles
  // ---------------------------------------------------------------------------------------------

  ghost predicate Imports<Inv(!new)>(p: Program<Inv>, m: string, n: string) {
    m in p.modules && exists i :: 0 <= i < |p.modules[m]| && Resolve(p, p.modules[m][i]) == Some(n)
  }

  ghost predicate Path<Inv(!new)>(p: Program<Inv>, path: seq<string>) {
    && |path| > 0 && path[|path| - 1] in p.modules
    && forall i {:trigger Hop(p, path, i)} :: 0 <= i < |path| - 1 ==> Hop(p, path, i)
  }

  ghost predicate Hop<Inv(!new)>(p: Program<Inv>, path: seq<string>, i: nat)
    requires i + 1 < |path|
  {
    Imports(p, path[i], path[i + 1])
  }

  ghost predicate PathBetween<Inv(!new)>(p: Program<Inv>, path: seq<string>, m: string, n: string) {
    Path(p, path) && path[0] == m && path[|path| - 1] == n
  }

  ghost predicate Reaches<Inv(!new)>(p: Program<Inv>, m: string, n: string) {
    exists path :: PathBetween(p, path, m, n)
  }

  /** `n` imports itself, directly or through other modules. */
  ghost predicate OnCycle<Inv(!new)>(p: Program<Inv>, n: string) {
    exists path :: PathBetween(p, path, n, n) && |path| > 1
  }

  ghost predicate ReachesCycle<Inv(!new)>(p: Program<Inv>, m: string) {
    exists n :: Reaches(p, m, n) && OnCycle(p, n)
  }

  lemma ReachesSelf<Inv(!new)>(p: Program<Inv>, m: string)
    requires m in p.modules
    ensures Reaches(p, m, m)
  {
    assert PathBetween(p, [m], m, m);
  }

  lemma Extend<Inv(!new)>(p: Program<Inv>, m: string, n: string, path: seq<string>)
    requires Imports(p, m, n) && Path(p, path) && path[0] == n
    ensures PathBetween(p, [m] + path, m, path[|path| - 1])
  {
    var more := [m] + path;
    forall i | 0 <= i < |more| - 1 ensures Hop(p, more, i) {
      if i > 0 { assert Hop(p, path, i - 1); }
    }
  }

  lemma Concat<Inv(!new)>(p: Program<Inv>, a: seq<string>, b: seq<string>)
    requires Path(p, a) && Path(p, b) && a[|a| - 1] == b[0]
    ensures PathBetween(p, a + b[1..], a[0], b[|b| - 1])
  {
    var c := a + b[1..];
    forall i | 0 <= i < |c| - 1 ensures Hop(p, c, i) {
      if i < |a| - 1 { assert Hop(p, a, i); } else { assert Hop(p, b, i - (|a| - 1)); }
    }
  }

  lemma Tail<Inv(!new)>(p: Program<Inv>, path: seq<string>)
    requires Path(p, path) && |path| > 1
    ensures Imports(p, path[0], path[1]) && PathBetween(p, path[1..], path[1], path[|path| - 1])
  {
    assert Hop(p, path, 0);
    forall i | 0 <= i < |path[1..]| - 1 ensures Hop(p, path[1..], i) {
      assert Hop(p, path, i + 1);
    }
  }

  /** A module reaches a cycle exactly when something it imports does. */
  lemma ReachesCycleByImport<Inv(!new)>(p: Program<Inv>, m: string)
    ensures ReachesCycle(p, m) <==> exists n :: Imports(p, m, n) && ReachesCycle(p, n)
  {
    if n :| Imports(p, m, n) && ReachesCycle(p, n) {
      var c :| Reaches(p, n, c) && OnCycle(p, c);
      var path :| PathBetween(p, path, n, c);
      Extend(p, m, n, path);
      assert Reaches(p, m, c);
    }
    if ReachesCycle(p, m) {
      var c :| Reaches(p, m, c) && OnCycle(p, c);
      var path :| PathBetween(p, path, m, c);
      var loop :| PathBetween(p, loop, c, c) && |loop| > 1;
      // Going round once more, the walk leaves `m` by some import.
      Concat(p, path, loop);
      var long := path + loop[1..];
      Tail(p, long);
      assert Reaches(p, long[1], c);
      assert Imports(p, m, long[1]) && ReachesCycle(p, long[1]);
    }
  }

  ghost function Reachable<Inv(!new)>(p: Program<Inv>, m: string): set<string> {
    set n | n in p.modules && Reaches(p, m, n)
  }

  lemma ImportCloses<Inv(!new)>(p: Program<Inv>, m: string, n: string)
    requires Imports(p, m, n) && Reaches(p, n, m)
    ensures ReachesCycle(p, m)
  {
    var path :| PathBetween(p, path, n, m);
    Extend(p, m, n, path);
    assert PathBetween(p, [m] + path, m, m);
    assert OnCycle(p, m);
    assert Reaches(p, m, m);
  }

  lemma ReachableShrinks<Inv(!new)>(p: Program<Inv>, m: string, n: string)
    requires Imports(p, m, n) && !ReachesCycle(p, m)
    ensures |Reachable(p, n)| < |Reachable(p, m)|
  {
    ReachesSelf(p, m);
    forall k | k in Reachable(p, n) ensures k in Reachable(p, m) {
      var path :| PathBetween(p, path, n, k);
      Extend(p, m, n, path);
    }
    if Reaches(p, n, m) {
      ImportCloses(p, m, n);
    }
    assert Reachable(p, n) <= Reachable(p, m) - {m};
    Smaller(Reachable(p, n), Reachable(p, m), m);
  }

  lemma Smaller(s: set<string>, t: set<string>, x: string)
    requires s <= t - {x} && x in t
    ensures |s| < |t|
  {
    assert t == (t - {x}) + {x};
    SubsetSize(s, t - {x});
  }

  lemma SubsetSize(s: set<string>, t: set<string>)
    requires s <= t
    ensures |s| <= |t|
  {
    assert t == s + (t - s);
  }

  // ---------------------------------------------------------------------------------------------
  // What the imports determine
  // ---------------------------------------------------------------------------------------------

  /** A module's entry: none when it reaches an import cycle, else its inventory from those of its imports. */
  ghost function Entry<Inv(!new)>(p: Program<Inv>, m: string): Option<Inv>
    requires m in p.modules
    decreases |Reachable(p, m)|, 1
  {
    if ReachesCycle(p, m) then None
    else Some(p.inventory(m, Entries(p, m, |p.modules[m]|)))
  }

  /** The results of a module's first `k` imports. */
  ghost function Entries<Inv(!new)>(p: Program<Inv>, m: string, k: nat): (r: seq<Option<Inv>>)
    requires m in p.modules && k <= |p.modules[m]| && !ReachesCycle(p, m)
    ensures |r| == k
    decreases |Reachable(p, m)|, 0, k
  {
    if k == 0 then [] else
      var target := Resolve(p, p.modules[m][k - 1]);
      Entries(p, m, k - 1) +
      [if target.None? then None
       else
         assert Imports(p, m, target.value);
         ReachableShrinks(p, m, target.value);
         Entry(p, target.value)]
  }

  ghost function ImportEntry<Inv(!new)>(p: Program<Inv>, candidates: seq<string>): Option<Inv> {
    var target := Resolve(p, candidates);
    if target.None? then None else Entry(p, target.value)
  }

  /** The import closes or reaches a cycle. */
  ghost predicate ImportCycles<Inv(!new)>(p: Program<Inv>, candidates: seq<string>) {
    Resolve(p, candidates).Some? && ReachesCycle(p, Resolve(p, candidates).value)
  }

  lemma {:induction false} EntriesAre<Inv(!new)>(p: Program<Inv>, m: string, k: nat)
    requires m in p.modules && k <= |p.modules[m]| && !ReachesCycle(p, m)
    ensures forall i :: 0 <= i < k ==> Entries(p, m, k)[i] == ImportEntry(p, p.modules[m][i])
  {
    if k > 0 { EntriesAre(p, m, k - 1); }
  }

  /** Each module being loaded imports the next. */
  ghost predicate Chain<Inv(!new)>(p: Program<Inv>, loading: seq<string>) {
    && (forall m :: m in loading ==> m in p.modules)
    && (forall i :: 0 <= i < |loading| - 1 ==> Imports(p, loading[i], loading[i + 1]))
  }

  /** A module that is still loading when something it led to imports it is on a cycle. */
  lemma LoadingIsCycle<Inv(!new)>(p: Program<Inv>, loading: seq<string>, n: string)
    requires Chain(p, loading) && |loading| > 0 && n in loading && Imports(p, loading[|loading| - 1], n)
    ensures ReachesCycle(p, n)
  {
    var k :| 0 <= k < |loading| && loading[k] == n;
    var path := loading[k..] + [n];
    forall i | 0 <= i < |path| - 1 ensures Hop(p, path, i) {
      if i < |loading| - 1 - k { assert Imports(p, loading[k + i], loading[k + i + 1]); }
    }
    assert PathBetween(p, path, n, n);
    ReachesSelf(p, n);
    assert OnCycle(p, n);
  }

  ghost predicate CacheOk<Inv(!new)>(p: Program<Inv>, cache: map<string, Option<Inv>>) {
    forall m {:trigger m in cache} :: m in cache ==> m in p.modules && cache[m] == Entry(p, m)
  }

  lemma EntryIsNone<Inv(!new)>(p: Program<Inv>, m: string)
    requires m in p.modules
    ensures Entry(p, m).None? <==> ReachesCycle(p, m)
  {
  }

  /** What a finished analysis of `m` found is what its imports determine. */
  lemma AnalysisDetermined<Inv(!new)>(p: Program<Inv>, m: string, results: seq<Option<Inv>>, cycle: bool)
    requires m in p.modules && |results| == |p.modules[m]|
    requires forall i :: 0 <= i < |results| ==> results[i] == ImportEntry(p, p.modules[m][i])
    requires cycle <==> exists i :: 0 <= i < |results| && ImportCycles(p, p.modules[m][i])
    ensures cycle <==> ReachesCycle(p, m)
    ensures (if cycle then None else Some(p.inventory(m, results))) == Entry(p, m)
  {
    ReachesCycleByImport(p, m);
    if cycle {
      var i :| 0 <= i < |results| && ImportCycles(p, p.modules[m][i]);
      assert Imports(p, m, Resolve(p, p.modules[m][i]).value);
    }
    if !ReachesCycle(p, m) {
      EntriesAre(p, m, |results|);
      assert results == Entries(p, m, |results|);
    }
  }

  // ---------------------------------------------------------------------------------------------
  // One checker
  // ---------------------------------------------------------------------------------------------

  /** Module state shared by every checker of a run. */
  class SharedModules<Inv(!new)> {
    const program: Program<Inv>
    var inventories: map<string, Option<Inv>>

    constructor (program: Program<Inv>)
      ensures this.program == program && Sound()
    {
      this.program, inventories := program, map[];
    }

    ghost predicate Sound()
      reads this
    {
      CacheOk(program, inventories)
    }
  }

  class Checker<Inv(!new)> {
    const shared: SharedModules<Inv>
    const boxLoading: seq<string>
    var boxCycle: bool

    constructor (shared: SharedModules<Inv>, loading: seq<string>)
      ensures this.shared == shared && boxLoading == loading && !boxCycle
    {
      this.shared, boxLoading, boxCycle := shared, loading, false;
    }

    /** The import comes from the module loaded last, or from a file that is not a module. */
    ghost predicate CanImport(candidates: seq<string>) {
      && Chain(shared.program, boxLoading)
      && (|boxLoading| > 0 ==> candidates in shared.program.modules[boxLoading[|boxLoading| - 1]])
    }

    /** The inventory of the module an import selects; notes whether it reaches an import cycle. */
    method BoxModuleInventory(candidates: seq<string>) returns (entry: Option<Inv>)
      requires shared.Sound() && CanImport(candidates)
      modifies this`boxCycle, shared
      ensures shared.Sound() && old(shared.inventories).Keys <= shared.inventories.Keys
      ensures entry == ImportEntry(shared.program, candidates)
      ensures boxCycle <==> old(boxCycle) || ImportCycles(shared.program, candidates)
      decreases shared.program.modules.Keys - Elements(boxLoading), 1
    {
      ghost var p := shared.program;
      for i := 0 to |candidates|
        invariant Resolve(p, candidates) == Resolve(p, candidates[i..]) && boxCycle == old(boxCycle)
        invariant shared.inventories == old(shared.inventories)
      {
        var candidate := candidates[i];
        if candidate in boxLoading {
          LoadingTarget(p, boxLoading, candidates, candidate);
          boxCycle := true;
          return None;
        }
        if candidate in shared.inventories {
          EntryIsNone(p, candidate);
          boxCycle := boxCycle || shared.inventories[candidate].None?;
          return shared.inventories[candidate];
        }
        if candidate in shared.program.modules {
          var inventory, cycle := AnalyzeBoxModule(candidate, candidates);
          entry := if cycle then None else Some(inventory);
          boxCycle := boxCycle || cycle;
          shared.inventories := shared.inventories[candidate := entry];
          return;
        }
        if candidate in shared.program.unusable {
          return None;
        }
      }
      return None;
    }

    /** A module's inventory, and whether its analysis met an import cycle. */
    method AnalyzeBoxModule(m: string, ghost candidates: seq<string>) returns (inventory: Inv, cycle: bool)
      requires shared.Sound() && CanImport(candidates) && Resolve(shared.program, candidates) == Some(m)
      requires m !in boxLoading
      modifies shared
      ensures shared.Sound() && old(shared.inventories).Keys <= shared.inventories.Keys
      ensures cycle <==> ReachesCycle(shared.program, m)
      ensures (if cycle then None else Some(inventory)) == Entry(shared.program, m)
      decreases shared.program.modules.Keys - Elements(boxLoading), 0
    {
      var p := shared.program;
      ChainGrows(p, boxLoading, candidates, m);
      var nested := new Checker(shared, boxLoading + [m]);
      var results: seq<Option<Inv>> := [];
      LoadingShrinks(p, boxLoading, m);
      for i := 0 to |p.modules[m]|
        invariant shared.Sound() && |results| == i && old(shared.inventories).Keys <= shared.inventories.Keys
        invariant forall k :: 0 <= k < i ==> results[k] == ImportEntry(p, p.modules[m][k])
        invariant nested.boxCycle <==> exists k :: 0 <= k < i && ImportCycles(p, p.modules[m][k])
      {
        var result := nested.BoxModuleInventory(p.modules[m][i]);
        results := results + [result];
      }
      AnalysisDetermined(p, m, results, nested.boxCycle);
      return p.inventory(m, results), nested.boxCycle;
    }
  }

  lemma LoadingTarget<Inv(!new)>(p: Program<Inv>, loading: seq<string>, candidates: seq<string>, m: string)
    requires Chain(p, loading) && m in loading && |loading| > 0 && candidates in p.modules[loading[|loading| - 1]]
    requires exists i ::
      0 <= i < |candidates| && candidates[i] == m && Resolve(p, candidates) == Resolve(p, candidates[i..])
    ensures Resolve(p, candidates) == Some(m) && ReachesCycle(p, m)
  {
    var last := loading[|loading| - 1];
    assert last in loading;
    var k :| 0 <= k < |p.modules[last]| && p.modules[last][k] == candidates;
    assert Imports(p, last, m);
    LoadingIsCycle(p, loading, m);
  }

  lemma ChainGrows<Inv(!new)>(p: Program<Inv>, loading: seq<string>, candidates: seq<string>, m: string)
    requires Chain(p, loading) && Resolve(p, candidates) == Some(m)
    requires |loading| > 0 ==> candidates in p.modules[loading[|loading| - 1]]
    ensures Chain(p, loading + [m])
  {
    if |loading| > 0 {
      var last := loading[|loading| - 1];
      assert last in loading;
      var k :| 0 <= k < |p.modules[last]| && p.modules[last][k] == candidates;
      assert Imports(p, last, m);
    }
  }

  lemma LoadingShrinks<Inv(!new)>(p: Program<Inv>, loading: seq<string>, m: string)
    requires m in p.modules && m !in loading
    ensures p.modules.Keys - Elements(loading + [m]) < p.modules.Keys - Elements(loading)
  {
    assert m in loading + [m];
    assert forall n :: n in loading ==> n in loading + [m];
    assert m in p.modules.Keys - Elements(loading);
  }

  // ---------------------------------------------------------------------------------------------
  // Checkers that share the cache, in any interleaving
  // ---------------------------------------------------------------------------------------------

  /** A file being walked: a module, or the checker's own file. Each result is that of an import already reached. */
  datatype Frame<Inv> = Frame(owner: Option<string>, imports: seq<seq<string>>, results: seq<Option<Inv>>, cycle: bool)

  /** The shared cache, and each checker's stack of nested walks. The lock covers one step, not an analysis. */
  datatype State<Inv> = State(cache: map<string, Option<Inv>>, checkers: seq<seq<Frame<Inv>>>)

  function Noted<Inv>(f: Frame<Inv>, result: Option<Inv>, cycle: bool): Frame<Inv> {
    f.(results := f.results + [result], cycle := f.cycle || cycle)
  }

  predicate IsLoading<Inv>(frames: seq<Frame<Inv>>, m: string) {
    exists k :: 0 <= k < |frames| && frames[k].owner == Some(m)
  }

  /** One step of a checker whose innermost walk reached its next import. */
  function Import<Inv>(p: Program<Inv>, cache: map<string, Option<Inv>>, frames: seq<Frame<Inv>>): seq<Frame<Inv>>
    requires |frames| > 0 && |frames[|frames| - 1].results| < |frames[|frames| - 1].imports|
  {
    var rest, top := frames[..|frames| - 1], frames[|frames| - 1];
    match Resolve(p, top.imports[|top.results|])
    case None => rest + [Noted(top, None, false)]
    case Some(m) =>
      if IsLoading(frames, m) then rest + [Noted(top, None, true)]
      else if m in cache then rest + [Noted(top, cache[m], cache[m].None?)]
      else frames + [Frame(Some(m), p.modules[m], [], false)]
  }

  /** What a finished module walk stores. */
  function Finished<Inv>(p: Program<Inv>, f: Frame<Inv>): Option<Inv>
    requires f.owner.Some?
  {
    if f.cycle then None else Some(p.inventory(f.owner.value, f.results))
  }

  /** The next step of checker `t`; a checker that has finished its own file does nothing. */
  function Step<Inv>(p: Program<Inv>, s: State<Inv>, t: nat): State<Inv>
    requires t < |s.checkers|
  {
    var frames := s.checkers[t];
    if frames == [] then s
    else
      var top := frames[|frames| - 1];
      if |top.results| < |top.imports| then s.(checkers := s.checkers[t := Import(p, s.cache, frames)])
      else if top.owner.Some? && |frames| > 1 then
        var entry, parent := Finished(p, top), frames[|frames| - 2];
        State(s.cache[top.owner.value := entry],
              s.checkers[t := frames[..|frames| - 2] + [Noted(parent, entry, top.cycle)]])
      else s.(checkers := s.checkers[t := []])
  }

  /** A walk's results and cycle flag are what the imports passed so far determine. */
  ghost predicate FrameOk<Inv(!new)>(p: Program<Inv>, f: Frame<Inv>) {
    && |f.results| <= |f.imports|
    && (forall i {:trigger f.results[i]} :: 0 <= i < |f.results| ==> f.results[i] == ImportEntry(p, f.imports[i]))
    && (f.cycle <==> exists i :: 0 <= i < |f.results| && ImportCycles(p, f.imports[i]))
  }

  /** Below the checker's own file, each walk is of the module that the walk around it is importing. */
  ghost predicate Nested<Inv(!new)>(p: Program<Inv>, frames: seq<Frame<Inv>>, k: nat)
    requires 0 < k < |frames|
  {
    var outer, inner := frames[k - 1], frames[k];
    && inner.owner.Some? && inner.owner.value in p.modules && inner.imports == p.modules[inner.owner.value]
    && |outer.results| < |outer.imports| && Resolve(p, outer.imports[|outer.results|]) == inner.owner
  }

  ghost predicate StackOk<Inv(!new)>(p: Program<Inv>, frames: seq<Frame<Inv>>) {
    && (forall k {:trigger FrameOk(p, frames[k])} :: 0 <= k < |frames| ==> FrameOk(p, frames[k]))
    && (|frames| > 0 ==> frames[0].owner.None?)
    && (forall k {:trigger Nested(p, frames, k)} :: 0 < k < |frames| ==> Nested(p, frames, k))
    && (forall i, j {:trigger frames[i].owner, frames[j].owner} :: 0 < i < j < |frames| ==>
         frames[i].owner != frames[j].owner)
  }

  ghost predicate StateOk<Inv(!new)>(p: Program<Inv>, s: State<Inv>) {
    && CacheOk(p, s.cache)
    && (forall t {:trigger s.checkers[t]} :: 0 <= t < |s.checkers| ==> StackOk(p, s.checkers[t]))
  }

  lemma NotedOk<Inv(!new)>(p: Program<Inv>, f: Frame<Inv>, result: Option<Inv>, cycle: bool)
    requires FrameOk(p, f) && |f.results| < |f.imports|
    requires result == ImportEntry(p, f.imports[|f.results|]) && (cycle <==> ImportCycles(p, f.imports[|f.results|]))
    ensures FrameOk(p, Noted(f, result, cycle))
  {
    var g := Noted(f, result, cycle);
    if cycle { assert ImportCycles(p, g.imports[|f.results|]); }
    if f.cycle {
      var i :| 0 <= i < |f.results| && ImportCycles(p, f.imports[i]);
      assert ImportCycles(p, g.imports[i]);
    }
  }

  /** Replacing the innermost walk by one that has noted its import keeps the stack in order. */
  lemma NotedStack<Inv(!new)>(p: Program<Inv>, frames: seq<Frame<Inv>>, top: Frame<Inv>)
    requires StackOk(p, frames) && |frames| > 0 && FrameOk(p, top)
    requires top.owner == frames[|frames| - 1].owner && top.imports == frames[|frames| - 1].imports
    ensures StackOk(p, frames[..|frames| - 1] + [top])
  {
    var more := frames[..|frames| - 1] + [top];
    forall k | 0 <= k < |more| ensures FrameOk(p, more[k]) {
      if k < |frames| - 1 { assert FrameOk(p, frames[k]); }
    }
    forall k | 0 < k < |more| ensures Nested(p, more, k) {
      assert Nested(p, frames, k);
    }
  }

  function OwnerName<Inv>(f: Frame<Inv>): string {
    if f.owner.Some? then f.owner.value else ""
  }

  /** The modules being loaded by a stack, outermost first. */
  ghost function Loading<Inv(!new)>(p: Program<Inv>, frames: seq<Frame<Inv>>): (r: seq<string>)
    requires |frames| > 0
    ensures |r| == |frames| - 1 && forall k :: 0 <= k < |r| ==> r[k] == OwnerName(frames[k + 1])
  {
    seq(|frames| - 1, k requires 0 <= k < |frames| - 1 => OwnerName(frames[k + 1]))
  }

  lemma LoadingChain<Inv(!new)>(p: Program<Inv>, frames: seq<Frame<Inv>>)
    requires StackOk(p, frames) && |frames| > 0
    ensures Chain(p, Loading(p, frames))
  {
    var loading := Loading(p, frames);
    forall m | m in loading ensures m in p.modules {
      var k :| 0 <= k < |loading| && loading[k] == m;
      assert Nested(p, frames, k + 1);
    }
    forall i | 0 <= i < |loading| - 1 ensures Imports(p, loading[i], loading[i + 1]) {
      assert Nested(p, frames, i + 1) && Nested(p, frames, i + 2);
    }
  }

  /** An import of a module still being loaded closes a cycle, so that module's entry is none. */
  lemma ImportOfLoading<Inv(!new)>(p: Program<Inv>, frames: seq<Frame<Inv>>, m: string)
    requires StackOk(p, frames) && |frames| > 0 && IsLoading(frames, m)
    requires
      var top := frames[|frames| - 1];
      |top.results| < |top.imports| && Resolve(p, top.imports[|top.results|]) == Some(m)
    ensures ReachesCycle(p, m)
  {
    var k :| 0 <= k < |frames| && frames[k].owner == Some(m);
    var loading, last := Loading(p, frames), |frames| - 1;
    assert k > 0 && loading[k - 1] == m;
    assert Nested(p, frames, last);
    assert Imports(p, loading[last - 1], m);
    LoadingChain(p, frames);
    LoadingIsCycle(p, loading, m);
  }

  lemma ImportOk<Inv(!new)>(p: Program<Inv>, cache: map<string, Option<Inv>>, frames: seq<Frame<Inv>>)
    requires CacheOk(p, cache) && StackOk(p, frames) && |frames| > 0
    requires |frames[|frames| - 1].results| < |frames[|frames| - 1].imports|
    ensures StackOk(p, Import(p, cache, frames))
  {
    var top := frames[|frames| - 1];
    assert FrameOk(p, top);
    var target := Resolve(p, top.imports[|top.results|]);
    if target.None? {
      NotedOk(p, top, None, false);
      NotedStack(p, frames, Noted(top, None, false));
    } else if IsLoading(frames, target.value) {
      ImportOfLoading(p, frames, target.value);
      NotedOk(p, top, None, true);
      NotedStack(p, frames, Noted(top, None, true));
    } else if target.value in cache {
      EntryIsNone(p, target.value);
      NotedOk(p, top, cache[target.value], cache[target.value].None?);
      NotedStack(p, frames, Noted(top, cache[target.value], cache[target.value].None?));
    } else {
      var more := frames + [Frame(target, p.modules[target.value], [], false)];
      forall k | 0 <= k < |more| ensures FrameOk(p, more[k]) {
        if k < |frames| { assert FrameOk(p, frames[k]); }
      }
      forall k | 0 < k < |more| ensures Nested(p, more, k) {
        if k < |frames| { assert Nested(p, frames, k); }
      }
    }
  }

  /** A finished import hands its entry to the frame below it. */
  lemma FinishOk<Inv(!new)>(p: Program<Inv>, frames: seq<Frame<Inv>>, m: string)
    requires StackOk(p, frames) && |frames| > 1 && frames[|frames| - 1].owner == Some(m)
    requires |frames[|frames| - 1].results| >= |frames[|frames| - 1].imports|
    ensures
      var last := |frames| - 1;
      && m in p.modules && frames[last].cycle == Entry(p, m).None?
      && StackOk(p, frames[..last - 1] + [Noted(frames[last - 1], Entry(p, m), frames[last].cycle)])
      && (!frames[last].cycle ==> Entry(p, m) == Some(p.inventory(m, frames[last].results)))
  {
    var last := |frames| - 1;
    var top := frames[last];
    assert FrameOk(p, top) && Nested(p, frames, last) && FrameOk(p, frames[last - 1]);
    AnalysisDetermined(p, m, top.results, top.cycle);
    EntryIsNone(p, m);
    NotedOk(p, frames[last - 1], Entry(p, m), top.cycle);
    PopOk(p, frames);
    NotedStack(p, frames[..last], Noted(frames[last - 1], Entry(p, m), top.cycle));
    assert frames[..last][..last - 1] == frames[..last - 1];
  }

  /** Every step of every checker keeps the cache determined by the imports. */
  lemma StepOk<Inv(!new)>(p: Program<Inv>, s: State<Inv>, t: nat)
    requires StateOk(p, s) && t < |s.checkers|
    ensures StateOk(p, Step(p, s, t)) && |Step(p, s, t).checkers| == |s.checkers|
  {
    var frames := s.checkers[t];
    assert StackOk(p, frames);
    if frames != [] {
      var top := frames[|frames| - 1];
      if |top.results| < |top.imports| {
        ImportOk(p, s.cache, frames);
      } else if top.owner.Some? && |frames| > 1 {
        FinishOk(p, frames, top.owner.value);
      }
    }
  }

  lemma PopOk<Inv(!new)>(p: Program<Inv>, frames: seq<Frame<Inv>>)
    requires StackOk(p, frames) && |frames| > 0
    ensures StackOk(p, frames[..|frames| - 1])
  {
    var rest := frames[..|frames| - 1];
    forall k | 0 <= k < |rest| ensures FrameOk(p, rest[k]) { assert FrameOk(p, frames[k]); }
    forall k | 0 < k < |rest| ensures Nested(p, rest, k) { assert Nested(p, frames, k); }
  }

  /** Checkers starting on their own files, with nothing cached. */
  function Start<Inv>(files: seq<seq<seq<string>>>): State<Inv> {
    State(map[], seq(|files|, t requires 0 <= t < |files| => [Frame(None, files[t], [], false)]))
  }

  /** The state after a schedule: which checker takes each step. */
  function Run<Inv>(p: Program<Inv>, s: State<Inv>, schedule: seq<nat>): State<Inv> {
    if schedule == [] then s
    else
      var before := Run(p, s, schedule[..|schedule| - 1]);
      var t := schedule[|schedule| - 1];
      if t < |before.checkers| then Step(p, before, t) else before
  }

  lemma StartOk<Inv(!new)>(p: Program<Inv>, files: seq<seq<seq<string>>>)
    ensures StateOk(p, Start(files))
  {
  }

  /**
   * Whatever the files, their load order and the interleaving, a cached module is none exactly when
   * it reaches an import cycle, and otherwise holds the inventory its imports determine.
   */
  lemma {:induction false} EveryInterleaving<Inv(!new)>(p: Program<Inv>, files: seq<seq<seq<string>>>,
        schedule: seq<nat>, m: string)
    ensures StateOk(p, Run(p, Start(files), schedule))
    ensures m in Run(p, Start(files), schedule).cache ==>
              m in p.modules && Run(p, Start(files), schedule).cache[m] == Entry(p, m) &&
              (Run(p, Start(files), schedule).cache[m].None? <==> ReachesCycle(p, m))
  {
    StartOk(p, files);
    if schedule != [] {
      var rest := schedule[..|schedule| - 1];
      EveryInterleaving(p, files, rest, m);
      var before, t := Run(p, Start(files), rest), schedule[|schedule| - 1];
      if t < |before.checkers| { StepOk(p, before, t); }
    }
    if m in Run(p, Start(files), schedule).cache { EntryIsNone(p, m); }
  }

  // ---------------------------------------------------------------------------------------------
  // Loading ends
  // ---------------------------------------------------------------------------------------------

  /**
   * The most steps of a walk with `left` imports to go that can nest `depth` more modules of at most `most` imports.
   */
  ghost function WalkCost(most: nat, depth: nat, left: nat): nat
    decreases depth, left
  {
    if left == 0 then 1
    else WalkCost(most, depth, left - 1) + 1 + if depth == 0 then 0 else WalkCost(most, depth - 1, most)
  }

  lemma {:induction false} WalkCostGrows(most: nat, depth: nat, left: nat, more: nat)
    requires left <= more
    ensures WalkCost(most, depth, left) <= WalkCost(most, depth, more)
  {
    if left < more { WalkCostGrows(most, depth, left, more - 1); }
  }

  function Left<Inv>(f: Frame<Inv>): nat {
    if |f.results| < |f.imports| then |f.imports| - |f.results| else 0
  }

  /** The steps left for the walks from `k` inwards; the import a nested walk serves is charged to that walk. */
  ghost function StackCost<Inv(!new)>(frames: seq<Frame<Inv>>, k: nat, most: nat, modules: nat): nat
    decreases |frames| - k
  {
    var depth := if k < modules then modules - k else 0;
    if k >= |frames| then 0
    else if k == |frames| - 1 then WalkCost(most, depth, Left(frames[k]))
    else
      var left := if Left(frames[k]) > 0 then Left(frames[k]) - 1 else 0;
      WalkCost(most, depth, left) + StackCost(frames, k + 1, most, modules)
  }

  /** Walks below `k` cost the same in two stacks that agree there. */
  lemma {:induction false} CostByTail<Inv(!new)>(a: seq<Frame<Inv>>, b: seq<Frame<Inv>>, j: nat, k: nat, most: nat,
        modules: nat)
    requires j <= k < |a| && k < |b| && a[..k] == b[..k]
    requires StackCost(b, k, most, modules) < StackCost(a, k, most, modules)
    ensures StackCost(b, j, most, modules) < StackCost(a, j, most, modules)
    decreases k - j
  {
    if j < k {
      assert a[..k][j] == b[..k][j];
      CostByTail(a, b, j + 1, k, most, modules);
    }
  }

  lemma LoadingElement<Inv(!new)>(p: Program<Inv>, frames: seq<Frame<Inv>>, m: string)
    requires StackOk(p, frames) && |frames| > 0 && m in Loading(p, frames)
    ensures IsLoading(frames, m)
  {
    var loading := Loading(p, frames);
    var k :| 0 <= k < |loading| && loading[k] == m;
    assert Nested(p, frames, k + 1);
  }

  /** The innermost walk of a stack can still nest a module that is not being loaded. */
  lemma RoomToNest<Inv(!new)>(p: Program<Inv>, frames: seq<Frame<Inv>>, m: string)
    requires StackOk(p, frames) && |frames| > 0 && m in p.modules && !IsLoading(frames, m)
    ensures |frames| <= |p.modules|
  {
    LoadingChain(p, frames);
    var loading := Loading(p, frames);
    forall i, j | 0 <= i < j < |loading| ensures loading[i] != loading[j] {
      assert Nested(p, frames, i + 1) && Nested(p, frames, j + 1);
      assert frames[i + 1].owner != frames[j + 1].owner;
    }
    DistinctSize(loading);
    var all := Elements(loading);
    if m in all {
      LoadingElement(p, frames, m);
    }
    assert |all + {m}| == |loading| + 1;
    SubsetSize(all + {m}, p.modules.Keys);
  }

  ghost function Elements(s: seq<string>): set<string> {
    set x | x in s
  }

  lemma {:induction false} DistinctSize(s: seq<string>)
    requires forall i, j :: 0 <= i < j < |s| ==> s[i] != s[j]
    ensures |Elements(s)| == |s|
  {
    if s != [] {
      var rest, last := s[..|s| - 1], s[|s| - 1];
      DistinctSize(rest);
      assert s == rest + [last];
      assert Elements(s) == Elements(rest) + {last};
    }
  }

  ghost predicate Bounded<Inv(!new)>(p: Program<Inv>, frames: seq<Frame<Inv>>, most: nat) {
    && (forall m {:trigger p.modules[m]} :: m in p.modules ==> |p.modules[m]| <= most)
    && (forall k {:trigger frames[k]} :: 0 <= k < |frames| ==> |frames[k].imports| <= most)
  }

  lemma ImportCosts<Inv(!new)>(p: Program<Inv>, cache: map<string, Option<Inv>>, frames: seq<Frame<Inv>>, most: nat)
    requires StackOk(p, frames) && Bounded(p, frames, most) && |frames| > 0
    requires |frames[|frames| - 1].results| < |frames[|frames| - 1].imports|
    ensures Bounded(p, Import(p, cache, frames), most)
    ensures StackCost(Import(p, cache, frames), 0, most, |p.modules|) < StackCost(frames, 0, most, |p.modules|)
  {
    var next, k, top := Import(p, cache, frames), |frames| - 1, frames[|frames| - 1];
    var target := Resolve(p, top.imports[|top.results|]);
    if target.Some? && !IsLoading(frames, target.value) && target.value !in cache {
      RoomToNest(p, frames, target.value);
      assert |p.modules[target.value]| <= most;
      WalkCostGrows(most, |p.modules| - k - 1, |p.modules[target.value]|, most);
      assert StackCost(next, k + 1, most, |p.modules|) ==
        WalkCost(most, |p.modules| - k - 1, |p.modules[target.value]|);
    }
    CostByTail(frames, next, 0, k, most, |p.modules|);
  }

  /**
   * A checker that has not finished has fewer steps left after each step it takes, and no step delays another checker.
   */
  lemma StepCosts<Inv(!new)>(p: Program<Inv>, s: State<Inv>, t: nat, most: nat)
    requires StateOk(p, s) && t < |s.checkers| && s.checkers[t] != [] && Bounded(p, s.checkers[t], most)
    ensures var frames := Step(p, s, t).checkers[t];
      Bounded(p, frames, most)
        && StackCost(frames, 0, most, |p.modules|) < StackCost(s.checkers[t], 0, most, |p.modules|)
    ensures forall u :: 0 <= u < |s.checkers| && u != t ==> Step(p, s, t).checkers[u] == s.checkers[u]
  {
    var frames := s.checkers[t];
    assert StackOk(p, frames);
    var last := |frames| - 1;
    var top := frames[last];
    if |top.results| < |top.imports| {
      ImportCosts(p, s.cache, frames, most);
    } else if top.owner.Some? && |frames| > 1 {
      assert Nested(p, frames, last);
      var next := Step(p, s, t).checkers[t];
      assert StackCost(frames, last, most, |p.modules|) > 0;
      CostByTail(frames, next, 0, last - 1, most, |p.modules|);
    }
  }
}
