/**
 * Incremental checking of a project: cached diagnostics against emitting a file afresh on the
 * current tables. Collection, refinement and emission are parameters.
 */
module Project {
  import opened Wrappers
  import opened Captures
  import opened Defaults
  import opened FileOrder
  import opened Rebounds
  import Closures
  import opened Seals

  // ---------------------------------------------------------------------------------------------
  // What a check works with
  // ---------------------------------------------------------------------------------------------

  /**
   * The refined tables: per function, the return and caller-visible signature (`visible`), the definitions merged under
   * its name, and whether some other write makes it unstable; which of them are methods; the literals some write may
   * replace; what the calls of all files say about defaults; `shared` is everything else a check compares as a whole
   * (packages and the rest of the table snapshot).
   */
  datatype Tables<V, D, S> = Tables(
    visible: map<string, V>,
    definers: map<string, seq<(string, D)>>,
    marked: set<string>,
    methods: set<string>,
    rebound: set<Key>,
    evidence: Evidence<D>,
    shared: S)

  /** The diagnostics of one file, and the functions its walk read. */
  datatype Emission<R> = Emission(diagnostics: R, reached: set<string>)

  predicate PathIn<C>(files: seq<(string, C)>, p: string) {
    exists i :: 0 <= i < |files| && files[i].0 == p
  }

  function IndexOf<C>(files: seq<(string, C)>, path: string): (r: nat)
    requires PathIn(files, path)
    ensures r < |files| && files[r].0 == path
  {
    if files[|files| - 1].0 == path then |files| - 1
    else
      assert PathIn(files[..|files| - 1], path) by {
        var i :| 0 <= i < |files| && files[i].0 == path;
        assert files[..|files| - 1][i].0 == path;
      }
      IndexOf(files[..|files| - 1], path)
  }

  /** The files and the buffers open in an editor: what box modules are loaded from. */
  datatype Sources<C> = Sources(files: seq<(string, C)>, open: set<string>)

  /** Where a module at a path comes from; an open buffer outside the project is not read. */
  datatype Overlay<C> = Checked(contents: C) | Unsaved | OnDisk

  function Lookup<C>(src: Sources<C>, path: string): Overlay<C> {
    if PathIn(src.files, path) then Checked(src.files[IndexOf(src.files, path)].1)
    else if path in src.open then Unsaved
    else OnDisk
  }

  /**
   * Contents `C`, inputs of collection `K`, other project metadata `M`. `imports` are the paths a file's box modules
   * are looked up at, and `read` what is read off a definition without walking it. Names that are `internal` are those
   * no capture record is kept for: nested functions, S4 methods, and spellings with escapes. Names that are `screened`
   * are those whose definitions every walk may look at, whatever it calls: `length` methods, and functions named like
   * an operator or a group generic.
   */
  datatype Env<!C(==), !K, !M, !V, !D, !S, !R> = Env(
    collect: (string, C, K) -> Collection<D>,
    usesBox: C -> bool,
    imports: (string, C, Sources<C>) -> set<string>,
    internal: string -> bool,
    screened: string -> bool,
    read: Reader<D>,
    emit: (string, C, K, M, Sources<C>, Tables<V, D, S>) -> Emission<R>,
    nothing: R)

  /** What an emission leaves for the next check to compare with. */
  datatype Prev<V, S> = Prev(visible: map<string, V>, rebound: set<Key>, shared: S)

  predicate TablesOk<V, D, S>(t: Tables<V, D, S>) {
    t.definers.Keys == t.visible.Keys
  }

  ghost predicate SameFunction<V, D, S>(t: Tables<V, D, S>, t': Tables<V, D, S>, n: string) {
    n in t.visible && n in t'.visible && n in t.definers && n in t'.definers
    && t.visible[n] == t'.visible[n] && t.definers[n] == t'.definers[n] && (n in t.marked <==> n in t'.marked)
  }

  /** Every path the file's modules were looked up at holds the same. */
  ghost predicate SameSources<C, K, M, V, D, S, R>(env: Env<C, K, M, V, D, S, R>, p: string, c: C, src: Sources<C>,
        src': Sources<C>)
  {
    env.usesBox(c) ==> forall q :: q in env.imports(p, c, src) ==> Lookup(src, q) == Lookup(src', q)
  }

  /** Some defaulted formal of the file's functions starts with another type. */
  ghost predicate DefaultsChange<C, K, M, V, D, S, R>(env: Env<C, K, M, V, D, S, R>, p: string, c: C, k: K,
        e: Evidence<D>, e': Evidence<D>)
  {
    exists f :: f in env.collect(p, c, k).formals && DefaultType(env.read, e, f) != DefaultType(env.read, e', f)
  }

  /** The set holds the functions that the bodies of its members call. */
  ghost predicate FollowsCalls<D>(read: Reader<D>, live: map<string, D>, names: set<string>) {
    forall n :: n in names && n in live ==> read.calls(live[n]) <= names
  }

  /** The name is one of these, or called from the body of one, or from the body of such a function, and so on. */
  ghost predicate Within<D>(read: Reader<D>, live: map<string, D>, roots: set<string>, n: string) {
    forall names: set<string> {:trigger FollowsCalls(read, live, names)} ::
      roots <= names && FollowsCalls(read, live, names) ==> n in names
  }

  ghost predicate Looks<C, K, M, V, D, S, R>(env: Env<C, K, M, V, D, S, R>, p: string, c: C, k: K, m: M,
        src: Sources<C>, t: Tables<V, D, S>, n: string)
  {
    || Within(env.read, t.evidence.live, env.collect(p, c, k).sites.Keys + env.emit(p, c, k, m, src, t).reached, n)
    || n in env.collect(p, c, k).defs || n in t.methods || env.screened(n)
  }

  /**
   * The tables agree on what emitting the file looks at: the functions it calls or was seen to read, with those their
   * bodies call; the functions it defines; every method, as method selection is dynamic; the screened names; and the
   * types its defaulted formals start with.
   */
  ghost predicate SameView<C(!new), K, M, V(!new), D(!new), S(!new), R>(env: Env<C, K, M, V, D, S, R>, p: string, c: C,
        k: K, m: M, src: Sources<C>, t: Tables<V, D, S>, src': Sources<C>, t': Tables<V, D, S>)
  {
    && t.shared == t'.shared && t.rebound == t'.rebound && t.visible.Keys == t'.visible.Keys
    && t.methods == t'.methods && SameSources(env, p, c, src, src')
    && !DefaultsChange(env, p, c, k, t.evidence, t'.evidence)
    && forall n :: n in t.visible && Looks(env, p, c, k, m, src, t, n) ==> SameFunction(t, t', n)
  }

  /** Emission depends on nothing else. */
  ghost predicate EmitOk<C(!new), K(!new), M(!new), V(!new), D(!new), S(!new), R>(env: Env<C, K, M, V, D, S, R>) {
    forall p, c, k, m, src, t, src', t' {:trigger SameView(env, p, c, k, m, src, t, src', t')} ::
      TablesOk(t) && TablesOk(t') && SameView(env, p, c, k, m, src, t, src', t') ==>
        env.emit(p, c, k, m, src, t) == env.emit(p, c, k, m, src', t')
  }

  /**
   * A definition is captured as a literal of its file and as a write, and so is every other write that marks a name.
   */
  ghost predicate Captured<D>(c: Collection<D>, n: string) {
    MayWrite(c.writes, n) && exists k :: (n, k) in c.literals
  }

  ghost predicate CollectionOk<C, K, M, V, D, S, R>(env: Env<C, K, M, V, D, S, R>, p: string, c: Collection<D>) {
    && Own(p, c)
    && (forall n :: n in c.defs && !env.internal(n) ==> Captured(c, n))
    && (forall n :: n in c.marks ==> MayWrite(c.writes, n))
    && c.methods <= c.defs.Keys
    && (forall n :: n in c.defs ==> env.read.calls(c.defs[n]) <= c.sites.Keys)
  }

  ghost predicate CollectOk<C(!new), K(!new), M, V, D, S, R>(env: Env<C, K, M, V, D, S, R>) {
    forall p, c, k {:trigger env.collect(p, c, k)} :: CollectionOk(env, p, env.collect(p, c, k))
  }

  // ---------------------------------------------------------------------------------------------
  // What happened since the last emission
  // ---------------------------------------------------------------------------------------------

  predicate AllDirty<C>(files: seq<(string, C)>, dirty: set<string>) {
    forall i :: 0 <= i < |files| ==> files[i].0 in dirty
  }

  /** Cached collections are those of the current contents. */
  ghost predicate CollectedOk<C, K, M, V, D(!new), S, R>(env: Env<C, K, M, V, D, S, R>, files: seq<(string, C)>, k: K,
        collected: map<string, Collection<D>>)
  {
    && UniquePaths(files)
    && (forall p :: p in collected ==> PathIn(files, p))
    && (forall i :: 0 <= i < |files| && files[i].0 in collected ==>
          collected[files[i].0] == env.collect(files[i].0, files[i].1, k))
  }

  /**
   * `seen` and `order` are the collections and file order of the last emission. Since then no file was removed, an
   * edited file's old names are invalidated, and so are names with two definers if the files were moved.
   */
  ghost predicate History<C, D(!new)>(files: seq<(string, C)>, collected: map<string, Collection<D>>,
        invalidated: set<string>, seen: map<string, Collection<D>>, order: seq<string>, moved: bool)
  {
    && FileOrder.Distinct(order) && (forall p :: p in order <==> p in seen)
    && (forall p :: p in seen ==> PathIn(files, p))
    && (forall p :: p in collected ==> p in seen && collected[p] == seen[p])
    && (forall p :: p in seen && p !in collected ==> seen[p].defs.Keys <= invalidated)
    && (if moved then forall n :: DefinedTwice(seen, n) ==> n in invalidated else order <= Paths(files))
  }

  /** File `p` was added or edited, and defines the name where it did not at the last emission. */
  ghost predicate NewDefiner<D>(collected: map<string, Collection<D>>, now: map<string, Collection<D>>,
        seen: map<string, Collection<D>>, p: string, n: string)
  {
    p in now && p !in collected && n in now[p].defs && DefOf(seen, p, n).None?
  }

  /** The names some file marks unstable. */
  function MarkedNames<D>(c: map<string, Collection<D>>): set<string> {
    set p, n | p in c && n in c[p].marks :: n
  }

  /** What emission can see of the definitions of a name, beyond its return and signature, changed. */
  ghost predicate FactsChange<D(!new)>(collected: map<string, Collection<D>>, now: map<string, Collection<D>>,
        seen: map<string, Collection<D>>, n: string)
  {
    (exists p :: NewDefiner(collected, now, seen, p, n)) || (n in MarkedNames(now) <==> n !in MarkedNames(seen))
  }

  /**
   * Comparing the replaced literals does not notice a change to the name: it is internal, or every literal unchanged
   * files hold under it had been replaced already, and a file that newly defines it was there before, with its literal
   * where a replaced one had stood.
   */
  ghost predicate Hidden<C, K, M, V, D(!new), S, R>(env: Env<C, K, M, V, D, S, R>,
        collected: map<string, Collection<D>>, now: map<string, Collection<D>>, seen: map<string, Collection<D>>,
        n: string)
  {
    || env.internal(n)
    || (&& (forall r :: r in collected ==> HeldIn(collected[r], n, Rebound(seen)))
        && (forall p {:trigger NewDefiner(collected, now, seen, p, n)} ::
              NewDefiner(collected, now, seen, p, n) ==> p in seen && HeldIn(now[p], n, Rebound(seen))))
  }

  /** The collections a check merges. */
  ghost predicate Complete<C, K, M, V, D(!new), S, R>(env: Env<C, K, M, V, D, S, R>, files: seq<(string, C)>, k: K,
        collected: map<string, Collection<D>>)
  {
    CollectedOk(env, files, k, collected) && forall i :: 0 <= i < |files| ==> files[i].0 in collected
  }

  lemma PathsDistinct<C>(files: seq<(string, C)>)
    requires UniquePaths(files)
    ensures FileOrder.Distinct(Paths(files)) && forall p :: p in Paths(files) <==> PathIn(files, p)
  {
    forall p | PathIn(files, p) ensures p in Paths(files) {
      var i :| 0 <= i < |files| && files[i].0 == p;
      assert Paths(files)[i] == p;
    }
  }

  /** File by file, a name that is not invalidated is defined as it was, unless an edit added a definer. */
  lemma DefinitionKept<C, K, M, V, D(!new), S, R>(env: Env<C, K, M, V, D, S, R>, files: seq<(string, C)>, k: K,
        collected: map<string, Collection<D>>, now: map<string, Collection<D>>, invalidated: set<string>,
        seen: map<string, Collection<D>>, order: seq<string>, moved: bool, n: string, i: nat)
    requires CollectedOk(env, files, k, collected) && Complete(env, files, k, now)
    requires History(files, collected, invalidated, seen, order, moved)
    requires n !in invalidated && !FactsChange(collected, now, seen, n) && i < |files|
    ensures DefOf(now, files[i].0, n) == DefOf(seen, files[i].0, n)
  {
    var p := files[i].0;
    assert p in collected ==> collected[p] == now[p];
    assert !NewDefiner(collected, now, seen, p, n);
  }

  /** A name that is not invalidated keeps its definers, unless an edit added one. */
  lemma DefinersKept<C, K, M, V, D(!new), S, R>(env: Env<C, K, M, V, D, S, R>, files: seq<(string, C)>, k: K,
        collected: map<string, Collection<D>>, now: map<string, Collection<D>>, invalidated: set<string>,
        seen: map<string, Collection<D>>, order: seq<string>, moved: bool, n: string)
    requires CollectedOk(env, files, k, collected) && Complete(env, files, k, now)
    requires History(files, collected, invalidated, seen, order, moved)
    requires n !in invalidated && !FactsChange(collected, now, seen, n)
    ensures Definers(Paths(files), now, n) == Definers(order, seen, n)
  {
    PathsDistinct(files);
    forall p | p in Paths(files) ensures DefOf(now, p, n) == DefOf(seen, p, n) {
      var i: nat :| i < |files| && files[i].0 == p;
      DefinitionKept(env, files, k, collected, now, invalidated, seen, order, moved, n, i);
    }
    SameDefiners(Paths(files), now, seen, n);
    if moved {
      OrderIrrelevant(Paths(files), order, seen, n);
    } else {
      OrderPrefix(Paths(files), order, seen, n);
    }
  }

  lemma OrderPrefix<D>(paths: seq<string>, order: seq<string>, seen: map<string, Collection<D>>, n: string)
    requires FileOrder.Distinct(paths) && order <= paths && forall p :: p in seen ==> p in order
    ensures Definers(paths, seen, n) == Definers(order, seen, n)
  {
    var rest := paths[|order|..];
    assert paths == order + rest;
    forall p | p in rest ensures DefOf(seen, p, n).None? {
      var j :| 0 <= j < |rest| && rest[j] == p;
      assert paths[|order| + j] == p;
      assert p !in order;
    }
    DefinersConcat(order, rest, seen, n);
    NoDefiners(rest, seen, n);
  }

  ghost predicate CollectionsOk<C, K, M, V, D(!new), S, R>(env: Env<C, K, M, V, D, S, R>,
        c: map<string, Collection<D>>) {
    forall p :: p in c ==> CollectionOk(env, p, c[p])
  }

  /** The unchanged files are as they were at the last emission, and the names of the others are invalidated. */
  ghost predicate Unchanged<D(!new)>(collected: map<string, Collection<D>>, now: map<string, Collection<D>>,
        invalidated: set<string>, seen: map<string, Collection<D>>)
  {
    && (forall p :: p in collected ==> p in now && p in seen && collected[p] == now[p] == seen[p])
    && (forall p :: p in seen && p !in collected ==> seen[p].defs.Keys <= invalidated)
  }

  /** The unchanged file that keeps a name which is not invalidated. */
  lemma KeptDefiner<C, K, M, V, D(!new), S, R>(env: Env<C, K, M, V, D, S, R>, collected: map<string, Collection<D>>,
        now: map<string, Collection<D>>, invalidated: set<string>, seen: map<string, Collection<D>>,
        n: string) returns (q: string)
    requires CollectionsOk(env, now) && Unchanged(collected, now, invalidated, seen)
    requires n in Names(seen) && n !in invalidated && !env.internal(n)
    ensures q in collected && q in now && n in now[q].defs && Captured(now[q], n)
  {
    q :| q in seen && n in seen[q].defs;
    assert CollectionOk(env, q, now[q]);
  }

  lemma NewDefinerHidden<C, K, M, V, D(!new), S, R>(env: Env<C, K, M, V, D, S, R>,
        collected: map<string, Collection<D>>, now: map<string, Collection<D>>, invalidated: set<string>,
        seen: map<string, Collection<D>>, p: string, n: string)
    requires CollectionsOk(env, now) && CollectionsOk(env, seen) && Unchanged(collected, now, invalidated, seen)
    requires n in Names(seen) && n !in invalidated && !env.internal(n) && Rebound(seen) == Rebound(now)
    requires NewDefiner(collected, now, seen, p, n)
    ensures p in seen && HeldIn(now[p], n, Rebound(seen))
    ensures forall r :: r in collected ==> HeldIn(collected[r], n, Rebound(seen))
  {
    var q := KeptDefiner(env, collected, now, invalidated, seen, n);
    assert CollectionOk(env, p, now[p]);
    var k :| (n, k) in now[p].literals;
    UnnoticedDefiner(seen, now, p, q, n, k);
  }

  lemma MarkHidden<D(!new)>(collected: map<string, Collection<D>>, c: map<string, Collection<D>>, p: string, n: string)
    requires p in c && p !in collected && MayWrite(c[p].writes, n)
    requires forall r :: r in collected ==> r in c && c[r] == collected[r]
    ensures forall r :: r in collected ==> HeldIn(collected[r], n, Rebound(c))
  {
    forall r | r in collected ensures HeldIn(collected[r], n, Rebound(c)) {
      WrittenIsRebound(c, r, p, n);
    }
  }

  lemma MarksHidden<C, K, M, V, D(!new), S, R>(env: Env<C, K, M, V, D, S, R>, collected: map<string, Collection<D>>,
        now: map<string, Collection<D>>, invalidated: set<string>, seen: map<string, Collection<D>>, n: string)
    requires CollectionsOk(env, now) && CollectionsOk(env, seen) && Unchanged(collected, now, invalidated, seen)
    requires Rebound(seen) == Rebound(now) && (n in MarkedNames(now) <==> n !in MarkedNames(seen))
    ensures forall r :: r in collected ==> HeldIn(collected[r], n, Rebound(seen))
  {
    if n in MarkedNames(now) {
      var p :| p in now && n in now[p].marks;
      assert CollectionOk(env, p, now[p]);
      MarkHidden(collected, now, p, n);
    } else {
      var p :| p in seen && n in seen[p].marks;
      assert CollectionOk(env, p, seen[p]);
      MarkHidden(collected, seen, p, n);
    }
  }

  /** With the same replaced literals, only a hidden change to a name that is not invalidated can have happened. */
  lemma OnlyHiddenChanges<C, K, M, V, D(!new), S, R>(env: Env<C, K, M, V, D, S, R>,
        collected: map<string, Collection<D>>, now: map<string, Collection<D>>, invalidated: set<string>,
        seen: map<string, Collection<D>>, n: string)
    requires CollectionsOk(env, now) && CollectionsOk(env, seen) && Unchanged(collected, now, invalidated, seen)
    requires n in Names(seen) && n !in invalidated && Rebound(seen) == Rebound(now)
    ensures FactsChange(collected, now, seen, n) ==> Hidden(env, collected, now, seen, n)
  {
    if !env.internal(n) {
      forall p | NewDefiner(collected, now, seen, p, n)
        ensures p in seen && HeldIn(now[p], n, Rebound(seen))
        ensures forall r :: r in collected ==> HeldIn(collected[r], n, Rebound(seen))
      {
        NewDefinerHidden(env, collected, now, invalidated, seen, p, n);
      }
      if n in MarkedNames(now) <==> n !in MarkedNames(seen) {
        MarksHidden(env, collected, now, invalidated, seen, n);
      }
    }
  }

  // ---------------------------------------------------------------------------------------------
  // What each operation keeps of the history
  // ---------------------------------------------------------------------------------------------

  lemma AppendHistory<C, D(!new)>(files: seq<(string, C)>, file: (string, C), collected: map<string, Collection<D>>,
        invalidated: set<string>, seen: map<string, Collection<D>>, order: seq<string>, moved: bool)
    requires History(files, collected, invalidated, seen, order, moved)
    ensures History(files + [file], collected, invalidated, seen, order, moved)
  {
    var more := files + [file];
    forall p | p in seen ensures PathIn(more, p) {
      var i :| 0 <= i < |files| && files[i].0 == p;
      assert more[i].0 == p;
    }
    assert Paths(more) == Paths(files) + [file.0];
  }

  /** Replacing a file in place drops its collection and invalidates its names. */
  lemma ReplaceHistory<C, D(!new)>(files: seq<(string, C)>, i: nat, c: C, collected: map<string, Collection<D>>,
        invalidated: set<string>, seen: map<string, Collection<D>>, order: seq<string>, moved: bool)
    requires i < |files| && History(files, collected, invalidated, seen, order, moved)
    ensures
      var p := files[i].0;
      var dropped := if p in collected then collected[p].defs.Keys else {};
      History(files[i := (p, c)], collected - {p}, invalidated + dropped, seen, order, moved)
  {
    var more := files[i := (files[i].0, c)];
    forall p | p in seen ensures PathIn(more, p) {
      var j :| 0 <= j < |files| && files[j].0 == p;
      assert more[j].0 == p;
    }
    assert Paths(more) == Paths(files);
  }

  /** The names more than one cached file defines. */
  function Shadowed<D>(collected: map<string, Collection<D>>): set<string> {
    set p, q, n | p in collected && q in collected && p != q && n in collected[p].defs && n in collected[q].defs :: n
  }

  lemma ShadowedIsTwice<D(!new)>(collected: map<string, Collection<D>>, n: string)
    ensures n in Shadowed(collected) <==> DefinedTwice(collected, n)
  {
  }

  lemma SortedPaths<C>(files: seq<(string, C)>, order: seq<string>)
    requires UniquePaths(files)
    ensures UniquePaths(StableSort(files, order))
    ensures forall f :: f in StableSort(files, order) <==> f in files
    ensures forall p :: PathIn(StableSort(files, order), p) <==> PathIn(files, p)
  {
    var sorted := StableSort(files, order);
    SortSorts(files, order);
    forall f ensures f in sorted <==> f in files {
      if f in files {
        SameElements(files, sorted, f);
      }
      if f in sorted {
        SameElements(sorted, files, f);
      }
    }
    forall p ensures PathIn(sorted, p) <==> PathIn(files, p) {
      SamePath(files, sorted, p);
      SamePath(sorted, files, p);
    }
    NoRepeats(files, sorted);
  }

  lemma SamePath<C>(a: seq<(string, C)>, b: seq<(string, C)>, p: string)
    requires multiset(a) == multiset(b)
    ensures PathIn(a, p) ==> PathIn(b, p)
  {
    if i :| 0 <= i < |a| && a[i].0 == p {
      SameElements(a, b, a[i]);
      var j :| 0 <= j < |b| && b[j] == a[i];
      assert b[j].0 == p;
    }
  }

  lemma NoRepeats<C>(files: seq<(string, C)>, sorted: seq<(string, C)>)
    requires UniquePaths(files) && multiset(files) == multiset(sorted)
    ensures UniquePaths(sorted)
  {
    if i, j :| 0 <= i < j < |sorted| && sorted[i].0 == sorted[j].0 {
      assert sorted[i] in multiset(files) && sorted[j] in multiset(files);
      var k :| 0 <= k < |files| && files[k] == sorted[i];
      var l :| 0 <= l < |files| && files[l] == sorted[j];
      assert k == l;
      Twice(sorted, i, j);
      Once(files, k);
      assert false;
    }
  }

  lemma Twice<C>(files: seq<(string, C)>, i: nat, j: nat)
    requires i < j < |files| && files[i] == files[j]
    ensures multiset(files)[files[i]] >= 2
  {
    assert files == files[..i] + [files[i]] + files[i + 1..j] + [files[j]] + files[j + 1..];
  }

  lemma Once<C>(files: seq<(string, C)>, k: nat)
    requires k < |files| && UniquePaths(files)
    ensures multiset(files)[files[k]] == 1
  {
    assert files == files[..k] + [files[k]] + files[k + 1..];
    assert files[k] !in files[..k] && files[k] !in files[k + 1..];
  }

  /** Moving files keeps the history when the names defined twice are invalidated. */
  lemma MoveHistory<C, D(!new)>(files: seq<(string, C)>, wanted: seq<string>, collected: map<string, Collection<D>>,
        invalidated: set<string>, seen: map<string, Collection<D>>, order: seq<string>, moved: bool)
    requires UniquePaths(files) && History(files, collected, invalidated, seen, order, moved)
    ensures History(StableSort(files, wanted), collected, invalidated + Shadowed(collected), seen, order, true)
  {
    SortedPaths(files, wanted);
    forall n | DefinedTwice(seen, n) ensures n in invalidated + Shadowed(collected) {
      var p, q :| p in seen && q in seen && p != q && n in seen[p].defs && n in seen[q].defs;
      if p in collected && q in collected {
        assert n in collected[p].defs && n in collected[q].defs;
      }
    }
  }

  ghost predicate WinnerChanges<C, D>(files: seq<(string, C)>, sorted: seq<(string, C)>,
        collected: map<string, Collection<D>>, n: string) {
    Winner(Paths(files), collected, n) != Winner(Paths(sorted), collected, n)
  }

  /** The name is invalidated and every file defining it is dirty. */
  ghost predicate Covered<D(!new)>(collected: map<string, Collection<D>>, invalidated: set<string>, dirty: set<string>,
        n: string) {
    n in invalidated && forall p :: p in collected && n in collected[p].defs ==> p in dirty
  }

  /** The collected files that define a shadowed name. */
  function Redefining<D>(collected: map<string, Collection<D>>): set<string> {
    set p | p in collected && collected[p].defs.Keys * Shadowed(collected) != {}
  }

  /** A name whose winner a move changes is defined in two collected files. */
  lemma MoveCovers<C, D(!new)>(files: seq<(string, C)>, wanted: seq<string>, collected: map<string, Collection<D>>,
        invalidated: set<string>, dirty: set<string>, n: string)
    requires UniquePaths(files) && forall p :: p in collected ==> PathIn(files, p)
    requires Shadowed(collected) <= invalidated
    requires Redefining(collected) <= dirty
    requires WinnerChanges(files, StableSort(files, wanted), collected, n)
    ensures Covered(collected, invalidated, dirty, n)
  {
    SortedPaths(files, wanted);
    PathsDistinct(files);
    PathsDistinct(StableSort(files, wanted));
    if !DefinedTwice(collected, n) {
      OrderIrrelevant(Paths(files), Paths(StableSort(files, wanted)), collected, n);
    }
    ShadowedIsTwice(collected, n);
    forall p | p in collected && n in collected[p].defs ensures p in dirty {
      assert n in collected[p].defs.Keys * Shadowed(collected);
      assert p in Redefining(collected);
    }
  }

  lemma MoveCoversAll<C, D(!new)>(files: seq<(string, C)>, wanted: seq<string>, collected: map<string, Collection<D>>,
        invalidated: set<string>, dirty: set<string>)
    requires UniquePaths(files) && forall p :: p in collected ==> PathIn(files, p)
    requires Shadowed(collected) <= invalidated && Redefining(collected) <= dirty
    ensures forall n :: WinnerChanges(files, StableSort(files, wanted), collected, n) ==>
      Covered(collected, invalidated, dirty, n)
  {
    forall n | WinnerChanges(files, StableSort(files, wanted), collected, n)
      ensures Covered(collected, invalidated, dirty, n)
    {
      MoveCovers(files, wanted, collected, invalidated, dirty, n);
    }
  }

  // ---------------------------------------------------------------------------------------------
  // Reusing a file's diagnostics
  // ---------------------------------------------------------------------------------------------

  /** What a file's cache entry is worth: with the last tables, emission gave these diagnostics and reads. */
  ghost predicate FreshEntry<C, K, M, V, D, S, R(!new)>(env: Env<C, K, M, V, D, S, R>, file: (string, C), k: K, m: M,
        diagnostics: map<string, R>, reached: map<string, set<string>>, src: Sources<C>, t: Tables<V, D, S>)
  {
    && file.0 in diagnostics && file.0 in reached
    && env.emit(file.0, file.1, k, m, src, t) == Emission(diagnostics[file.0], reached[file.0])
  }

  function UsedBy<D>(now: map<string, Collection<D>>, reached: map<string, set<string>>, p: string): set<string> {
    (if p in now then now[p].sites.Keys else {}) + if p in reached then reached[p] else {}
  }

  function Uses<D>(now: map<string, Collection<D>>, reached: map<string, set<string>>): map<string, Closures.FileUse> {
    map p | p in now :: Closures.FileUse(now[p].defs.Keys, UsedBy(now, reached, p))
  }

  /** The functions whose own return or signature differs from the last emission. */
  function Direct<V(==)>(before: map<string, V>, rets: map<string, V>): set<string> {
    set n | n in rets && (n !in before || before[n] != rets[n])
  }

  /** The least set with these and the invalidated names that is closed under files using one of its members. */
  ghost predicate IsChanged<V, D>(now: map<string, Collection<D>>, reached: map<string, set<string>>,
        invalidated: set<string>, before: map<string, V>, rets: map<string, V>, changed: set<string>)
  {
    var direct := Direct(before, rets) + invalidated;
    && direct <= changed && Closures.Closed(Uses(now, reached), changed)
    && forall other :: direct <= other && Closures.Closed(Uses(now, reached), other) ==> changed <= other
  }

  /** The check found nothing changed that this file was seen to use. */
  ghost predicate Spared<V, D>(now: map<string, Collection<D>>, reached: map<string, set<string>>,
        invalidated: set<string>, before: map<string, V>, rets: map<string, V>, p: string, changed: set<string>)
  {
    && Direct(before, rets) + invalidated <= changed && Closures.Closed(Uses(now, reached), changed)
    && UsedBy(now, reached, p) * changed == {} && (changed == {} || Methods(now) == {})
  }

  ghost predicate Untouched<C, V, D(!new), S>(file: (string, C), now: map<string, Collection<D>>, dirty: set<string>,
        invalidated: set<string>, prev: Prev<V, S>, reached: map<string, set<string>>, rets: map<string, V>, shared: S)
  {
    && file.0 !in dirty && file.0 in reached
    && prev.shared == shared && prev.rebound == Rebound(now) && prev.visible.Keys == rets.Keys
    && exists changed :: Spared(now, reached, invalidated, prev.visible, rets, file.0, changed)
  }

  function DefsOf<D>(collected: map<string, Collection<D>>, path: string): set<string> {
    if path in collected then collected[path].defs.Keys else {}
  }

  /** A name that the file uses, directly or through what it calls, or a method, changed in a hidden way. */
  ghost predicate HiddenFrom<C, K, M, V, D(!new), S, R>(env: Env<C, K, M, V, D, S, R>,
        collected: map<string, Collection<D>>, now: map<string, Collection<D>>, seen: map<string, Collection<D>>,
        reached: map<string, set<string>>, t: Tables<V, D, S>, p: string, n: string)
  {
    && n in t.visible
    && (Within(env.read, t.evidence.live, UsedBy(now, reached, p), n) || n in Methods(now))
    && FactsChange(collected, now, seen, n) && Hidden(env, collected, now, seen, n)
  }

  /** The file defines the name, or every walk may look at it, and it is not the same function any more. */
  ghost predicate UnaskedChange<C, K, M, V, D, S, R>(env: Env<C, K, M, V, D, S, R>, now: map<string, Collection<D>>,
        t: Tables<V, D, S>, t': Tables<V, D, S>, p: string, n: string)
  {
    n in t.visible && (n in DefsOf(now, p) || env.screened(n)) && !SameFunction(t, t', n)
  }

  /**
   * What the check does not look for: a hidden change to a name the file uses or to a method; any change to a name that
   * the file defines or every walk may look at; that the project has no method any more; or that what the calls say of
   * a default in the file is not what they said before.
   */
  ghost predicate Overlooks<C, K, M, V, D(!new), S, R>(env: Env<C, K, M, V, D, S, R>, file: (string, C), k: K,
        collected: map<string, Collection<D>>, now: map<string, Collection<D>>, seen: map<string, Collection<D>>,
        reached: map<string, set<string>>, t: Tables<V, D, S>, t': Tables<V, D, S>)
  {
    || (exists n :: HiddenFrom(env, collected, now, seen, reached, t, file.0, n))
    || (exists n :: UnaskedChange(env, now, t, t', file.0, n))
    || (t'.methods == {} && t.methods != {})
    || DefaultsChange(env, file.0, file.1, k, t.evidence, t'.evidence)
  }

  function Merge<V, D, S>(rets: map<string, V>, shared: S, paths: seq<string>,
        now: map<string, Collection<D>>): (t: Tables<V, D, S>)
    ensures TablesOk(t)
  {
    Tables(rets, map n | n in rets :: Definers(paths, now, n), MarkedNames(now), Methods(now), Rebound(now),
           Gather(paths, now), shared)
  }

  /** What the history says of the files that were not touched. */
  lemma NothingElse<C, K, M, V, D(!new), S, R>(env: Env<C, K, M, V, D, S, R>, files: seq<(string, C)>, k: K,
        collected: map<string, Collection<D>>, now: map<string, Collection<D>>, invalidated: set<string>,
        seen: map<string, Collection<D>>, order: seq<string>, moved: bool)
    requires CollectedOk(env, files, k, collected) && Complete(env, files, k, now)
    requires History(files, collected, invalidated, seen, order, moved)
    ensures Unchanged(collected, now, invalidated, seen)
  {
    forall p | p in collected ensures p in now && p in seen && collected[p] == now[p] == seen[p] {
      var i :| 0 <= i < |files| && files[i].0 == p;
    }
  }

  lemma MethodKept<C, K, M, V, D(!new), S, R>(env: Env<C, K, M, V, D, S, R>, collected: map<string, Collection<D>>,
        now: map<string, Collection<D>>, seen: map<string, Collection<D>>, n: string)
    requires CollectionsOk(env, seen) && Unchanged(collected, now, {}, seen) && n in Methods(seen)
    ensures n in Methods(now)
  {
    var p :| p in seen && n in seen[p].methods;
    assert CollectionOk(env, p, seen[p]);
    assert p in collected;
  }

  lemma MethodKnown<C, K, M, V, D(!new), S, R>(env: Env<C, K, M, V, D, S, R>, collected: map<string, Collection<D>>,
        now: map<string, Collection<D>>, seen: map<string, Collection<D>>, reached: map<string, set<string>>,
        t: Tables<V, D, S>, q: string, n: string)
    requires CollectionsOk(env, now) && CollectionsOk(env, seen) && Unchanged(collected, now, {}, seen)
    requires t.visible.Keys == Names(now) == Names(seen) && Rebound(seen) == Rebound(now) && n in Methods(now)
    requires !HiddenFrom(env, collected, now, seen, reached, t, q, n)
    ensures n in Methods(seen)
  {
    var p :| p in now && n in now[p].methods;
    assert CollectionOk(env, p, now[p]);
    if p !in collected {
      assert NewDefiner(collected, now, seen, p, n);
      assert n in Names(now);
      OnlyHiddenChanges(env, collected, now, {}, seen, n);
    }
  }

  /** The methods are the same, unless the last one was lost or a hidden definition brought one. */
  lemma MethodsKept<C, K, M, V, D(!new), S, R>(env: Env<C, K, M, V, D, S, R>, collected: map<string, Collection<D>>,
        now: map<string, Collection<D>>, invalidated: set<string>, seen: map<string, Collection<D>>,
        reached: map<string, set<string>>, t: Tables<V, D, S>, t': Tables<V, D, S>, file: (string, C), k: K)
    requires CollectionsOk(env, now) && CollectionsOk(env, seen) && Unchanged(collected, now, invalidated, seen)
    requires t.visible.Keys == Names(now) == Names(seen) && Rebound(seen) == Rebound(now)
    requires t.methods == Methods(seen) && t'.methods == Methods(now)
    requires Methods(now) != {} ==> invalidated == {}
    requires !Overlooks(env, file, k, collected, now, seen, reached, t, t')
    ensures Methods(seen) == Methods(now)
  {
    if Methods(now) != {} {
      forall n | n in Methods(seen) ensures n in Methods(now) {
        MethodKept(env, collected, now, seen, n);
      }
      forall n | n in Methods(now) ensures n in Methods(seen) {
        assert !HiddenFrom(env, collected, now, seen, reached, t, file.0, n);
        MethodKnown(env, collected, now, seen, reached, t, file.0, n);
      }
    }
  }

  lemma WinnerDefines<D>(paths: seq<string>, c: map<string, Collection<D>>, n: string) returns (q: string)
    requires n in Winners(paths, c)
    ensures q in c && n in c[q].defs && c[q].defs[n] == Winners(paths, c)[n]
  {
    q := Winner(paths, c, n).value.0;
    DefinersAre(paths, c, n);
  }

  lemma {:induction false} DefinersAre<D>(paths: seq<string>, c: map<string, Collection<D>>, n: string)
    ensures forall e :: e in Definers(paths, c, n) ==> DefOf(c, e.0, n) == Some(e.1)
  {
    if paths != [] {
      DefinersAre(paths[..|paths| - 1], c, n);
    }
  }

  /** The body of a function that did not change calls no function that did. */
  lemma CallsKept<C, K, M, V, D(!new), S, R>(env: Env<C, K, M, V, D, S, R>, collected: map<string, Collection<D>>,
        now: map<string, Collection<D>>, invalidated: set<string>, seen: map<string, Collection<D>>,
        order: seq<string>, reached: map<string, set<string>>, changed: set<string>, n: string)
    requires CollectionsOk(env, seen) && Unchanged(collected, now, invalidated, seen) && invalidated <= changed
    requires Closures.Closed(Uses(now, reached), changed) && n in Winners(order, seen) && n !in changed
    ensures env.read.calls(Winners(order, seen)[n]) * changed == {}
  {
    var q := WinnerDefines(order, seen, n);
    assert CollectionOk(env, q, seen[q]);
    assert q in collected && now[q] == seen[q];
    assert Uses(now, reached)[q] == Closures.FileUse(now[q].defs.Keys, UsedBy(now, reached, q));
  }

  lemma Apart(some: set<string>, all: set<string>, changed: set<string>)
    requires some <= all && some * changed == {}
    ensures some <= all - changed
  {
    forall x | x in some ensures x !in changed {
      assert x !in some * changed;
    }
  }

  /** Names whose bodies call no changed function lead to no changed function. */
  lemma OutsideIsClosed<D>(read: Reader<D>, live: map<string, D>, used: set<string>, changed: set<string>, n: string)
    requires used * changed == {} && Within(read, live, used, n)
    requires forall m :: m in live && m !in changed ==> read.calls(live[m]) * changed == {}
    ensures n !in changed
  {
    var called := set m, x | m in live && x in read.calls(live[m]) :: x;
    var names := (used + called) - changed;
    forall m | m in names && m in live ensures read.calls(live[m]) <= names {
      assert read.calls(live[m]) <= called;
      Apart(read.calls(live[m]), used + called, changed);
    }
    Apart(used, used + called, changed);
    assert FollowsCalls(read, live, names);
  }

  /** What a file uses, directly or through what it calls, did not change if what it uses directly did not. */
  lemma WithinKept<C, K, M, V, D(!new), S, R>(env: Env<C, K, M, V, D, S, R>, collected: map<string, Collection<D>>,
        now: map<string, Collection<D>>, invalidated: set<string>, seen: map<string, Collection<D>>,
        order: seq<string>, reached: map<string, set<string>>, changed: set<string>, p: string, n: string)
    requires CollectionsOk(env, seen) && Unchanged(collected, now, invalidated, seen) && invalidated <= changed
    requires Closures.Closed(Uses(now, reached), changed) && UsedBy(now, reached, p) * changed == {}
    requires Within(env.read, Winners(order, seen), UsedBy(now, reached, p), n)
    ensures n !in changed
  {
    var live := Winners(order, seen);
    forall m | m in live && m !in changed ensures env.read.calls(live[m]) * changed == {} {
      CallsKept(env, collected, now, invalidated, seen, order, reached, changed, m);
    }
    OutsideIsClosed(env.read, live, UsedBy(now, reached, p), changed, n);
  }

  /** A function that is not among the changed is the same in both tables, unless its facts changed in a hidden way. */
  lemma FunctionKept<C, K, M, V, D(!new), S, R>(env: Env<C, K, M, V, D, S, R>, files: seq<(string, C)>, k: K,
        collected: map<string, Collection<D>>, now: map<string, Collection<D>>, invalidated: set<string>,
        seen: map<string, Collection<D>>, order: seq<string>, moved: bool, t: Tables<V, D, S>, rets: map<string, V>,
        shared: S, n: string)
    requires CollectedOk(env, files, k, collected) && Complete(env, files, k, now)
    requires History(files, collected, invalidated, seen, order, moved)
    requires t == Merge(t.visible, t.shared, order, seen) && t.rebound == Rebound(now)
    requires CollectionsOk(env, now) && CollectionsOk(env, seen) && t.visible.Keys == Names(seen) == rets.Keys
    requires n in t.visible && n !in Direct(t.visible, rets) && n !in invalidated
    requires !(FactsChange(collected, now, seen, n) && Hidden(env, collected, now, seen, n))
    ensures SameFunction(t, Merge(rets, shared, Paths(files), now), n)
  {
    NothingElse(env, files, k, collected, now, invalidated, seen, order, moved);
    OnlyHiddenChanges(env, collected, now, invalidated, seen, n);
    DefinersKept(env, files, k, collected, now, invalidated, seen, order, moved, n);
  }

  /** A function that an untouched file uses, directly or through what it calls, did not change. */
  lemma UsedKept<C, K, M, V(!new), D(!new), S, R>(env: Env<C, K, M, V, D, S, R>, collected: map<string, Collection<D>>,
        now: map<string, Collection<D>>, file: (string, C), dirty: set<string>, invalidated: set<string>,
        seen: map<string, Collection<D>>, order: seq<string>, prev: Prev<V, S>, reached: map<string, set<string>>,
        rets: map<string, V>, shared: S, n: string)
    requires CollectionsOk(env, seen) && Unchanged(collected, now, invalidated, seen)
    requires Untouched(file, now, dirty, invalidated, prev, reached, rets, shared)
    requires n in Methods(now) || Within(env.read, Winners(order, seen), UsedBy(now, reached, file.0), n)
    ensures n !in Direct(prev.visible, rets) && n !in invalidated
  {
    var changed :| Spared(now, reached, invalidated, prev.visible, rets, file.0, changed);
    if n !in Methods(now) {
      WithinKept(env, collected, now, invalidated, seen, order, reached, changed, file.0, n);
    }
  }

  /** What emission looks at is the same for an untouched file, unless the check overlooks a change. */
  lemma LookKept<C, K, M, V(!new), D(!new), S, R>(env: Env<C, K, M, V, D, S, R>, files: seq<(string, C)>, i: nat, k: K,
        m: M, collected: map<string, Collection<D>>, now: map<string, Collection<D>>, dirty: set<string>,
        invalidated: set<string>, seen: map<string, Collection<D>>, order: seq<string>, moved: bool, prev: Prev<V, S>,
        reached: map<string, set<string>>, src: Sources<C>, t: Tables<V, D, S>, rets: map<string, V>, shared: S,
        n: string)
    requires i < |files| && CollectedOk(env, files, k, collected) && Complete(env, files, k, now)
    requires History(files, collected, invalidated, seen, order, moved)
    requires prev == Prev(t.visible, t.rebound, t.shared) && t == Merge(t.visible, t.shared, order, seen)
    requires CollectionsOk(env, now) && CollectionsOk(env, seen) && t.visible.Keys == Names(seen)
    requires Untouched(files[i], now, dirty, invalidated, prev, reached, rets, shared)
    requires env.emit(files[i].0, files[i].1, k, m, src, t).reached == reached[files[i].0]
    requires t.methods == Methods(now)
    requires !Overlooks(env, files[i], k, collected, now, seen, reached, t, Merge(rets, shared, Paths(files), now))
    requires n in t.visible && Looks(env, files[i].0, files[i].1, k, m, src, t, n)
    ensures SameFunction(t, Merge(rets, shared, Paths(files), now), n)
  {
    var p, t' := files[i].0, Merge(rets, shared, Paths(files), now);
    assert !UnaskedChange(env, now, t, t', p, n) && !HiddenFrom(env, collected, now, seen, reached, t, p, n);
    assert now[p] == env.collect(p, files[i].1, k);
    if n !in DefsOf(now, p) && !env.screened(n) {
      NothingElse(env, files, k, collected, now, invalidated, seen, order, moved);
      UsedKept(env, collected, now, files[i], dirty, invalidated, seen, order, prev, reached, rets, shared, n);
      FunctionKept(env, files, k, collected, now, invalidated, seen, order, moved, t, rets, shared, n);
    }
  }

  /** A reused entry is what emitting the file on the new tables would give. */
  lemma ReuseIsFresh<C(!new), K(!new), M(!new), V(!new), D(!new), S(!new), R(!new)>(env: Env<C, K, M, V, D, S, R>,
        files: seq<(string, C)>, i: nat, k: K, m: M, collected: map<string, Collection<D>>,
        now: map<string, Collection<D>>, dirty: set<string>, invalidated: set<string>,
        seen: map<string, Collection<D>>, order: seq<string>, moved: bool, prev: Prev<V, S>,
        diagnostics: map<string, R>, reached: map<string, set<string>>, src: Sources<C>, t: Tables<V, D, S>,
        src': Sources<C>, rets: map<string, V>, shared: S)
    requires EmitOk(env) && i < |files|
    requires CollectedOk(env, files, k, collected) && Complete(env, files, k, now)
    requires History(files, collected, invalidated, seen, order, moved)
    requires prev == Prev(t.visible, t.rebound, t.shared) && t == Merge(t.visible, t.shared, order, seen)
    requires CollectionsOk(env, now) && CollectionsOk(env, seen) && t.visible.Keys == Names(seen)
    requires FreshEntry(env, files[i], k, m, diagnostics, reached, src, t)
    requires SameSources(env, files[i].0, files[i].1, src, src')
    requires Untouched(files[i], now, dirty, invalidated, prev, reached, rets, shared)
    requires rets.Keys == Names(now)
    requires !Overlooks(env, files[i], k, collected, now, seen, reached, t, Merge(rets, shared, Paths(files), now))
    ensures FreshEntry(env, files[i], k, m, diagnostics, reached, src', Merge(rets, shared, Paths(files), now))
  {
    var t' := Merge(rets, shared, Paths(files), now);
    var p, c := files[i].0, files[i].1;
    NothingElse(env, files, k, collected, now, invalidated, seen, order, moved);
    MethodsKept(env, collected, now, invalidated, seen, reached, t, t', files[i], k);
    forall n | n in t.visible && Looks(env, p, c, k, m, src, t, n) ensures SameFunction(t, t', n) {
      LookKept(env, files, i, k, m, collected, now, dirty, invalidated, seen, order, moved, prev, reached, src, t, rets,
               shared, n);
    }
    assert SameView(env, p, c, k, m, src, t, src', t');
  }

  /** A clean file has an entry, and unless the entry is out of date it is what emission gives now. */
  ghost predicate GoodEntry<C, K, M, V, D, S, R(!new)>(env: Env<C, K, M, V, D, S, R>, file: (string, C), k: K, m: M,
        dirty: set<string>, stale: set<string>, diagnostics: map<string, R>, reached: map<string, set<string>>,
        src: Sources<C>, t: Tables<V, D, S>, current: Sources<C>)
  {
    file.0 !in dirty ==>
      && file.0 in diagnostics && file.0 in reached
      && (file.0 !in stale ==>
            && FreshEntry(env, file, k, m, diagnostics, reached, src, t)
            && SameSources(env, file.0, file.1, src, current))
  }

  ghost predicate Entries<C, K, M, V, D, S, R(!new)>(env: Env<C, K, M, V, D, S, R>, files: seq<(string, C)>, k: K,
        m: M, dirty: set<string>, stale: set<string>, diagnostics: map<string, R>, reached: map<string, set<string>>,
        src: Sources<C>, t: Tables<V, D, S>, current: Sources<C>)
  {
    forall i {:trigger files[i]} :: 0 <= i < |files| ==>
      GoodEntry(env, files[i], k, m, dirty, stale, diagnostics, reached, src, t, current)
  }

  /**
   * The clean files of a new list were in the old one, and the sources did not change under those that load modules.
   */
  lemma EntriesKept<C, K, M, V, D, S, R(!new)>(env: Env<C, K, M, V, D, S, R>, files: seq<(string, C)>,
        files': seq<(string, C)>, k: K, m: M, dirty: set<string>, dirty': set<string>, stale: set<string>,
        stale': set<string>, diagnostics: map<string, R>, reached: map<string, set<string>>, src: Sources<C>,
        t: Tables<V, D, S>, current: Sources<C>, current': Sources<C>)
    requires Entries(env, files, k, m, dirty, stale, diagnostics, reached, src, t, current)
    requires dirty <= dirty' && stale <= stale'
    requires forall f :: f in files' && f.0 !in dirty' ==> f in files
    requires forall f :: f in files' && f.0 !in dirty' && f.0 !in stale' && SameSources(env, f.0, f.1, src, current) ==>
      SameSources(env, f.0, f.1, src, current')
    ensures Entries(env, files', k, m, dirty', stale', diagnostics, reached, src, t, current')
  {
    forall i | 0 <= i < |files'|
      ensures GoodEntry(env, files'[i], k, m, dirty', stale', diagnostics, reached, src, t, current')
    {
      if files'[i].0 !in dirty' {
        assert files'[i] in files';
        var j :| 0 <= j < |files| && files[j] == files'[i];
      }
    }
  }

  lemma AppendCollected<C, K, M, V, D(!new), S, R>(env: Env<C, K, M, V, D, S, R>, files: seq<(string, C)>,
        file: (string, C), k: K, collected: map<string, Collection<D>>)
    requires CollectedOk(env, files, k, collected) && !PathIn(files, file.0)
    ensures CollectedOk(env, files + [file], k, collected)
  {
    var more := files + [file];
    assert forall i :: 0 <= i < |files| ==> more[i] == files[i];
    forall p | p in collected ensures PathIn(more, p) {
      var i :| 0 <= i < |files| && files[i].0 == p;
      assert more[i].0 == p;
    }
  }

  lemma IndexFound<C>(files: seq<(string, C)>, path: string, i: nat)
    requires UniquePaths(files) && i < |files| && files[i].0 == path
    ensures PathIn(files, path) && IndexOf(files, path) == i
  {
  }

  /** The list after an update. */
  function Updated<C>(files: seq<(string, C)>, path: string, c: C): seq<(string, C)> {
    if PathIn(files, path) then files[IndexOf(files, path) := (path, c)] else files + [(path, c)]
  }

  lemma UpdatedFiles<C>(files: seq<(string, C)>, path: string, c: C)
    ensures forall f :: f in Updated(files, path, c) && f.0 != path ==> f in files
  {
  }

  lemma UpdateCollected<C, K, M, V, D(!new), S, R>(env: Env<C, K, M, V, D, S, R>, files: seq<(string, C)>,
        path: string, c: C, k: K, collected: map<string, Collection<D>>)
    requires CollectedOk(env, files, k, collected)
    ensures CollectedOk(env, Updated(files, path, c), k, collected - {path})
  {
    var more := Updated(files, path, c);
    forall p | p in collected && p != path ensures PathIn(more, p) {
      var i :| 0 <= i < |files| && files[i].0 == p;
      assert more[i].0 == p;
    }
  }

  lemma UpdateHistory<C, D(!new)>(files: seq<(string, C)>, path: string, c: C, collected: map<string, Collection<D>>,
        invalidated: set<string>, seen: map<string, Collection<D>>, order: seq<string>, moved: bool)
    requires History(files, collected, invalidated, seen, order, moved)
    requires forall p :: p in collected ==> PathIn(files, p)
    ensures History(Updated(files, path, c), collected - {path}, invalidated + DefsOf(collected, path), seen, order,
                    moved)
  {
    if PathIn(files, path) {
      ReplaceHistory(files, IndexOf(files, path), c, collected, invalidated, seen, order, moved);
    } else {
      AppendHistory(files, (path, c), collected, invalidated, seen, order, moved);
      assert collected - {path} == collected;
    }
  }

  lemma SortCollected<C, K, M, V, D(!new), S, R>(env: Env<C, K, M, V, D, S, R>, files: seq<(string, C)>,
        sorted: seq<(string, C)>, k: K, collected: map<string, Collection<D>>)
    requires CollectedOk(env, files, k, collected) && UniquePaths(sorted)
    requires forall f :: f in sorted <==> f in files
    requires forall p :: PathIn(sorted, p) <==> PathIn(files, p)
    ensures CollectedOk(env, sorted, k, collected)
  {
    forall i | 0 <= i < |sorted| && sorted[i].0 in collected
      ensures collected[sorted[i].0] == env.collect(sorted[i].0, sorted[i].1, k)
    {
      assert sorted[i] in files;
      var j :| 0 <= j < |files| && files[j] == sorted[i];
      assert files[j].0 in collected;
    }
  }

  lemma RemoveCollected<C, K, M, V, D(!new), S, R>(env: Env<C, K, M, V, D, S, R>, files: seq<(string, C)>,
        path: string, kept: seq<(string, C)>, k: K, collected: map<string, Collection<D>>)
    requires UniquePaths(kept) && path !in collected && forall f :: f in kept <==> f in files && f.0 != path
    requires forall p :: p in collected ==> PathIn(files, p)
    requires forall i :: 0 <= i < |files| && files[i].0 in collected ==>
      collected[files[i].0] == env.collect(files[i].0, files[i].1, k)
    ensures CollectedOk(env, kept, k, collected)
  {
    forall p | p in collected ensures PathIn(kept, p) {
      var i :| 0 <= i < |files| && files[i].0 == p;
      assert files[i] in kept;
      var j :| 0 <= j < |kept| && kept[j] == files[i];
      assert kept[j].0 == p;
    }
    forall i | 0 <= i < |kept| && kept[i].0 in collected
      ensures collected[kept[i].0] == env.collect(kept[i].0, kept[i].1, k)
    {
      assert kept[i] in files;
      var j :| 0 <= j < |files| && files[j] == kept[i];
      assert files[j].0 in collected;
    }
  }

  /** The files without one path, in their order. */
  function Without<C>(files: seq<(string, C)>, path: string): seq<(string, C)> {
    if files == [] then []
    else
      var last := files[|files| - 1];
      Without(files[..|files| - 1], path) + if last.0 == path then [] else [last]
  }

  lemma {:induction false} WithoutPath<C>(files: seq<(string, C)>, path: string, f: (string, C))
    ensures f in Without(files, path) <==> f in files && f.0 != path
  {
    if files != [] {
      WithoutPath(files[..|files| - 1], path, f);
      assert files == files[..|files| - 1] + [files[|files| - 1]];
    }
  }

  lemma {:induction false} WithoutUnique<C>(files: seq<(string, C)>, path: string)
    requires UniquePaths(files)
    ensures UniquePaths(Without(files, path))
    ensures forall f :: f in Without(files, path) <==> f in files && f.0 != path
  {
    forall f ensures f in Without(files, path) <==> f in files && f.0 != path {
      WithoutPath(files, path, f);
    }
    if files != [] {
      var before, last := files[..|files| - 1], files[|files| - 1];
      WithoutUnique(before, path);
      var kept := Without(before, path);
      forall i | 0 <= i < |kept| ensures kept[i].0 != last.0 {
        WithoutPath(before, path, kept[i]);
        var j :| 0 <= j < |before| && before[j] == kept[i];
        assert files[j] == before[j];
      }
    }
  }

  /** Every file's collection of its current contents. */
  function AllCollected<C, K, M, V, D, S, R>(env: Env<C, K, M, V, D, S, R>, files: seq<(string, C)>,
        k: K): map<string, Collection<D>> {
    if files == [] then map[]
    else
      var last := files[|files| - 1];
      AllCollected(env, files[..|files| - 1], k)[last.0 := env.collect(last.0, last.1, k)]
  }

  lemma {:induction false} AllComplete<C, K, M, V, D(!new), S, R>(env: Env<C, K, M, V, D, S, R>,
        files: seq<(string, C)>, k: K)
    requires UniquePaths(files)
    ensures forall p :: p in AllCollected(env, files, k) <==> PathIn(files, p)
    ensures forall i :: 0 <= i < |files| ==>
      files[i].0 in AllCollected(env, files, k)
        && AllCollected(env, files, k)[files[i].0] == env.collect(files[i].0, files[i].1, k)
  {
    if files != [] {
      var before := files[..|files| - 1];
      AllComplete(env, before, k);
      forall p ensures p in AllCollected(env, files, k) <==> PathIn(files, p) {
        if i :| 0 <= i < |files| && files[i].0 == p {
          assert i < |before| ==> before[i].0 == p;
        }
        if i :| 0 <= i < |before| && before[i].0 == p {
          assert files[i].0 == p;
        }
      }
      forall i | 0 <= i < |before|
        ensures AllCollected(env, files, k)[files[i].0] == env.collect(files[i].0, files[i].1, k)
      {
        assert files[i] == before[i] && files[i].0 != files[|before|].0;
      }
    }
  }

  /** The collections a check merges are those of all files. */
  lemma CompleteIsAll<C, K, M, V, D(!new), S, R>(env: Env<C, K, M, V, D, S, R>, files: seq<(string, C)>, k: K,
        now: map<string, Collection<D>>)
    requires Complete(env, files, k, now)
    ensures now == AllCollected(env, files, k)
  {
    AllComplete(env, files, k);
    forall p | p in now ensures p in AllCollected(env, files, k) && now[p] == AllCollected(env, files, k)[p] {
      var i :| 0 <= i < |files| && files[i].0 == p;
    }
    forall p | p in AllCollected(env, files, k) ensures p in now {
      var i :| 0 <= i < |files| && files[i].0 == p;
    }
  }

  lemma AllCollectionsOk<C(!new), K(!new), M, V, D(!new), S, R>(env: Env<C, K, M, V, D, S, R>, files: seq<(string, C)>,
        k: K, now: map<string, Collection<D>>)
    requires CollectOk(env) && Complete(env, files, k, now)
    ensures CollectionsOk(env, now)
  {
    forall p | p in now ensures CollectionOk(env, p, now[p]) {
      var i :| 0 <= i < |files| && files[i].0 == p;
      assert now[p] == env.collect(p, files[i].1, k);
    }
  }

  // ---------------------------------------------------------------------------------------------
  // Which files are emitted
  // ---------------------------------------------------------------------------------------------

  /** Something changed that can reach every file. */
  predicate EmitsAll<V(==), S(==)>(prev: Option<Prev<V, S>>, rets: map<string, V>, rebound: set<Key>, shared: S) {
    prev.None? || prev.value.shared != shared || prev.value.rebound != rebound || prev.value.visible.Keys != rets.Keys
  }

  /** The files that use a changed function; a change may reach every file when there are methods. */
  function Users<C, D>(files: seq<(string, C)>, now: map<string, Collection<D>>, reached: map<string, set<string>>,
        changed: set<string>): set<string>
  {
    set i | 0 <= i < |files| && Reached(now, reached, files[i].0, changed) :: files[i].0
  }

  predicate Reached<D>(now: map<string, Collection<D>>, reached: map<string, set<string>>, p: string,
        changed: set<string>)
  {
    (changed != {} && Methods(now) != {}) || UsedBy(now, reached, p) * changed != {}
  }

  /** Exactly the files a check emits. */
  ghost predicate MustBe<C, K, M, V, D, S, R>(env: Env<C, K, M, V, D, S, R>, s: State<C, K, M, V, D, S, R>,
        now: map<string, Collection<D>>, rets: map<string, V>, shared: S, must: set<string>)
  {
    if EmitsAll(s.prev, rets, Rebound(now), shared) then must == set i | 0 <= i < |s.files| :: s.files[i].0
    else exists changed :: IsChanged(now, s.reached, s.invalidated, s.prev.value.visible, rets, changed)
                        && must == s.dirty + Users(s.files, now, s.reached, changed)
  }

  /**
   * An edit that changes returns and signatures only of names the edited files had, and nobody uses, emits those alone.
   */
  lemma OnlyDirtyEmitted<C, K, M, V, D, S, R>(env: Env<C, K, M, V, D, S, R>, s: State<C, K, M, V, D, S, R>,
        now: map<string, Collection<D>>, rets: map<string, V>, shared: S, must: set<string>)
    requires !EmitsAll(s.prev, rets, Rebound(now), shared) && MustBe(env, s, now, rets, shared, must)
    requires Direct(s.prev.value.visible, rets) <= s.invalidated && (s.invalidated == {} || Methods(now) == {})
    requires forall p :: UsedBy(now, s.reached, p) * s.invalidated == {}
    ensures must == s.dirty
  {
    var changed :| IsChanged(now, s.reached, s.invalidated, s.prev.value.visible, rets, changed)
                && must == s.dirty + Users(s.files, now, s.reached, changed);
    assert Closures.Closed(Uses(now, s.reached), s.invalidated);
    assert changed == s.invalidated;
    assert Users(s.files, now, s.reached, changed) == {};
  }

  // ---------------------------------------------------------------------------------------------
  // What every operation keeps
  // ---------------------------------------------------------------------------------------------

  /** A project's fields, and what is remembered of the last emission: its tables, sources, file order and collections,
      whether files moved since, and the files whose cache entry may be out of date. */
  datatype State<C(==), K, M, V, D, S, R> = State(
    files: seq<(string, C)>,
    collecting: K,
    metadata: M,
    open: set<string>,
    collected: map<string, Collection<D>>,
    dirty: set<string>,
    invalidated: set<string>,
    prev: Option<Prev<V, S>>,
    reached: map<string, set<string>>,
    diagnostics: map<string, R>,
    tables: Tables<V, D, S>,
    sources: Sources<C>,
    order: seq<string>,
    seen: map<string, Collection<D>>,
    moved: bool,
    stale: set<string>)

  ghost function Current<C, K, M, V, D, S, R>(s: State<C, K, M, V, D, S, R>): Sources<C> {
    Sources(s.files, s.open)
  }

  ghost predicate EntriesOk<C, K, M, V, D, S, R(!new)>(env: Env<C, K, M, V, D, S, R>, s: State<C, K, M, V, D, S, R>) {
    Entries(env, s.files, s.collecting, s.metadata, s.dirty, s.stale, s.diagnostics, s.reached, s.sources, s.tables,
            Current(s))
  }

  ghost predicate HistoryOk<C, K, M, V, D(!new), S, R>(s: State<C, K, M, V, D, S, R>) {
    AllDirty(s.files, s.dirty) || History(s.files, s.collected, s.invalidated, s.seen, s.order, s.moved)
  }

  ghost predicate StateOk<C, K, M, V(!new), D(!new), S(!new), R(!new)>(env: Env<C, K, M, V, D, S, R>,
        s: State<C, K, M, V, D, S, R>) {
    && CollectedOk(env, s.files, s.collecting, s.collected)
    && (s.prev.Some? ==>
          && s.prev.value == Prev(s.tables.visible, s.tables.rebound, s.tables.shared)
          && s.tables.visible.Keys == Names(s.seen) && CollectionsOk(env, s.seen)
          && s.tables == Merge(s.tables.visible, s.tables.shared, s.order, s.seen)
          && EntriesOk(env, s) && HistoryOk(s))
  }

  /** `StateOk`, kept closed. */
  ghost predicate Sealed<C, K, M, V(!new), D(!new), S(!new), R(!new)>(env: Env<C, K, M, V, D, S, R>,
        s: State<C, K, M, V, D, S, R>) {
    forall k {:trigger Seal(k)} :: Seal(k) ==> StateOk(env, s)
  }

  lemma Open<C, K, M, V(!new), D(!new), S(!new), R(!new)>(env: Env<C, K, M, V, D, S, R>, s: State<C, K, M, V, D, S, R>)
    requires Sealed(env, s)
    ensures StateOk(env, s)
  {
    assert Seal(0);
  }

  /** The clean files whose modules were looked up at the path. */
  ghost function Importers<C, K, M, V, D, S, R>(env: Env<C, K, M, V, D, S, R>, files: seq<(string, C)>,
        dirty: set<string>, src: Sources<C>, path: string): set<string> {
    set f | f in files && f.0 !in dirty && env.usesBox(f.1) && path in env.imports(f.0, f.1, src) :: f.0
  }

  lemma PathAppended<C>(files: seq<(string, C)>, file: (string, C), q: string)
    ensures PathIn(files + [file], q) <==> PathIn(files, q) || file.0 == q
  {
    var more := files + [file];
    assert more[|files|] == file;
    if i :| 0 <= i < |files| && files[i].0 == q {
      assert more[i].0 == q;
    }
  }

  lemma LookupAppended<C>(src: Sources<C>, path: string, c: C, q: string)
    ensures Lookup(src.(files := src.files + [(path, c)]), q) == if q == path then Checked(c) else Lookup(src, q)
  {
    var more := src.files + [(path, c)];
    PathAppended(src.files, (path, c), q);
    assert more[|more| - 1] == (path, c) && more[..|more| - 1] == src.files;
    if q == path {
      assert IndexOf(more, q) == |more| - 1;
    } else if PathIn(src.files, q) {
      assert IndexOf(more, q) == IndexOf(src.files, q);
    }
  }

  /**
   * A file that is added changes what another file's modules are looked up at exactly when one was looked up at its
   * path. Until then, and for every other file, the view of the sources is the same before and after.
   */
  lemma AdditionSeen<C, K, M, V, D, S, R>(env: Env<C, K, M, V, D, S, R>, f: (string, C), src: Sources<C>,
        current: Sources<C>, path: string, c: C)
    requires SameSources(env, f.0, f.1, src, current) && !PathIn(current.files, path)
    ensures SameSources(env, f.0, f.1, src, current.(files := current.files + [(path, c)])) <==>
      !(env.usesBox(f.1) && path in env.imports(f.0, f.1, src))
  {
    forall q {
      LookupAppended(current, path, c, q);
    }
  }

  ghost predicate AnyBox<C, K, M, V, D, S, R>(env: Env<C, K, M, V, D, S, R>, files: seq<(string, C)>) {
    exists i :: 0 <= i < |files| && env.usesBox(files[i].1)
  }

  lemma BoxesDirty<C, K, M, V, D, S, R>(env: Env<C, K, M, V, D, S, R>, files: seq<(string, C)>, dirty: set<string>)
    requires AnyBox(env, files) ==> AllDirty(files, dirty)
    ensures forall f :: f in files && env.usesBox(f.1) ==> f.0 in dirty
  {
    forall f | f in files && env.usesBox(f.1) ensures f.0 in dirty {
      var i :| 0 <= i < |files| && files[i] == f;
      assert AnyBox(env, files);
    }
  }

  /** After an addition. */
  ghost function AfterAdd<C, K, M, V, D, S, R>(env: Env<C, K, M, V, D, S, R>, s: State<C, K, M, V, D, S, R>,
        path: string, c: C): State<C, K, M, V, D, S, R>
  {
    s.(files := s.files + [(path, c)], dirty := s.dirty + {path},
       stale := s.stale + if s.prev.None? then {} else Importers(env, s.files, s.dirty, s.sources, path))
  }

  lemma AddEntries<C, K, M, V, D, S, R(!new)>(env: Env<C, K, M, V, D, S, R>, s: State<C, K, M, V, D, S, R>,
        path: string, c: C)
    requires EntriesOk(env, s) && s.prev.Some? && !PathIn(s.files, path)
    ensures EntriesOk(env, AfterAdd(env, s, path, c))
  {
    var s' := AfterAdd(env, s, path, c);
    assert Current(s') == Current(s).(files := s.files + [(path, c)]);
    forall f | f in s'.files && f.0 !in s'.dirty && f.0 !in s'.stale
               && SameSources(env, f.0, f.1, s.sources, Current(s))
      ensures SameSources(env, f.0, f.1, s.sources, Current(s'))
    {
      assert f in s.files;
      AdditionSeen(env, f, s.sources, Current(s), path, c);
    }
    EntriesKept(env, s.files, s'.files, s.collecting, s.metadata, s.dirty, s'.dirty, s.stale, s'.stale, s.diagnostics,
                s.reached, s.sources, s.tables, Current(s), Current(s'));
  }

  lemma AddOk<C, K, M, V(!new), D(!new), S(!new), R(!new)>(env: Env<C, K, M, V, D, S, R>,
        s: State<C, K, M, V, D, S, R>, path: string, c: C)
    requires Sealed(env, s) && !PathIn(s.files, path)
    ensures Sealed(env, AfterAdd(env, s, path, c))
  {
    Open(env, s);
    AppendCollected(env, s.files, (path, c), s.collecting, s.collected);
    if s.prev.Some? {
      if !AllDirty(s.files, s.dirty) {
        AppendHistory(s.files, (path, c), s.collected, s.invalidated, s.seen, s.order, s.moved);
      }
      AddEntries(env, s, path, c);
    }
  }

  /** After an update; `dirty` is every file if some file may load box modules. */
  ghost function AfterUpdate<C, K, M, V, D, S, R>(s: State<C, K, M, V, D, S, R>, path: string, c: C,
        dirty: set<string>): State<C, K, M, V, D, S, R> {
    s.(files := Updated(s.files, path, c), dirty := dirty, collected := s.collected - {path},
       invalidated := s.invalidated + DefsOf(s.collected, path))
  }

  lemma UpdateOk<C, K, M, V(!new), D(!new), S(!new), R(!new)>(env: Env<C, K, M, V, D, S, R>,
        s: State<C, K, M, V, D, S, R>, path: string, c: C, dirty: set<string>)
    requires Sealed(env, s) && s.dirty <= dirty && path in dirty
    requires AnyBox(env, Updated(s.files, path, c)) ==> AllDirty(Updated(s.files, path, c), dirty)
    ensures Sealed(env, AfterUpdate(s, path, c, dirty))
  {
    Open(env, s);
    var s' := AfterUpdate(s, path, c, dirty);
    UpdateCollected(env, s.files, path, c, s.collecting, s.collected);
    if s.prev.Some? {
      if !AllDirty(s.files, s.dirty) {
        UpdateHistory(s.files, path, c, s.collected, s.invalidated, s.seen, s.order, s.moved);
      }
      UpdatedFiles(s.files, path, c);
      UpdateEntries(env, s, path, c, dirty);
      assert HistoryOk(s');
    }
  }

  lemma UpdateEntries<C, K, M, V, D, S, R(!new)>(env: Env<C, K, M, V, D, S, R>, s: State<C, K, M, V, D, S, R>,
        path: string, c: C, dirty: set<string>)
    requires EntriesOk(env, s) && s.dirty <= dirty && path in dirty
    requires AnyBox(env, Updated(s.files, path, c)) ==> AllDirty(Updated(s.files, path, c), dirty)
    ensures EntriesOk(env, AfterUpdate(s, path, c, dirty))
  {
    var s' := AfterUpdate(s, path, c, dirty);
    UpdatedFiles(s.files, path, c);
    BoxesDirty(env, s'.files, dirty);
    EntriesKept(env, s.files, s'.files, s.collecting, s.metadata, s.dirty, dirty, s.stale, s.stale, s.diagnostics,
                s.reached, s.sources, s.tables, Current(s), Current(s'));
  }

  lemma LookupSorted<C>(files: seq<(string, C)>, sorted: seq<(string, C)>, open: set<string>, q: string)
    requires UniquePaths(files) && UniquePaths(sorted) && forall f :: f in sorted <==> f in files
    ensures Lookup(Sources(files, open), q) == Lookup(Sources(sorted, open), q)
  {
    if i :| 0 <= i < |files| && files[i].0 == q {
      IndexFound(files, q, i);
      assert files[i] in sorted;
      var j :| 0 <= j < |sorted| && sorted[j] == files[i];
      IndexFound(sorted, q, j);
    }
    if j :| 0 <= j < |sorted| && sorted[j].0 == q {
      assert sorted[j] in files;
      var i :| 0 <= i < |files| && files[i] == sorted[j];
    }
  }

  /** After a move; a name defined in more than one collected file may get another winner. */
  ghost function AfterMove<C, K, M, V, D, S, R>(s: State<C, K, M, V, D, S, R>, wanted: seq<string>,
        dirty: set<string>): State<C, K, M, V, D, S, R> {
    s.(files := StableSort(s.files, wanted), dirty := dirty, invalidated := s.invalidated + Shadowed(s.collected),
       moved := true)
  }

  lemma MoveOk<C, K, M, V(!new), D(!new), S(!new), R(!new)>(env: Env<C, K, M, V, D, S, R>,
        s: State<C, K, M, V, D, S, R>, wanted: seq<string>, dirty: set<string>)
    requires Sealed(env, s) && s.dirty <= dirty
    ensures Sealed(env, AfterMove(s, wanted, dirty))
  {
    Open(env, s);
    var sorted := StableSort(s.files, wanted);
    SortedPaths(s.files, wanted);
    SortCollected(env, s.files, sorted, s.collecting, s.collected);
    if s.prev.Some? {
      if AllDirty(s.files, s.dirty) {
        AllDirtySorted(s.files, wanted, s.dirty);
        assert AllDirty(sorted, dirty);
      } else {
        MoveHistory(s.files, wanted, s.collected, s.invalidated, s.seen, s.order, s.moved);
      }
      MoveEntries(env, s, wanted, dirty);
    }
  }

  lemma MoveEntries<C, K, M, V, D, S, R(!new)>(env: Env<C, K, M, V, D, S, R>, s: State<C, K, M, V, D, S, R>,
        wanted: seq<string>, dirty: set<string>)
    requires EntriesOk(env, s) && s.dirty <= dirty && UniquePaths(s.files)
    ensures EntriesOk(env, AfterMove(s, wanted, dirty))
  {
    var s' := AfterMove(s, wanted, dirty);
    SortedPaths(s.files, wanted);
    forall q {
      LookupSorted(s.files, s'.files, s.open, q);
    }
    EntriesKept(env, s.files, s'.files, s.collecting, s.metadata, s.dirty, dirty, s.stale, s.stale, s.diagnostics,
                s.reached, s.sources, s.tables, Current(s), Current(s'));
  }

  lemma AllDirtySorted<C>(files: seq<(string, C)>, wanted: seq<string>, dirty: set<string>)
    requires AllDirty(files, dirty)
    ensures AllDirty(StableSort(files, wanted), dirty)
  {
    var sorted := StableSort(files, wanted);
    SortSorts(files, wanted);
    forall i | 0 <= i < |sorted| ensures sorted[i].0 in dirty {
      SameElements(sorted, files, sorted[i]);
      var j :| 0 <= j < |files| && files[j] == sorted[i];
    }
  }

  /** With every file dirty nothing is reused, so nothing else matters. */
  lemma AllDirtyOk<C, K, M, V(!new), D(!new), S(!new), R(!new)>(env: Env<C, K, M, V, D, S, R>,
        s: State<C, K, M, V, D, S, R>, s': State<C, K, M, V, D, S, R>)
    requires Sealed(env, s) && AllDirty(s'.files, s'.dirty) && CollectedOk(env, s'.files, s'.collecting, s'.collected)
    requires s'.prev == s.prev && s'.tables == s.tables && s'.order == s.order && s'.seen == s.seen
    ensures Sealed(env, s')
  {
    Open(env, s);
  }

  lemma OpenBuffersOk<C, K, M, V(!new), D(!new), S(!new), R(!new)>(env: Env<C, K, M, V, D, S, R>,
        s: State<C, K, M, V, D, S, R>, open: set<string>, dirty: set<string>)
    requires Sealed(env, s) && s.dirty <= dirty && (AnyBox(env, s.files) ==> AllDirty(s.files, dirty))
    ensures Sealed(env, s.(open := open, dirty := dirty))
  {
    Open(env, s);
    var s' := s.(open := open, dirty := dirty);
    if s.prev.Some? {
      BoxesDirty(env, s.files, dirty);
      EntriesKept(env, s.files, s.files, s.collecting, s.metadata, s.dirty, dirty, s.stale, s.stale, s.diagnostics,
                  s.reached, s.sources, s.tables, Current(s), Current(s'));
    }
  }

  lemma PathsOk<C, K, M, V(!new), D(!new), S(!new), R(!new)>(env: Env<C, K, M, V, D, S, R>,
        s: State<C, K, M, V, D, S, R>)
    requires Sealed(env, s)
    ensures CollectedOk(env, s.files, s.collecting, s.collected)
  {
    Open(env, s);
  }

  /** A file was emitted on the new tables, or keeps an entry that is what emission would give. */
  ghost predicate NewEntry<C, K, M, V, D, S, R(!new)>(env: Env<C, K, M, V, D, S, R>, file: (string, C), k: K, m: M,
        stale: set<string>, diagnostics: map<string, R>, reached: map<string, set<string>>, current: Sources<C>,
        t: Tables<V, D, S>)
  {
    && file.0 in diagnostics && file.0 in reached
    && (file.0 !in stale ==> FreshEntry(env, file, k, m, diagnostics, reached, current, t))
  }

  /** Something changed in file `i`'s view that the check does not look for. */
  ghost predicate Neglects<C, K, M, V, D(!new), S, R>(env: Env<C, K, M, V, D, S, R>, s: State<C, K, M, V, D, S, R>,
        now: map<string, Collection<D>>, rets: map<string, V>, shared: S, i: nat)
    requires i < |s.files|
  {
    Overlooks(env, s.files[i], s.collecting, s.collected, now, s.seen, s.reached, s.tables,
              Merge(rets, shared, Paths(s.files), now))
  }

  lemma FileReused<C(!new), K(!new), M(!new), V(!new), D(!new), S(!new), R(!new)>(env: Env<C, K, M, V, D, S, R>,
        s: State<C, K, M, V, D, S, R>, now: map<string, Collection<D>>, i: nat, rets: map<string, V>, shared: S)
    requires EmitOk(env) && Sealed(env, s) && s.prev.Some? && Complete(env, s.files, s.collecting, now)
    requires CollectionsOk(env, now) && rets.Keys == Names(now)
    requires i < |s.files| && s.files[i].0 !in s.stale
    requires Untouched(s.files[i], now, s.dirty, s.invalidated, s.prev.value, s.reached, rets, shared)
    requires !Neglects(env, s, now, rets, shared, i)
    ensures FreshEntry(env, s.files[i], s.collecting, s.metadata, s.diagnostics, s.reached, Current(s),
                       Merge(rets, shared, Paths(s.files), now))
  {
    Open(env, s);
    assert GoodEntry(env, s.files[i], s.collecting, s.metadata, s.dirty, s.stale, s.diagnostics, s.reached, s.sources,
                     s.tables, Current(s));
    ReuseIsFresh(env, s.files, i, s.collecting, s.metadata, s.collected, now, s.dirty, s.invalidated, s.seen, s.order,
                 s.moved, s.prev.value, s.diagnostics, s.reached, s.sources, s.tables, Current(s), rets, shared);
  }

  lemma CleanHasEntry<C, K, M, V(!new), D(!new), S(!new), R(!new)>(env: Env<C, K, M, V, D, S, R>,
        s: State<C, K, M, V, D, S, R>, i: nat)
    requires Sealed(env, s) && s.prev.Some? && i < |s.files| && s.files[i].0 !in s.dirty
    ensures s.files[i].0 in s.diagnostics && s.files[i].0 in s.reached
  {
    Open(env, s);
    assert GoodEntry(env, s.files[i], s.collecting, s.metadata, s.dirty, s.stale, s.diagnostics, s.reached, s.sources,
                     s.tables, Current(s));
  }

  /** The state after an emission. */
  ghost function AfterCheck<C, K, M, V, D, S, R>(s: State<C, K, M, V, D, S, R>, now: map<string, Collection<D>>,
        rets: map<string, V>, shared: S, diagnostics: map<string, R>, reached: map<string, set<string>>,
        stale: set<string>): State<C, K, M, V, D, S, R>
  {
    s.(collected := now, dirty := {}, invalidated := {}, prev := Some(Prev(rets, Rebound(now), shared)),
       reached := reached, diagnostics := diagnostics, tables := Merge(rets, shared, Paths(s.files), now),
       sources := Current(s), order := Paths(s.files), seen := now, moved := false, stale := stale)
  }

  lemma CheckOk<C, K, M, V(!new), D(!new), S(!new), R(!new)>(env: Env<C, K, M, V, D, S, R>,
        s: State<C, K, M, V, D, S, R>, now: map<string, Collection<D>>, rets: map<string, V>, shared: S,
        diagnostics: map<string, R>, reached: map<string, set<string>>, stale: set<string>)
    requires Complete(env, s.files, s.collecting, now) && CollectionsOk(env, now) && rets.Keys == Names(now)
    requires forall i :: 0 <= i < |s.files| ==>
      NewEntry(env, s.files[i], s.collecting, s.metadata, stale, diagnostics, reached, Current(s),
               Merge(rets, shared, Paths(s.files), now))
    ensures Sealed(env, AfterCheck(s, now, rets, shared, diagnostics, reached, stale))
  {
    var s' := AfterCheck(s, now, rets, shared, diagnostics, reached, stale);
    PathsDistinct(s.files);
    assert Current(s') == Current(s);
    assert History(s'.files, s'.collected, s'.invalidated, s'.seen, s'.order, s'.moved);
    forall i | 0 <= i < |s'.files|
      ensures GoodEntry(env, s'.files[i], s'.collecting, s'.metadata, s'.dirty, s'.stale, s'.diagnostics, s'.reached,
                        s'.sources, s'.tables, Current(s'))
    {
      assert NewEntry(env, s.files[i], s.collecting, s.metadata, stale, diagnostics, reached, Current(s), s'.tables);
    }
  }

  /** The entry emission or reuse leaves for file `i`. */
  ghost predicate EntryPlaced<C, K, M, V, D, S, R(!new)>(env: Env<C, K, M, V, D, S, R>, s: State<C, K, M, V, D, S, R>,
        must: set<string>, current: Sources<C>, t: Tables<V, D, S>, result: seq<(string, R)>,
        reached: map<string, set<string>>, i: nat)
    requires i < |s.files| && i < |result|
  {
    var p, c := s.files[i].0, s.files[i].1;
    && result[i].0 == p
    && (if p in must then
          && p in reached
          && Emission(result[i].1, reached[p]) == env.emit(p, c, s.collecting, s.metadata, current, t)
        else
          && (p in s.diagnostics ==> result[i].1 == s.diagnostics[p])
          && (p in s.reached ==> p in reached && reached[p] == s.reached[p]))
  }

  /**
   * Reusing the entry of file `i` may be wrong: it was out of date before, or something the check does not look for
   * changed.
   */
  ghost predicate MayBeStale<C, K, M, V, D(!new), S, R>(env: Env<C, K, M, V, D, S, R>, s: State<C, K, M, V, D, S, R>,
        now: map<string, Collection<D>>, rets: map<string, V>, shared: S, i: nat)
    requires i < |s.files|
  {
    s.files[i].0 in s.stale || Neglects(env, s, now, rets, shared, i)
  }

  /** The reused files whose entry may be out of date afterwards. */
  ghost predicate Missed<C, K, M, V, D(!new), S, R>(env: Env<C, K, M, V, D, S, R>, s: State<C, K, M, V, D, S, R>,
        must: set<string>, now: map<string, Collection<D>>, rets: map<string, V>, shared: S, i: nat)
    requires i < |s.files|
  {
    s.files[i].0 !in must && MayBeStale(env, s, now, rets, shared, i)
  }

  ghost function MissedFiles<C, K, M, V, D(!new), S, R>(env: Env<C, K, M, V, D, S, R>, s: State<C, K, M, V, D, S, R>,
        must: set<string>, now: map<string, Collection<D>>, rets: map<string, V>, shared: S): set<string>
  {
    set i | 0 <= i < |s.files| && Missed(env, s, must, now, rets, shared, i) :: s.files[i].0
  }

  lemma PlacedIsNew<C(!new), K(!new), M(!new), V(!new), D(!new), S(!new), R(!new)>(env: Env<C, K, M, V, D, S, R>,
        s: State<C, K, M, V, D, S, R>, now: map<string, Collection<D>>, rets: map<string, V>, shared: S,
        must: set<string>, result: seq<(string, R)>, diagnostics: map<string, R>, reached: map<string, set<string>>,
        i: nat)
    requires EmitOk(env) && Sealed(env, s) && Complete(env, s.files, s.collecting, now) && CollectionsOk(env, now)
    requires rets.Keys == Names(now)
    requires i < |s.files| == |result| && s.files[i].0 in diagnostics && diagnostics[s.files[i].0] == result[i].1
    requires s.files[i].0 !in must ==>
      s.prev.Some? && Untouched(s.files[i], now, s.dirty, s.invalidated, s.prev.value, s.reached, rets, shared)
    requires EntryPlaced(env, s, must, Current(s), Merge(rets, shared, Paths(s.files), now), result, reached, i)
    ensures NewEntry(env, s.files[i], s.collecting, s.metadata, MissedFiles(env, s, must, now, rets, shared),
                     diagnostics, reached, Current(s), Merge(rets, shared, Paths(s.files), now))
  {
    if s.files[i].0 !in must {
      CleanHasEntry(env, s, i);
      if !Missed(env, s, must, now, rets, shared, i) {
        FileReused(env, s, now, i, rets, shared);
      }
    }
  }

  /** Every file has its place in the result, the kept map and the reads. */
  ghost predicate AllPlaced<C, K, M, V, D, S, R(!new)>(env: Env<C, K, M, V, D, S, R>, s: State<C, K, M, V, D, S, R>,
        must: set<string>, current: Sources<C>, t: Tables<V, D, S>, result: seq<(string, R)>, kept: map<string, R>,
        read: map<string, set<string>>)
  {
    && |result| == |s.files|
    && forall i: nat {:trigger EntryPlaced(env, s, must, current, t, result, read, i)} :: i < |s.files| ==>
         && EntryPlaced(env, s, must, current, t, result, read, i)
         && s.files[i].0 in kept && kept[s.files[i].0] == result[i].1
  }

  /** Every file outside `must` was found untouched. */
  ghost predicate RestUntouched<C, K, M, V(!new), D(!new), S, R>(env: Env<C, K, M, V, D, S, R>,
        s: State<C, K, M, V, D, S, R>, must: set<string>, now: map<string, Collection<D>>, rets: map<string, V>,
        shared: S)
  {
    forall i :: 0 <= i < |s.files| && s.files[i].0 !in must ==>
      s.prev.Some? && Untouched(s.files[i], now, s.dirty, s.invalidated, s.prev.value, s.reached, rets, shared)
  }

  ghost function Emitted<C, K, M, V, D, S, R>(env: Env<C, K, M, V, D, S, R>, s: State<C, K, M, V, D, S, R>,
        t: Tables<V, D, S>, i: nat): R
    requires i < |s.files|
  {
    env.emit(s.files[i].0, s.files[i].1, s.collecting, s.metadata, Current(s), t).diagnostics
  }

  lemma PlacedSettles<C(!new), K(!new), M(!new), V(!new), D(!new), S(!new), R(!new)>(env: Env<C, K, M, V, D, S, R>,
        s: State<C, K, M, V, D, S, R>, now: map<string, Collection<D>>, rets: map<string, V>, shared: S,
        must: set<string>, result: seq<(string, R)>, kept: map<string, R>, read: map<string, set<string>>)
    requires EmitOk(env) && Sealed(env, s) && Complete(env, s.files, s.collecting, now) && CollectionsOk(env, now)
    requires rets.Keys == Names(now) && RestUntouched(env, s, must, now, rets, shared)
    requires AllPlaced(env, s, must, Current(s), Merge(rets, shared, Paths(s.files), now), result, kept, read)
    ensures Sealed(env, AfterCheck(s, now, rets, shared, kept, read, MissedFiles(env, s, must, now, rets, shared)))
    ensures forall i: nat :: i < |s.files| && s.files[i].0 !in MissedFiles(env, s, must, now, rets, shared) ==>
      result[i].1 == Emitted(env, s, Merge(rets, shared, Paths(s.files), now), i)
  {
    var t, missed := Merge(rets, shared, Paths(s.files), now), MissedFiles(env, s, must, now, rets, shared);
    forall i: nat | i < |s.files|
      ensures NewEntry(env, s.files[i], s.collecting, s.metadata, missed, kept, read, Current(s), t)
      ensures s.files[i].0 !in missed ==> result[i].1 == Emitted(env, s, t, i)
    {
      assert EntryPlaced(env, s, must, Current(s), t, result, read, i);
      PlacedIsNew(env, s, now, rets, shared, must, result, kept, read, i);
    }
    CheckOk(env, s, now, rets, shared, kept, read, missed);
  }

  lemma MissedOnly<C, K, M, V, D(!new), S, R>(env: Env<C, K, M, V, D, S, R>, s: State<C, K, M, V, D, S, R>,
        must: set<string>, now: map<string, Collection<D>>, rets: map<string, V>, shared: S)
    requires UniquePaths(s.files)
    ensures forall i: nat :: i < |s.files| && s.files[i].0 in MissedFiles(env, s, must, now, rets, shared) ==>
      Missed(env, s, must, now, rets, shared, i)
  {
    forall i: nat | i < |s.files| && s.files[i].0 in MissedFiles(env, s, must, now, rets, shared)
      ensures Missed(env, s, must, now, rets, shared, i)
    {
      var j: nat :| j < |s.files| && Missed(env, s, must, now, rets, shared, j) && s.files[j].0 == s.files[i].0;
      assert j == i;
    }
  }

  /** None of these files is emitted. */
  ghost predicate Unemitted<C, K, M, V, D, S, R>(env: Env<C, K, M, V, D, S, R>, s: State<C, K, M, V, D, S, R>,
        now: map<string, Collection<D>>, rets: map<string, V>, shared: S, missed: set<string>)
  {
    exists must :: MustBe(env, s, now, rets, shared, must) && missed !! must
  }

  lemma MissedUnemitted<C, K, M, V, D(!new), S, R>(env: Env<C, K, M, V, D, S, R>, s: State<C, K, M, V, D, S, R>,
        must: set<string>, now: map<string, Collection<D>>, rets: map<string, V>, shared: S)
    requires MustBe(env, s, now, rets, shared, must)
    ensures Unemitted(env, s, now, rets, shared, MissedFiles(env, s, must, now, rets, shared))
  {
    forall p | p in MissedFiles(env, s, must, now, rets, shared) ensures p !in must {
      var i: nat :| i < |s.files| && Missed(env, s, must, now, rets, shared, i) && s.files[i].0 == p;
    }
  }

  /** The dirty files are emitted. */
  lemma DirtyEmitted<C, K, M, V, D, S, R>(env: Env<C, K, M, V, D, S, R>, s: State<C, K, M, V, D, S, R>,
        now: map<string, Collection<D>>, rets: map<string, V>, shared: S, missed: set<string>, i: nat)
    requires Unemitted(env, s, now, rets, shared, missed) && i < |s.files| && s.files[i].0 in s.dirty
    ensures s.files[i].0 !in missed
  {
    var must :| MustBe(env, s, now, rets, shared, must) && missed !! must;
    assert s.files[i].0 in must;
  }

  /**
   * What a check leaves: the invariant, right results outside `missed`, and nothing in `missed` but what may be stale.
   */
  ghost predicate Settled<C, K, M, V(!new), D(!new), S(!new), R(!new)>(env: Env<C, K, M, V, D, S, R>,
        s: State<C, K, M, V, D, S, R>, now: map<string, Collection<D>>, rets: map<string, V>, shared: S,
        result: seq<(string, R)>, kept: map<string, R>, read: map<string, set<string>>, missed: set<string>)
  {
    && |result| == |s.files|
    && Sealed(env, AfterCheck(s, now, rets, shared, kept, read, missed))
    && (forall i: nat :: i < |s.files| && s.files[i].0 !in missed ==>
          result[i].1 == Emitted(env, s, Merge(rets, shared, Paths(s.files), now), i))
    && (missed != {} ==> s.prev.Some?) && Unemitted(env, s, now, rets, shared, missed)
    && (forall i: nat :: i < |s.files| && s.files[i].0 in missed ==> MayBeStale(env, s, now, rets, shared, i))
  }

  lemma CheckSettles<C(!new), K(!new), M(!new), V(!new), D(!new), S(!new), R(!new)>(env: Env<C, K, M, V, D, S, R>,
        s: State<C, K, M, V, D, S, R>, now: map<string, Collection<D>>, rets: map<string, V>, shared: S,
        must: set<string>, result: seq<(string, R)>, kept: map<string, R>, read: map<string, set<string>>)
    requires EmitOk(env) && Sealed(env, s) && Complete(env, s.files, s.collecting, now) && CollectionsOk(env, now)
    requires rets.Keys == Names(now) && RestUntouched(env, s, must, now, rets, shared)
    requires MustBe(env, s, now, rets, shared, must)
    requires AllPlaced(env, s, must, Current(s), Merge(rets, shared, Paths(s.files), now), result, kept, read)
    ensures Settled(env, s, now, rets, shared, result, kept, read, MissedFiles(env, s, must, now, rets, shared))
  {
    PlacedSettles(env, s, now, rets, shared, must, result, kept, read);
    MissedOnly(env, s, must, now, rets, shared);
    MissedUnemitted(env, s, must, now, rets, shared);
    if MissedFiles(env, s, must, now, rets, shared) != {} {
      var p :| p in MissedFiles(env, s, must, now, rets, shared);
      var i: nat :| i < |s.files| && Missed(env, s, must, now, rets, shared, i) && s.files[i].0 == p;
    }
  }

  lemma AfterCheckFresh<C, K, M, V, D, S, R>(env: Env<C, K, M, V, D, S, R>, s: State<C, K, M, V, D, S, R>,
        now: map<string, Collection<D>>, rets: map<string, V>, shared: S, diagnostics: map<string, R>,
        reached: map<string, set<string>>, stale: set<string>)
    ensures
      var s' := AfterCheck(s, now, rets, shared, diagnostics, reached, stale);
      forall i: nat :: i < |s.files| ==>
        Emitted(env, s', s'.tables, i) == Emitted(env, s, Merge(rets, shared, Paths(s.files), now), i)
  {
  }

  /** The callable names are the same when none is new and there are as many. */
  lemma SameNames<V>(a: map<string, V>, b: map<string, V>)
    requires |a| == |b| && a.Keys <= b.Keys
    ensures a.Keys == b.Keys
  {
    assert |a.Keys| == |a| && |b.Keys| == |b|;
    if b.Keys - a.Keys != {} {
      var x :| x in b.Keys && x !in a.Keys;
      Closures.Smaller(a.Keys, b.Keys, x);
    } else {
      forall x | x in b.Keys ensures x in a.Keys {
        assert x !in b.Keys - a.Keys;
      }
    }
  }

  lemma UntouchedFile<C, V, D(!new), S>(file: (string, C), now: map<string, Collection<D>>, dirty: set<string>,
        invalidated: set<string>, prev: Prev<V, S>, reached: map<string, set<string>>, rets: map<string, V>, shared: S,
        changed: set<string>)
    requires file.0 !in dirty && file.0 in reached && prev.shared == shared && prev.rebound == Rebound(now)
    requires prev.visible.Keys == rets.Keys && IsChanged(now, reached, invalidated, prev.visible, rets, changed)
    requires UsedBy(now, reached, file.0) * changed == {} && (changed == {} || Methods(now) == {})
    ensures Untouched(file, now, dirty, invalidated, prev, reached, rets, shared)
  {
    assert Spared(now, reached, invalidated, prev.visible, rets, file.0, changed);
  }

  lemma UsersStep<C, D>(files: seq<(string, C)>, now: map<string, Collection<D>>, reached: map<string, set<string>>,
        changed: set<string>, i: nat)
    requires i < |files|
    ensures Users(files[..i + 1], now, reached, changed) == Users(files[..i], now, reached, changed)
      + if Reached(now, reached, files[i].0, changed) then {files[i].0} else {}
  {
    var more := files[..i + 1];
    assert forall j :: 0 <= j < i ==> more[j] == files[..i][j];
    assert more[i] == files[i];
  }

  /** A file that is not emitted uses nothing that changed. */
  lemma MustCovers<C, K, M, V(!new), D(!new), S(!new), R(!new)>(env: Env<C, K, M, V, D, S, R>,
        s: State<C, K, M, V, D, S, R>, now: map<string, Collection<D>>, rets: map<string, V>, shared: S,
        changed: set<string>, must: set<string>)
    requires Sealed(env, s) && !EmitsAll(s.prev, rets, Rebound(now), shared)
    requires IsChanged(now, s.reached, s.invalidated, s.prev.value.visible, rets, changed)
    requires must == s.dirty + Users(s.files, now, s.reached, changed)
    ensures RestUntouched(env, s, must, now, rets, shared)
  {
    forall i: nat | i < |s.files| && s.files[i].0 !in must
      ensures Untouched(s.files[i], now, s.dirty, s.invalidated, s.prev.value, s.reached, rets, shared)
    {
      CleanHasEntry(env, s, i);
      UntouchedFile(s.files[i], now, s.dirty, s.invalidated, s.prev.value, s.reached, rets, shared, changed);
    }
  }

  class Project<C(==, !new), K(==, !new), M(==, !new), V(==, !new), D(!new), S(==, !new), R(!new)> {
    const env: Env<C, K, M, V, D, S, R>
    var files: seq<(string, C)>
    var collecting: K
    var metadata: M
    var open: set<string>
    var collected: map<string, Collection<D>>
    var dirty: set<string>
    var invalidated: set<string>
    var prev: Option<Prev<V, S>>
    var reached: map<string, set<string>>
    var diagnostics: map<string, R>

    ghost var tables: Tables<V, D, S>
    ghost var sources: Sources<C>
    ghost var order: seq<string>
    ghost var seen: map<string, Collection<D>>
    ghost var moved: bool
    ghost var stale: set<string>

    ghost function View(): State<C, K, M, V, D, S, R>
      reads this
    {
      State(files, collecting, metadata, open, collected, dirty, invalidated, prev, reached, diagnostics,
            tables, sources, order, seen, moved, stale)
    }

    /** What emitting file `i` on the current tables gives. */
    ghost function Fresh(i: nat): R
      requires i < |files|
      reads this
    {
      Emitted(env, View(), tables, i)
    }

    /** File `i` was out of date, or something the check does not look for changed in what it looks at. */
    ghost predicate Overlooked(i: nat, rets: map<string, V>, shared: S)
      requires i < |files|
      reads this
    {
      MayBeStale(env, View(), AllCollected(env, files, collecting), rets, shared, i)
    }

    /** The names the project's files define. */
    ghost function Defined(): set<string>
      reads this
    {
      Names(AllCollected(env, files, collecting))
    }

    ghost predicate Valid()
      reads this
    {
      EmitOk(env) && CollectOk(env) && Sealed(env, View())
    }

    /** `t` stands for the tables of an emission that has not happened yet. */
    constructor (env: Env<C, K, M, V, D, S, R>, k: K, m: M, ghost t: Tables<V, D, S>)
      requires EmitOk(env) && CollectOk(env)
      ensures Valid() && this.env == env && files == [] && prev.None? && stale == {} && collecting == k && metadata == m
      ensures open == {}
    {
      this.env, files, collecting, metadata, open := env, [], k, m, {};
      collected, dirty, invalidated, prev, reached, diagnostics := map[], {}, {}, None, map[], map[];
      tables, sources, order, seen, moved, stale := t, Sources([], {}), [], map[], false, {};
    }

    /** Some file may load box modules. */
    method HasBoxImports() returns (r: bool)
      ensures r <==> AnyBox(env, files)
    {
      for i := 0 to |files|
        invariant forall j :: 0 <= j < i ==> !env.usesBox(files[j].1)
      {
        if env.usesBox(files[i].1) {
          return true;
        }
      }
      return false;
    }

    method MarkAllDirty()
      modifies `dirty
      ensures AllDirty(files, dirty) && old(dirty) <= dirty
      ensures View() == old(View()).(dirty := dirty)
    {
      for i := 0 to |files|
        invariant old(dirty) <= dirty && forall j :: 0 <= j < i ==> files[j].0 in dirty
      {
        dirty := dirty + {files[i].0};
      }
    }

    method MarkIfBoxes()
      modifies `dirty
      ensures old(dirty) <= dirty && (AnyBox(env, files) ==> AllDirty(files, dirty))
      ensures View() == old(View()).(dirty := dirty)
    {
      var boxes := HasBoxImports();
      if boxes {
        MarkAllDirty();
      }
    }

    /** Add a new file. Files whose modules were looked up at its path are not emitted again for it. */
    method AddFile(path: string, c: C)
      requires Valid() && !PathIn(files, path)
      modifies this
      ensures Valid()
      ensures View() == AfterAdd(env, old(View()), path, c)
    {
      AddOk(env, View(), path, c);
      stale := stale + if prev.None? then {} else Importers(env, files, dirty, sources, path);
      dirty := dirty + {path};
      files := files + [(path, c)];
    }

    /** Put the contents at the file's place, or append them. */
    method Place(path: string, c: C)
      requires UniquePaths(files)
      modifies `files
      ensures View() == old(View()).(files := Updated(old(files), path, c))
    {
      var i := 0;
      while i < |files| && files[i].0 != path
        invariant i <= |files| && forall j :: 0 <= j < i ==> files[j].0 != path
      {
        i := i + 1;
      }
      if i < |files| {
        IndexFound(files, path, i);
        files := files[i := (path, c)];
      } else {
        files := files + [(path, c)];
      }
    }

    /** Drop a file's collection; its names are invalidated. */
    method Forget(path: string)
      modifies `collected, `invalidated
      ensures View() == old(View()).(collected := old(collected) - {path},
                                     invalidated := old(invalidated) + DefsOf(old(collected), path))
    {
      if path in collected {
        invalidated := invalidated + collected[path].defs.Keys;
        collected := collected - {path};
      }
    }

    /** Replace a file in place, or append it. */
    method UpdateFile(path: string, c: C)
      requires Valid()
      modifies this
      ensures Valid() && path in dirty && old(dirty) <= dirty
      ensures View() == AfterUpdate(old(View()), path, c, dirty)
    {
      PathsOk(env, View());
      Forget(path);
      MarkDirty(path);
      Place(path, c);
      MarkIfBoxes();
      UpdateOk(env, old(View()), path, c, dirty);
    }

    method MarkDirty(path: string)
      modifies `dirty
      ensures View() == old(View()).(dirty := old(dirty) + {path})
    {
      dirty := dirty + {path};
    }

    /** Put the files in the wanted order. A name defined in more than one collected file may get another winner. */
    method ReorderFiles(wanted: seq<string>)
      requires Valid()
      modifies this
      ensures Valid() && files == StableSort(old(files), wanted)
      ensures Inverted(old(files), wanted) <==> files != old(files)
      ensures files == old(files) ==> View() == old(View())
      ensures files != old(files) ==> View() == AfterMove(old(View()), wanted, dirty)
      ensures forall n :: WinnerChanges(old(files), files, collected, n) ==> Covered(collected, invalidated, dirty, n)
    {
      PathsOk(env, View());
      SortMoves(files, wanted);
      var inverted := AnyInverted(files, wanted);
      if inverted {
        Move(wanted);
        MoveOk(env, old(View()), wanted, dirty);
        assert collected == old(collected);
      } else {
        forall n ensures !WinnerChanges(old(files), files, collected, n) {
        }
      }
    }

    method Move(wanted: seq<string>)
      requires UniquePaths(files) && forall p :: p in collected ==> PathIn(files, p)
      modifies `files, `dirty, `invalidated, `moved
      ensures old(dirty) <= dirty && View() == AfterMove(old(View()), wanted, dirty)
      ensures forall n :: WinnerChanges(old(files), files, collected, n) ==> Covered(collected, invalidated, dirty, n)
    {
      MoveCoversAll(files, wanted, collected, invalidated + Shadowed(collected), dirty + Redefining(collected));
      Assign(StableSort(files, wanted), dirty + Redefining(collected), invalidated + Shadowed(collected));
    }

    method Assign(files': seq<(string, C)>, dirty': set<string>, invalidated': set<string>)
      modifies `files, `dirty, `invalidated, `moved
      ensures View() == old(View()).(files := files', dirty := dirty', invalidated := invalidated', moved := true)
    {
      files, dirty, invalidated, moved := files', dirty', invalidated', true;
    }

    method RemoveFile(path: string)
      requires Valid()
      modifies this
      ensures Valid() && AllDirty(files, dirty) && stale == old(stale)
      ensures prev == old(prev) && collecting == old(collecting) && metadata == old(metadata) && open == old(open)
      ensures files == Without(old(files), path)
    {
      PathsOk(env, View());
      Forget(path);
      var kept := Retained(path);
      WithoutUnique(files, path);
      RemoveCollected(env, files, path, kept, collecting, collected);
      Drop(path, kept);
      MarkAllDirty();
      AllDirtyOk(env, old(View()), View());
    }

    method Drop(path: string, kept: seq<(string, C)>)
      modifies `files, `reached
      ensures View() == old(View()).(files := kept, reached := old(reached) - {path})
    {
      files, reached := kept, reached - {path};
    }

    method Retained(path: string) returns (kept: seq<(string, C)>)
      ensures kept == Without(files, path)
    {
      kept := [];
      for i := 0 to |files|
        invariant kept == Without(files[..i], path)
      {
        assert files[..i + 1][..i] == files[..i];
        if files[i].0 != path {
          kept := kept + [files[i]];
        }
      }
      assert files[..|files|] == files;
    }

    /** New package facts or stubs: every collection is out of date. */
    method SetCollecting(k: K)
      requires Valid()
      modifies this
      ensures Valid() && collecting == k && files == old(files) && stale == old(stale) && prev == old(prev)
      ensures if k == old(collecting) then View() == old(View()) else AllDirty(files, dirty) && collected == map[]
    {
      PathsOk(env, View());
      if k != collecting {
        collected := map[];
        collecting := k;
        MarkAllDirty();
        AllDirtyOk(env, old(View()), View());
      }
    }

    /** Any other project metadata. */
    method SetMetadata(m: M)
      requires Valid()
      modifies this
      ensures Valid() && metadata == m && files == old(files) && stale == old(stale) && prev == old(prev)
      ensures if m == old(metadata) then View() == old(View()) else AllDirty(files, dirty)
    {
      PathsOk(env, View());
      if m != metadata {
        metadata := m;
        MarkAllDirty();
        AllDirtyOk(env, old(View()), View());
      }
    }

    method SetOpenBufferPaths(paths: set<string>)
      requires Valid()
      modifies this
      ensures Valid() && View() == old(View()).(open := paths, dirty := dirty)
      ensures paths != old(open) && AnyBox(env, files) ==> AllDirty(files, dirty)
    {
      if open != paths {
        open := paths;
        MarkIfBoxes();
        OpenBuffersOk(env, old(View()), paths, dirty);
      }
    }

    /** Collect the files without a cached collection. */
    method CollectUncached() returns (now: map<string, Collection<D>>)
      requires CollectedOk(env, files, collecting, collected)
      ensures Complete(env, files, collecting, now)
      ensures forall p :: p in collected ==> p in now && now[p] == collected[p]
    {
      now := collected;
      for i := 0 to |files|
        invariant CollectedOk(env, files, collecting, now)
        invariant forall j :: 0 <= j < i ==> files[j].0 in now
        invariant forall p :: p in collected ==> p in now && now[p] == collected[p]
      {
        if files[i].0 !in now {
          now := now[files[i].0 := env.collect(files[i].0, files[i].1, collecting)];
        }
      }
    }

    /** The functions whose return or signature changed and the invalidated ones, closed under callers. */
    method ChangedFunctions(now: map<string, Collection<D>>, before: Prev<V, S>,
          rets: map<string, V>) returns (changed: set<string>)
      ensures IsChanged(now, reached, invalidated, before.visible, rets, changed)
    {
      changed := Closures.WithTransitiveCallers(Uses(now, reached), Direct(before.visible, rets) + invalidated);
    }

    /** The files that changed or use something that did. */
    method Dependents(now: map<string, Collection<D>>, changed: set<string>) returns (must: set<string>)
      ensures must == dirty + Users(files, now, reached, changed)
    {
      var methodsChanged := changed != {} && Methods(now) != {};
      must := dirty;
      for i := 0 to |files|
        invariant must == dirty + Users(files[..i], now, reached, changed)
      {
        UsersStep(files, now, reached, changed, i);
        if methodsChanged || UsedBy(now, reached, files[i].0) * changed != {} {
          must := must + {files[i].0};
        }
      }
      assert files[..|files|] == files;
    }

    /** The files whose diagnostics may have changed. */
    method MustEmit(now: map<string, Collection<D>>, rets: map<string, V>, shared: S) returns (must: set<string>)
      requires Valid() && Complete(env, files, collecting, now)
      ensures MustBe(env, View(), now, rets, shared, must)
      ensures RestUntouched(env, View(), must, now, rets, shared)
    {
      if prev.None? || prev.value.shared != shared || prev.value.rebound != Rebound(now)
         || |rets| != |prev.value.visible| || !(rets.Keys <= prev.value.visible.Keys)
      {
        must := set i | 0 <= i < |files| :: files[i].0;
        return;
      }
      SameNames(rets, prev.value.visible);
      var changed := ChangedFunctions(now, prev.value, rets);
      must := Dependents(now, changed);
      MustCovers(env, View(), now, rets, shared, changed, must);
    }

    /** Emit the files in `must` on the new tables, and take the others from the cache. */
    method EmitFiles(must: set<string>, current: Sources<C>, t: Tables<V, D, S>, ghost s: State<C, K, M, V, D, S, R>)
      returns (result: seq<(string, R)>, read: map<string, set<string>>)
      requires UniquePaths(files) && s == View()
      ensures |result| == |files|
      ensures forall i: nat {:trigger EntryPlaced(env, s, must, current, t, result, read, i)} :: i < |files| ==>
        EntryPlaced(env, s, must, current, t, result, read, i)
    {
      result, read := [], reached;
      for i := 0 to |files|
        invariant |result| == i
        invariant forall j: nat {:trigger EntryPlaced(env, s, must, current, t, result, read, j)} :: j < i ==>
          EntryPlaced(env, s, must, current, t, result, read, j)
        invariant forall j :: i <= j < |files| ==>
          && (files[j].0 in read <==> files[j].0 in reached)
          && (files[j].0 in reached ==> read[files[j].0] == reached[files[j].0])
      {
        var p, c := files[i].0, files[i].1;
        ghost var before, readBefore := result, read;
        if p in must {
          var e := env.emit(p, c, collecting, metadata, current, t);
          result, read := result + [(p, e.diagnostics)], read[p := e.reached];
        } else {
          result := result + [(p, if p in diagnostics then diagnostics[p] else env.nothing)];
        }
        forall j: nat | j < i ensures EntryPlaced(env, s, must, current, t, result, read, j) {
          assert EntryPlaced(env, s, must, current, t, before, readBefore, j);
          assert files[j].0 != p;
        }
        assert EntryPlaced(env, s, must, current, t, result, read, i);
      }
    }

    /** The result as a map. */
    method Keep(result: seq<(string, R)>) returns (r: map<string, R>)
      requires UniquePaths(files) && |result| == |files| && forall i :: 0 <= i < |files| ==> result[i].0 == files[i].0
      ensures forall i :: 0 <= i < |files| ==> files[i].0 in r && r[files[i].0] == result[i].1
    {
      r := map[];
      for i := 0 to |files|
        invariant forall j :: 0 <= j < i ==> files[j].0 in r && r[files[j].0] == result[j].1
      {
        r := r[result[i].0 := result[i].1];
      }
    }

    /**
     * Check after edits: `rets` and `shared` are what refinement made of the merged collections. Every file's result is
     * what emitting it on the current tables gives, except for the files in `stale`.
     */
    method CheckIncremental(rets: map<string, V>, shared: S) returns (result: seq<(string, R)>)
      requires Valid() && rets.Keys == Defined()
      modifies this
      ensures Valid() && Complete(env, files, collecting, collected)
      ensures View() == AfterCheck(old(View()), collected, rets, shared, diagnostics, reached, stale)
      ensures |result| == |files|
      ensures forall i :: 0 <= i < |files| ==> result[i].0 == files[i].0
      ensures forall i: nat :: i < |files| && files[i].0 !in stale ==> result[i].1 == Fresh(i)
      ensures stale != {} ==> old(prev).Some?
      ensures Unemitted(env, old(View()), collected, rets, shared, stale)
      ensures forall i: nat :: i < |files| && files[i].0 in old(dirty) ==> files[i].0 !in stale
      ensures forall i: nat :: i < |files| && files[i].0 in stale ==> old(Overlooked(i, rets, shared))
    {
      var now, kept, read;
      ghost var missed;
      result, now, kept, read, missed := Settle(rets, shared);
      ghost var s := View();
      forall i: nat | i < |files| && files[i].0 in dirty ensures files[i].0 !in missed {
        DirtyEmitted(env, s, now, rets, shared, missed, i);
      }
      Install(rets, shared, now, kept, read, missed);
      AfterCheckFresh(env, s, now, rets, shared, kept, read, missed);
    }

    /** Everything a check computes, before the fields are replaced. */
    method Settle(rets: map<string, V>, shared: S)
      returns (result: seq<(string, R)>, now: map<string, Collection<D>>, kept: map<string, R>,
          read: map<string, set<string>>, ghost missed: set<string>)
      requires Valid() && rets.Keys == Defined()
      ensures Complete(env, files, collecting, now) && now == AllCollected(env, files, collecting)
      ensures Settled(env, View(), now, rets, shared, result, kept, read, missed)
      ensures forall i :: 0 <= i < |files| ==> result[i].0 == files[i].0
    {
      PathsOk(env, View());
      now := CollectUncached();
      CompleteIsAll(env, files, collecting, now);
      AllCollectionsOk(env, files, collecting, now);
      var must := MustEmit(now, rets, shared);
      var t := Merge(rets, shared, Paths(files), now);
      result, kept, read := EmitOrReuse(must, t);
      missed := MissedFiles(env, View(), must, now, rets, shared);
      CheckSettles(env, View(), now, rets, shared, must, result, kept, read);
    }

    method Install(rets: map<string, V>, shared: S, now: map<string, Collection<D>>, kept: map<string, R>,
          read: map<string, set<string>>, ghost missed: set<string>)
      modifies this
      ensures View() == AfterCheck(old(View()), now, rets, shared, kept, read, missed)
    {
      Remember(Merge(rets, shared, Paths(files), now), Current(View()), missed);
      RememberFiles(Paths(files), now);
      Replace(Prev(rets, Rebound(now), shared), read, kept);
      ReplaceFiles(now);
    }

    ghost method Remember(t: Tables<V, D, S>, src: Sources<C>, missed: set<string>)
      modifies `tables, `sources, `stale
      ensures View() == old(View()).(tables := t, sources := src, stale := missed)
    {
      tables, sources, stale := t, src, missed;
    }

    ghost method RememberFiles(paths: seq<string>, now: map<string, Collection<D>>)
      modifies `order, `seen, `moved
      ensures View() == old(View()).(order := paths, seen := now, moved := false)
    {
      order, seen, moved := paths, now, false;
    }

    method Replace(before: Prev<V, S>, read: map<string, set<string>>, kept: map<string, R>)
      modifies `prev, `reached, `diagnostics
      ensures View() == old(View()).(prev := Some(before), reached := read, diagnostics := kept)
    {
      prev, reached, diagnostics := Some(before), read, kept;
    }

    method ReplaceFiles(now: map<string, Collection<D>>)
      modifies `collected, `dirty, `invalidated
      ensures View() == old(View()).(collected := now, dirty := {}, invalidated := {})
    {
      collected, dirty, invalidated := now, {}, {};
    }

    method EmitOrReuse(must: set<string>, t: Tables<V, D, S>) returns (result: seq<(string, R)>, kept: map<string, R>,
          read: map<string, set<string>>)
      requires UniquePaths(files)
      ensures AllPlaced(env, View(), must, Current(View()), t, result, kept, read)
      ensures forall i :: 0 <= i < |files| ==> result[i].0 == files[i].0
    {
      var current := Sources(files, open);
      ghost var s := View();
      result, read := EmitFiles(must, current, t, s);
      forall i: nat | i < |files| ensures result[i].0 == files[i].0 {
        assert EntryPlaced(env, s, must, current, t, result, read, i);
      }
      kept := Keep(result);
    }

    method Reset()
      modifies `collected, `dirty, `prev, `reached, `invalidated
      ensures View() == old(View()).(collected := map[], dirty := {}, prev := None, reached := map[], invalidated := {})
    {
      collected, dirty, prev, reached, invalidated := map[], {}, None, map[], {};
    }

    /** Check from scratch: every file is emitted. */
    method Check(rets: map<string, V>, shared: S) returns (result: seq<(string, R)>)
      requires Valid() && rets.Keys == Defined()
      modifies this
      ensures Valid() && files == old(files) && stale == {} && dirty == {}
      ensures collecting == old(collecting) && metadata == old(metadata) && open == old(open)
      ensures |result| == |files|
      ensures forall i: nat :: i < |files| ==> result[i] == (files[i].0, Fresh(i))
      ensures tables == Merge(rets, shared, Paths(files), collected) && Complete(env, files, collecting, collected)
    {
      PathsOk(env, View());
      Reset();
      MarkAllDirty();
      result := CheckIncremental(rets, shared);
    }
  }
}
