/** The order of a project's files, and which file's definition of a name wins. */
module FileOrder {
  import opened Wrappers
  import opened Captures
  import opened Defaults

  predicate UniquePaths<C>(files: seq<(string, C)>) {
    forall i, j :: 0 <= i < j < |files| ==> files[i].0 != files[j].0
  }

  function Paths<C>(files: seq<(string, C)>): (r: seq<string>)
    ensures |r| == |files| && forall i :: 0 <= i < |r| ==> r[i] == files[i].0
  {
    seq(|files|, i requires 0 <= i < |files| => files[i].0)
  }

  // ---------------------------------------------------------------------------------------------
  // Stable sorting by rank
  // ---------------------------------------------------------------------------------------------

  /** Position in the requested order; unlisted paths come after all listed ones. */
  function Rank(order: seq<string>, path: string): (r: nat)
    ensures r <= |order|
  {
    RankWithin(order, path, |order|, |order|)
  }

  function RankWithin(order: seq<string>, path: string, n: nat, unlisted: nat): (r: nat)
    requires n <= |order| <= unlisted
    ensures r < n || r == unlisted
  {
    if n == 0 then unlisted
    else if order[n - 1] == path then n - 1
    else RankWithin(order, path, n - 1, unlisted)
  }

  predicate SortedBy<C>(files: seq<(string, C)>, order: seq<string>) {
    forall i, j {:trigger files[i], files[j]} :: 0 <= i < j < |files| ==>
      Rank(order, files[i].0) <= Rank(order, files[j].0)
  }

  /** Insert after every file of the same or a lower rank. */
  function InsertFile<C>(sorted: seq<(string, C)>, order: seq<string>, file: (string, C)): seq<(string, C)> {
    if sorted != [] && Rank(order, sorted[|sorted| - 1].0) > Rank(order, file.0)
    then InsertFile(sorted[..|sorted| - 1], order, file) + [sorted[|sorted| - 1]]
    else sorted + [file]
  }

  function StableSort<C>(files: seq<(string, C)>, order: seq<string>): seq<(string, C)> {
    if files == [] then [] else InsertFile(StableSort(files[..|files| - 1], order), order, files[|files| - 1])
  }

  /** The first path stands before the second. */
  ghost predicate Before<C>(files: seq<(string, C)>, p: string, q: string) {
    exists i, j :: 0 <= i < j < |files| && files[i].0 == p && files[j].0 == q
  }

  /** Where the new file goes: before every file of a higher rank and after the others, which keep their order. */
  lemma {:induction false} InsertSplits<C>(sorted: seq<(string, C)>, order: seq<string>,
        file: (string, C)) returns (k: nat)
    requires SortedBy(sorted, order)
    ensures k <= |sorted| && InsertFile(sorted, order, file) == sorted[..k] + [file] + sorted[k..]
    ensures forall i :: k <= i < |sorted| ==> Rank(order, sorted[i].0) > Rank(order, file.0)
    ensures forall i :: 0 <= i < k ==> Rank(order, sorted[i].0) <= Rank(order, file.0)
  {
    if sorted != [] && Rank(order, sorted[|sorted| - 1].0) > Rank(order, file.0) {
      var rest, last := sorted[..|sorted| - 1], sorted[|sorted| - 1];
      k := InsertSplits(rest, order, file);
      assert sorted[k..] == rest[k..] + [last];
      assert sorted[..k] == rest[..k];
    } else {
      k := |sorted|;
      assert sorted[..k] == sorted;
    }
  }

  lemma SplitKeepsElements<C>(sorted: seq<(string, C)>, k: nat, file: (string, C))
    requires k <= |sorted|
    ensures multiset(sorted[..k] + [file] + sorted[k..]) == multiset(sorted) + multiset{file}
  {
    assert sorted == sorted[..k] + sorted[k..];
  }

  lemma SplitSorted<C>(sorted: seq<(string, C)>, order: seq<string>, k: nat, file: (string, C))
    requires SortedBy(sorted, order) && k <= |sorted|
    requires forall i :: k <= i < |sorted| ==> Rank(order, sorted[i].0) > Rank(order, file.0)
    requires forall i :: 0 <= i < k ==> Rank(order, sorted[i].0) <= Rank(order, file.0)
    ensures SortedBy(sorted[..k] + [file] + sorted[k..], order)
  {
    var more := sorted[..k] + [file] + sorted[k..];
    forall i, j | 0 <= i < j < |more| ensures Rank(order, more[i].0) <= Rank(order, more[j].0) {
      if i < k && j > k {
        assert more[i] == sorted[i] && more[j] == sorted[j - 1];
      } else if i > k {
        assert more[i] == sorted[i - 1] && more[j] == sorted[j - 1];
      } else if i == k {
        assert more[i] == file && more[j] == sorted[j - 1];
      } else if j == k {
        assert more[i] == sorted[i] && more[j] == file;
      } else {
        assert more[i] == sorted[i] && more[j] == sorted[j];
      }
    }
  }

  lemma {:induction false} SortSorts<C>(files: seq<(string, C)>, order: seq<string>)
    ensures SortedBy(StableSort(files, order), order)
    ensures multiset(StableSort(files, order)) == multiset(files)
  {
    if files != [] {
      var before, last := files[..|files| - 1], files[|files| - 1];
      SortSorts(before, order);
      var k := InsertSplits(StableSort(before, order), order, last);
      SplitSorted(StableSort(before, order), order, k, last);
      SplitKeepsElements(StableSort(before, order), k, last);
      assert files == before + [last];
    }
  }

  lemma SplitKeepsBefore<C>(sorted: seq<(string, C)>, k: nat, file: (string, C), p: string, q: string)
    requires k <= |sorted|
    ensures Before(sorted, p, q) ==> Before(sorted[..k] + [file] + sorted[k..], p, q)
    ensures q == file.0 && (exists i :: 0 <= i < k && sorted[i].0 == p) ==>
      Before(sorted[..k] + [file] + sorted[k..], p, q)
  {
    var more := sorted[..k] + [file] + sorted[k..];
    if i, j :| 0 <= i < j < |sorted| && sorted[i].0 == p && sorted[j].0 == q {
      var i', j' := if i < k then i else i + 1, if j < k then j else j + 1;
      assert more[i'].0 == p && more[j'].0 == q;
    }
    if q == file.0 {
      if i :| 0 <= i < k && sorted[i].0 == p {
        assert more[i].0 == p && more[k].0 == q;
      }
    }
  }

  lemma InsertStable<C>(sorted: seq<(string, C)>, order: seq<string>, file: (string, C), p: string, q: string)
    requires SortedBy(sorted, order) && Rank(order, p) <= Rank(order, q)
    requires Before(sorted, p, q) || (q == file.0 && exists i :: 0 <= i < |sorted| && sorted[i].0 == p)
    ensures Before(InsertFile(sorted, order, file), p, q)
  {
    var k := InsertSplits(sorted, order, file);
    SplitKeepsBefore(sorted, k, file, p, q);
    if !Before(sorted, p, q) {
      var i :| 0 <= i < |sorted| && sorted[i].0 == p;
      assert i < k;
    }
  }

  /** Files keep their order unless their ranks say otherwise. */
  lemma {:induction false} SortStable<C>(files: seq<(string, C)>, order: seq<string>, p: string, q: string)
    requires Before(files, p, q) && Rank(order, p) <= Rank(order, q)
    ensures Before(StableSort(files, order), p, q)
  {
    var before, last := files[..|files| - 1], files[|files| - 1];
    assert files == before + [last];
    SortSorts(before, order);
    if Before(before, p, q) {
      SortStable(before, order, p, q);
    } else {
      var i :| 0 <= i < |before| && before[i].0 == p;
      SameElements(before, StableSort(before, order), before[i]);
    }
    InsertStable(StableSort(before, order), order, last, p, q);
  }

  lemma SameElements<C>(a: seq<(string, C)>, b: seq<(string, C)>, file: (string, C))
    requires multiset(a) == multiset(b) && file in a
    ensures file in b
  {
    assert file in multiset(a);
  }

  lemma SortedParts<C>(before: seq<(string, C)>, last: (string, C), order: seq<string>)
    requires SortedBy(before + [last], order)
    ensures SortedBy(before, order) && InsertFile(before, order, last) == before + [last]
  {
    var files := before + [last];
    forall i, j | 0 <= i < j < |before| ensures Rank(order, before[i].0) <= Rank(order, before[j].0) {
      assert files[i] == before[i] && files[j] == before[j];
    }
    if before != [] {
      assert files[|before| - 1] == before[|before| - 1] && files[|before|] == last;
    }
  }

  /** Sorting a sorted list changes nothing. */
  lemma {:induction false} SortKeepsSorted<C>(files: seq<(string, C)>, order: seq<string>)
    requires SortedBy(files, order)
    ensures StableSort(files, order) == files
  {
    if files != [] {
      var before, last := files[..|files| - 1], files[|files| - 1];
      assert files == before + [last];
      SortedParts(before, last, order);
      SortKeepsSorted(before, order);
    }
  }

  /** Two neighbours stand in the wrong order. */
  predicate Inverted<C>(files: seq<(string, C)>, order: seq<string>) {
    exists i :: 0 <= i < |files| - 1 && Rank(order, files[i].0) > Rank(order, files[i + 1].0)
  }

  lemma {:induction false} NotInvertedIsSorted<C>(files: seq<(string, C)>, order: seq<string>)
    requires !Inverted(files, order)
    ensures SortedBy(files, order)
  {
    if |files| > 1 {
      var n := |files| - 1;
      NotInvertedIsSorted(files[..n], order);
      assert Rank(order, files[n - 1].0) <= Rank(order, files[n].0);
      assert forall i :: 0 <= i < n ==> files[..n][i] == files[i];
    }
  }

  /** Sorting is the identity exactly when no two neighbours are in the wrong order. */
  lemma SortMoves<C>(files: seq<(string, C)>, order: seq<string>)
    ensures StableSort(files, order) != files <==> Inverted(files, order)
  {
    if Inverted(files, order) {
      SortSorts(files, order);
    } else {
      NotInvertedIsSorted(files, order);
      SortKeepsSorted(files, order);
    }
  }

  method AnyInverted<C>(files: seq<(string, C)>, order: seq<string>) returns (moved: bool)
    ensures moved <==> Inverted(files, order)
  {
    for i := 0 to |files|
      invariant forall k :: 0 <= k < i && k < |files| - 1 ==> Rank(order, files[k].0) <= Rank(order, files[k + 1].0)
    {
      if i + 1 < |files| && Rank(order, files[i].0) > Rank(order, files[i + 1].0) {
        return true;
      }
    }
    return false;
  }

  // ---------------------------------------------------------------------------------------------
  // Definers
  // ---------------------------------------------------------------------------------------------

  /**
   * A file's pass-1 output: what it defines and which of it are methods, its call sites by callee, the calls that pass
   * a formal on, and the defaulted formals of its named functions; the global literals it captures by name, those it
   * replaces itself, what it may write, and the names its other writes mark unstable.
   */
  datatype Collection<D> = Collection(
    defs: map<string, D>,
    methods: set<string>,
    sites: map<string, seq<CallSite>>,
    forwards: seq<Forward>,
    formals: set<Formal>,
    literals: set<(string, Key)>,
    rebound: set<Key>,
    writes: WriteSet,
    marks: set<string>)

  function DefOf<D>(collected: map<string, Collection<D>>, path: string, name: string): Option<D> {
    if path in collected && name in collected[path].defs then Some(collected[path].defs[name]) else None
  }

  /** The files defining a name, in order; the last one wins. */
  function Definers<D>(paths: seq<string>, collected: map<string, Collection<D>>, name: string): seq<(string, D)> {
    if paths == [] then []
    else
      var last := paths[|paths| - 1];
      Definers(paths[..|paths| - 1], collected, name)
      + match DefOf(collected, last, name) case Some(d) => [(last, d)] case None => []
  }

  function Winner<D>(paths: seq<string>, collected: map<string, Collection<D>>, name: string): Option<(string, D)> {
    var all := Definers(paths, collected, name);
    if all == [] then None else Some(all[|all| - 1])
  }

  lemma {:induction false} SameDefiners<D>(paths: seq<string>, a: map<string, Collection<D>>,
        b: map<string, Collection<D>>, name: string)
    requires forall p :: p in paths ==> DefOf(a, p, name) == DefOf(b, p, name)
    ensures Definers(paths, a, name) == Definers(paths, b, name)
  {
    if paths != [] {
      SameDefiners(paths[..|paths| - 1], a, b, name);
    }
  }

  lemma {:induction false} DefinersConcat<D>(first: seq<string>, rest: seq<string>,
        collected: map<string, Collection<D>>, name: string)
    ensures Definers(first + rest, collected, name) ==
      Definers(first, collected, name) + Definers(rest, collected, name)
  {
    if rest == [] {
      assert first + rest == first;
    } else {
      DefinersConcat(first, rest[..|rest| - 1], collected, name);
      assert (first + rest)[..|first + rest| - 1] == first + rest[..|rest| - 1];
    }
  }

  lemma {:induction false} NoDefiners<D>(paths: seq<string>, collected: map<string, Collection<D>>, name: string)
    requires forall p :: p in paths ==> DefOf(collected, p, name).None?
    ensures Definers(paths, collected, name) == []
  {
    if paths != [] {
      NoDefiners(paths[..|paths| - 1], collected, name);
    }
  }

  predicate Distinct(paths: seq<string>) {
    forall i, j :: 0 <= i < j < |paths| ==> paths[i] != paths[j]
  }

  /** A name that one file alone defines has that file alone as definer, wherever it stands. */
  lemma {:induction false} OneDefiner<D>(paths: seq<string>, collected: map<string, Collection<D>>, name: string,
        p: string)
    requires Distinct(paths) && p in paths && DefOf(collected, p, name).Some?
    requires forall q :: q in paths && q != p ==> DefOf(collected, q, name).None?
    ensures Definers(paths, collected, name) == [(p, DefOf(collected, p, name).value)]
  {
    var before, last := paths[..|paths| - 1], paths[|paths| - 1];
    assert paths == before + [last];
    if last == p {
      NoDefiners(before, collected, name);
    } else {
      OneDefiner(before, collected, name, p);
    }
  }

  /** Two files both define the name. */
  ghost predicate DefinedTwice<D>(collected: map<string, Collection<D>>, name: string) {
    exists p, q :: p in collected && q in collected && p != q && name in collected[p].defs && name in collected[q].defs
  }

  /** A name without two definers has the same ones in any order of the files. */
  lemma OrderIrrelevant<D>(a: seq<string>, b: seq<string>, collected: map<string, Collection<D>>, name: string)
    requires Distinct(a) && Distinct(b) && !DefinedTwice(collected, name)
    requires forall p :: p in collected ==> p in a && p in b
    ensures Definers(a, collected, name) == Definers(b, collected, name)
  {
    if p :| p in a && DefOf(collected, p, name).Some? {
      forall q | q != p ensures DefOf(collected, q, name).None? {
        assert q in collected && name in collected[q].defs ==> DefinedTwice(collected, name);
      }
      OneDefiner(a, collected, name, p);
      OneDefiner(b, collected, name, p);
    } else {
      NoDefiners(a, collected, name);
      NoDefiners(b, collected, name);
    }
  }

  // ---------------------------------------------------------------------------------------------
  // What the files' calls say about defaults
  // ---------------------------------------------------------------------------------------------

  function Names<D>(c: map<string, Collection<D>>): set<string> {
    set p, n | p in c && n in c[p].defs :: n
  }

  /** The names some file registers as methods. */
  function Methods<D>(c: map<string, Collection<D>>): set<string> {
    set p, n | p in c && n in c[p].methods :: n
  }

  function CallsIn<D>(c: map<string, Collection<D>>, p: string): FileCalls {
    if p in c then FileCalls(c[p].defs.Keys, c[p].sites, c[p].forwards) else FileCalls({}, map[], [])
  }

  function CallsOfAll<D>(paths: seq<string>, c: map<string, Collection<D>>): (r: seq<FileCalls>)
    ensures |r| == |paths| && forall i :: 0 <= i < |r| ==> r[i] == CallsIn(c, paths[i])
  {
    seq(|paths|, i requires 0 <= i < |paths| => CallsIn(c, paths[i]))
  }

  /** Each name's winning definition. */
  function Winners<D>(paths: seq<string>, c: map<string, Collection<D>>): map<string, D> {
    map n | n in Names(c) && Winner(paths, c, n).Some? :: Winner(paths, c, n).value.1
  }

  function Gather<D>(paths: seq<string>, c: map<string, Collection<D>>): Evidence<D> {
    Evidence(MergedSites(CallsOfAll(paths, c)), MergedForwards(CallsOfAll(paths, c)), Winners(paths, c))
  }
}
