/** What the merged tables say about defaults is what the files' collections say. */
module MergedEvidence {
  import opened Wrappers
  import opened Defaults
  import opened FileOrder
  import opened MergedTables
  import opened Rebounds

  /** Merging the tables of all files leaves the calls, the forwarding calls and the definitions that `Gather` finds. */
  lemma MergedIsGathered<D, T>(paths: seq<string>, c: map<string, Collection<D>>, tables: seq<FileTable<D, T>>,
        fns: map<string, Fn<D>>, sites: map<string, seq<CallSite>>, forwards: seq<Forward>)
    requires |tables| == |paths| && forall p :: p in c <==> p in paths
    requires forall i :: 0 <= i < |paths| ==> Contributes(tables[i], c[paths[i]])
    requires FnsMerged(tables, fns)
    requires sites == MergedSites(AllCalls(tables)) && forwards == MergedForwards(AllCalls(tables))
    ensures Gather(paths, c).sites == sites && Gather(paths, c).forwards == forwards
    ensures Gather(paths, c).live.Keys == fns.Keys
    ensures forall n :: n in fns ==> Gather(paths, c).live[n] == fns[n].id
  {
    assert AllCalls(tables) == CallsOfAll(paths, c) by {
      assert forall i :: 0 <= i < |paths| ==> Contributes(tables[i], c[paths[i]]);
    }
    WinnersAreMerged(paths, c, tables, fns);
  }

  lemma WinnersAreMerged<D, T>(paths: seq<string>, c: map<string, Collection<D>>, tables: seq<FileTable<D, T>>,
        fns: map<string, Fn<D>>)
    requires |tables| == |paths| && forall p :: p in c <==> p in paths
    requires forall i :: 0 <= i < |paths| ==> Contributes(tables[i], c[paths[i]])
    requires FnsMerged(tables, fns)
    ensures Winners(paths, c).Keys == fns.Keys && forall n :: n in fns ==> Winners(paths, c)[n] == fns[n].id
  {
    forall n
      ensures n in fns <==> n in Winners(paths, c)
      ensures n in fns ==> Winners(paths, c)[n] == fns[n].id
    {
      WinnerIsMerged(paths, c, tables, fns, n);
    }
  }

  lemma WinnerIsMerged<D, T>(paths: seq<string>, c: map<string, Collection<D>>, tables: seq<FileTable<D, T>>,
        fns: map<string, Fn<D>>, n: string)
    requires |tables| == |paths| && forall p :: p in c <==> p in paths
    requires forall i :: 0 <= i < |paths| ==> Contributes(tables[i], c[paths[i]])
    requires FnsMerged(tables, fns)
    ensures n in fns <==> n in Names(c)
    ensures n in fns ==> Winner(paths, c, n).Some? && Winner(paths, c, n).value.1 == fns[n].id
  {
    NamesAreDefined(paths, c, tables, n);
    if n in fns {
      var k := LastExistsFor(tables, n);
      WinnerIsLast(paths, c, tables, n, k);
    }
  }

  lemma NamesAreDefined<D, T>(paths: seq<string>, c: map<string, Collection<D>>, tables: seq<FileTable<D, T>>,
        n: string)
    requires |tables| == |paths| && forall p :: p in c <==> p in paths
    requires forall i :: 0 <= i < |paths| ==> Contributes(tables[i], c[paths[i]])
    ensures n in Names(c) <==> Defined(tables, n)
  {
    if n in Names(c) {
      var p :| p in c && n in c[p].defs;
      var k: nat :| k < |paths| && paths[k] == p;
      assert Contributes(tables[k], c[paths[k]]);
    }
    if k: nat :| k < |tables| && n in tables[k].fns {
      assert Contributes(tables[k], c[paths[k]]);
    }
  }

  lemma {:induction false} WinnerIsLast<D, T>(paths: seq<string>, c: map<string, Collection<D>>,
        tables: seq<FileTable<D, T>>, n: string, k: nat)
    requires |tables| == |paths| && forall p :: p in paths ==> p in c
    requires forall i :: 0 <= i < |paths| ==> Contributes(tables[i], c[paths[i]])
    requires LastDefines(tables, n, k)
    ensures Winner(paths, c, n) == Some((paths[k], tables[k].fns[n].id))
  {
    var m := |paths| - 1;
    assert Contributes(tables[m], c[paths[m]]);
    if k < m {
      assert n !in tables[m].fns;
      WinnerIsLast(paths[..m], c, tables[..m], n, k);
      assert Definers(paths, c, n) == Definers(paths[..m], c, n);
    }
  }
}
