/**
 * The literals that some write of the project may replace: what an incremental check compares of the
 * definitions of a name, and which new definitions that comparison notices.
 */
module Rebounds {
  import opened Wrappers
  import opened Captures
  import opened FileOrder
  import opened MergedTables

  /** File `p` holds literal `k` under a name that another file may write. */
  predicate WrittenElsewhere<D>(c: map<string, Collection<D>>, p: string, q: string, l: (string, Key)) {
    p in c && q in c && p != q && l in c[p].literals && MayWrite(c[q].writes, l.0)
  }

  /** Every literal replaced inside its file or by another file of the project. */
  function Rebound<D>(c: map<string, Collection<D>>): (r: set<Key>)
    ensures forall k :: k in r <==>
      (exists p :: p in c && k in c[p].rebound) || exists p, q, l :: WrittenElsewhere(c, p, q, l) && l.1 == k
  {
    (set p, k | p in c && k in c[p].rebound :: k)
    + (set p, q, l | p in c && q in c && l in c[p].literals && WrittenElsewhere(c, p, q, l) :: l.1)
  }

  /** A file contributes its collection to a merge. */
  ghost predicate Contributes<D, T>(t: FileTable<D, T>, c: Collection<D>) {
    && t.literals == c.literals && t.rebound == c.rebound && t.writes == c.writes
    && t.sites == c.sites && t.forwards == c.forwards
    && t.fns.Keys == c.defs.Keys && forall n :: n in t.fns ==> t.fns[n].id == c.defs[n]
  }

  lemma MergedIsOwned<D, T>(paths: seq<string>, c: map<string, Collection<D>>, tables: seq<FileTable<D, T>>, k: Key)
    requires |tables| == |paths| && FileOrder.Distinct(paths) && forall p :: p in c <==> p in paths
    requires forall i :: 0 <= i < |paths| ==> Contributes(tables[i], c[paths[i]])
    requires ReboundSomewhere(tables, k)
    ensures k in Rebound(c)
  {
    if i: nat :| i < |tables| && k in tables[i].rebound {
      assert k in c[paths[i]].rebound;
    } else {
      var i: nat, j: nat, name :| WritesLiteral(tables, k, i, j, name);
      assert Contributes(tables[i], c[paths[i]]) && Contributes(tables[j], c[paths[j]]);
      assert WrittenElsewhere(c, paths[j], paths[i], (name, k));
    }
  }

  lemma OwnedIsMerged<D, T>(paths: seq<string>, c: map<string, Collection<D>>, tables: seq<FileTable<D, T>>, k: Key)
    requires |tables| == |paths| && forall p :: p in c <==> p in paths
    requires forall i :: 0 <= i < |paths| ==> Contributes(tables[i], c[paths[i]])
    requires k in Rebound(c)
    ensures ReboundSomewhere(tables, k)
  {
    if p :| p in c && k in c[p].rebound {
      var i: nat :| i < |paths| && paths[i] == p;
      assert Contributes(tables[i], c[paths[i]]);
    } else {
      var p, q, l :| WrittenElsewhere(c, p, q, l) && l.1 == k;
      var j: nat :| j < |paths| && paths[j] == p;
      var i: nat :| i < |paths| && paths[i] == q;
      assert Contributes(tables[i], c[paths[i]]) && Contributes(tables[j], c[paths[j]]);
      assert WritesLiteral(tables, k, i, j, l.0);
    }
  }

  /** Merging the tables of all files, in any order, leaves exactly this set. */
  lemma MergedIsRebound<D, T>(paths: seq<string>, c: map<string, Collection<D>>, tables: seq<FileTable<D, T>>,
        literals: set<(string, Key)>, writes: WriteSet, rebound: set<Key>)
    requires |tables| == |paths| && FileOrder.Distinct(paths) && forall p :: p in c <==> p in paths
    requires forall i :: 0 <= i < |paths| ==> Contributes(tables[i], c[paths[i]])
    requires WritesMerged(tables, literals, writes, rebound)
    ensures rebound == Rebound(c)
  {
    forall k ensures k in rebound <==> k in Rebound(c) {
      if ReboundSomewhere(tables, k) {
        MergedIsOwned(paths, c, tables, k);
      }
      if k in Rebound(c) {
        OwnedIsMerged(paths, c, tables, k);
      }
    }
  }

  // ---------------------------------------------------------------------------------------------
  // Which changes the comparison notices
  // ---------------------------------------------------------------------------------------------

  /** A file's literals are its own. */
  ghost predicate Own<D>(p: string, c: Collection<D>) {
    (forall l :: l in c.literals ==> l.1.0 == p) && forall k :: k in c.rebound ==> k.0 == p
  }

  ghost predicate AllOwn<D>(c: map<string, Collection<D>>) {
    forall p :: p in c ==> Own(p, c[p])
  }

  /** Every literal the file holds under the name is among these. */
  ghost predicate HeldIn<D>(c: Collection<D>, n: string, keys: set<Key>) {
    forall k {:trigger (n, k) in c.literals} :: (n, k) in c.literals ==> k in keys
  }

  /** A literal under a name that another file may write is replaced. */
  lemma WrittenIsRebound<D>(c: map<string, Collection<D>>, p: string, q: string, n: string)
    requires p in c && q in c && p != q && MayWrite(c[q].writes, n)
    ensures HeldIn(c[p], n, Rebound(c))
  {
    forall k | (n, k) in c[p].literals ensures k in Rebound(c) {
      assert WrittenElsewhere(c, p, q, (n, k));
    }
  }

  lemma ReboundIsOwned<D>(c: map<string, Collection<D>>, k: Key)
    requires AllOwn(c) && k in Rebound(c)
    ensures k.0 in c
  {
    if p :| p in c && k in c[p].rebound {
      assert Own(p, c[p]);
    } else {
      var p, q, l :| WrittenElsewhere(c, p, q, l) && l.1 == k;
      assert Own(p, c[p]);
    }
  }

  /**
   * File `p` comes to define a name that `q` defines too, and the project's replaced literals stay the same. Then `p`
   * was there before, its new literal stood where a replaced one had stood, and every other literal of the name in the
   * project had been replaced already.
   */
  lemma UnnoticedDefiner<D>(seen: map<string, Collection<D>>, now: map<string, Collection<D>>, p: string, q: string,
        n: string, k: Key)
    requires AllOwn(seen) && AllOwn(now) && p in now && q in now && p != q
    requires (n, k) in now[p].literals && MayWrite(now[p].writes, n) && MayWrite(now[q].writes, n)
    requires Rebound(seen) == Rebound(now)
    ensures p in seen && HeldIn(now[p], n, Rebound(seen))
    ensures forall r :: r in now && r != p ==> HeldIn(now[r], n, Rebound(seen))
  {
    WrittenIsRebound(now, p, q, n);
    assert Own(p, now[p]);
    ReboundIsOwned(seen, k);
    forall r | r in now && r != p ensures HeldIn(now[r], n, Rebound(seen)) {
      WrittenIsRebound(now, r, p, n);
    }
  }

  /** What a file's collection becomes when it also binds a name to a literal at `k`. */
  function WithLiteral<D>(c: Collection<D>, n: string, d: D, k: Key): Collection<D> {
    c.(defs := c.defs[n := d], literals := c.literals + {(n, k)}, writes := c.writes.(names := c.writes.names + {n}))
  }

  /** Some other file may write the name. */
  ghost predicate WrittenBut<D>(c: map<string, Collection<D>>, p: string, n: string) {
    exists q :: q in c && q != p && MayWrite(c[q].writes, n)
  }

  /**
   * Binding one more name in a file changes the replaced literals exactly when some other file holds a literal under it
   * that was not replaced before, or the new literal is one that was not and another file may write the name.
   */
  lemma AdditionNoticed<D>(c: map<string, Collection<D>>, p: string, n: string, d: D, k: Key)
    requires p in c
    ensures Rebound(c[p := WithLiteral(c[p], n, d, k)]) == Rebound(c) <==>
      (forall r :: r in c && r != p ==> HeldIn(c[r], n, Rebound(c))) && (WrittenBut(c, p, n) ==> k in Rebound(c))
  {
    var c' := c[p := WithLiteral(c[p], n, d, k)];
    forall x | x in Rebound(c) ensures x in Rebound(c') {
      if q :| q in c && x in c[q].rebound {
        assert q in c' && x in c'[q].rebound;
      } else {
        var r, q, l :| WrittenElsewhere(c, r, q, l) && l.1 == x;
        assert WrittenElsewhere(c', r, q, l);
      }
    }
    forall r | r in c && r != p ensures HeldIn(c[r], n, Rebound(c')) {
      WrittenIsRebound(c', r, p, n);
    }
    if q :| q in c && q != p && MayWrite(c[q].writes, n) {
      WrittenIsRebound(c', p, q, n);
      assert (n, k) in c'[p].literals;
    }
    if (forall r :: r in c && r != p ==> HeldIn(c[r], n, Rebound(c))) && (WrittenBut(c, p, n) ==> k in Rebound(c)) {
      forall x | x in Rebound(c') ensures x in Rebound(c) {
        NothingNew(c, p, n, d, k, x);
      }
    }
  }

  lemma NothingNew<D>(c: map<string, Collection<D>>, p: string, n: string, d: D, k: Key, x: Key)
    requires p in c && x in Rebound(c[p := WithLiteral(c[p], n, d, k)])
    requires forall r :: r in c && r != p ==> HeldIn(c[r], n, Rebound(c))
    requires WrittenBut(c, p, n) ==> k in Rebound(c)
    ensures x in Rebound(c)
  {
    var c' := c[p := WithLiteral(c[p], n, d, k)];
    if q :| q in c' && x in c'[q].rebound {
      assert q in c && x in c[q].rebound;
    } else {
      var r, q, l :| WrittenElsewhere(c', r, q, l) && l.1 == x;
      if r == p && l == (n, k) {
        assert q in c && q != p && MayWrite(c[q].writes, n);
      } else if q == p && l.0 == n && !MayWrite(c[p].writes, n) {
        assert HeldIn(c[r], n, Rebound(c)) && (n, x) in c[r].literals;
      } else {
        assert WrittenElsewhere(c, r, q, l);
      }
    }
  }
}
