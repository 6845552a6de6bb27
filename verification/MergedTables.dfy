/**
 * Merging the per-file function tables in file order: later files win, return slots of different
 * files stay apart, and writes in one file can replace literals captured in another.
 */
module MergedTables {
  import opened Captures
  import opened Defaults

  /** A definition and the return slot it owns. */
  datatype Fn<I> = Fn(id: I, slot: nat)

  /** What one file's collection contributes. */
  datatype FileTable<I, T> = FileTable(
    fns: map<string, Fn<I>>,
    s3: map<(string, string), nat>,
    slots: seq<T>,
    sites: map<string, seq<CallSite>>,
    forwards: seq<Forward>,
    literals: set<(string, Key)>,
    rebound: set<Key>,
    writes: WriteSet)

  ghost predicate TableOk<I, T>(t: FileTable<I, T>) {
    && (forall name :: name in t.fns ==> t.fns[name].slot < |t.slots|)
    && (forall key :: key in t.s3 ==> t.s3[key] < |t.slots|)
  }

  /** Where the slots of file `k` start. */
  function Offset<I, T>(tables: seq<FileTable<I, T>>, k: nat): nat
    requires k <= |tables|
  {
    if k == 0 then 0 else Offset(tables, k - 1) + |tables[k - 1].slots|
  }

  lemma {:induction false} OffsetGrows<I, T>(tables: seq<FileTable<I, T>>, j: nat, k: nat)
    requires j < k <= |tables|
    ensures Offset(tables, j) + |tables[j].slots| <= Offset(tables, k)
  {
    if j < k - 1 {
      OffsetGrows(tables, j, k - 1);
    }
  }

  lemma {:induction false} OffsetAppend<I, T>(tables: seq<FileTable<I, T>>, t: FileTable<I, T>, k: nat)
    requires k <= |tables|
    ensures Offset(tables + [t], k) == Offset(tables, k)
  {
    if k > 0 {
      OffsetAppend(tables, t, k - 1);
      assert (tables + [t])[k - 1] == tables[k - 1];
    }
  }

  function Shifted<I>(f: Fn<I>, offset: nat): Fn<I> {
    f.(slot := f.slot + offset)
  }

  // ---------------------------------------------------------------------------------------------
  // What the merged table is
  // ---------------------------------------------------------------------------------------------

  /** File `k` is the last to define the name. */
  ghost predicate LastDefines<I, T>(tables: seq<FileTable<I, T>>, name: string, k: nat) {
    && k < |tables| && name in tables[k].fns
    && forall j :: k < j < |tables| ==> name !in tables[j].fns
  }

  ghost predicate LastRegisters<I, T>(tables: seq<FileTable<I, T>>, key: (string, string), k: nat) {
    && k < |tables| && key in tables[k].s3
    && forall j :: k < j < |tables| ==> key !in tables[j].s3
  }

  ghost predicate Defined<I, T>(tables: seq<FileTable<I, T>>, name: string) {
    exists k: nat :: k < |tables| && name in tables[k].fns
  }

  ghost predicate Registered<I, T>(tables: seq<FileTable<I, T>>, key: (string, string)) {
    exists k: nat :: k < |tables| && key in tables[k].s3
  }

  /** Each name has the definition of its last file. */
  ghost predicate FnsMerged<I, T>(tables: seq<FileTable<I, T>>, fns: map<string, Fn<I>>) {
    && (forall name :: name in fns <==> Defined(tables, name))
    && (forall name, k: nat {:trigger LastDefines(tables, name, k)} ::
          LastDefines(tables, name, k) ==> name in fns && fns[name] == Shifted(tables[k].fns[name], Offset(tables, k)))
  }

  ghost predicate S3Merged<I, T>(tables: seq<FileTable<I, T>>, s3: map<(string, string), nat>) {
    && (forall key :: key in s3 <==> Registered(tables, key))
    && (forall key, k: nat {:trigger LastRegisters(tables, key, k)} ::
          LastRegisters(tables, key, k) ==> key in s3 && s3[key] == tables[k].s3[key] + Offset(tables, k))
  }

  ghost predicate SlotAt<I, T>(tables: seq<FileTable<I, T>>, slots: seq<T>, k: nat, s: nat)
    requires k < |tables| && s < |tables[k].slots|
  {
    Offset(tables, k) + s < |slots| && slots[Offset(tables, k) + s] == tables[k].slots[s]
  }

  /** Every file's slots are there, one file after the other. */
  ghost predicate SlotsMerged<I, T>(tables: seq<FileTable<I, T>>, slots: seq<T>) {
    && |slots| == Offset(tables, |tables|)
    && forall k: nat, s: nat {:trigger SlotAt(tables, slots, k, s)} ::
         k < |tables| && s < |tables[k].slots| ==> SlotAt(tables, slots, k, s)
  }

  /** A later file takes the caller's name over from an earlier one. */
  ghost predicate Overridden<I, T>(tables: seq<FileTable<I, T>>, caller: string, k: nat) {
    exists j: nat :: k < j < |tables| && caller in tables[j].fns && Defined(tables[..j], caller)
  }

  ghost predicate KeptCall<I, T>(tables: seq<FileTable<I, T>>, call: Forward, k: nat) {
    k < |tables| && call in tables[k].forwards && !Overridden(tables, call.caller, k)
  }

  /** The calls of overridden definitions are dropped, and no others. */
  ghost predicate CallsMerged<I, T>(tables: seq<FileTable<I, T>>, calls: seq<Forward>) {
    forall call :: call in calls <==> exists k: nat :: KeptCall(tables, call, k)
  }

  /** File `i` may write a name that file `j` captures the literal under. */
  ghost predicate WritesLiteral<I, T>(tables: seq<FileTable<I, T>>, s: Key, i: nat, j: nat, name: string) {
    && i < |tables| && j < |tables| && i != j
    && (name, s) in tables[j].literals && MayWrite(tables[i].writes, name)
  }

  ghost predicate SomeWrites<I, T>(tables: seq<FileTable<I, T>>, name: string) {
    exists k: nat {:trigger tables[k]} :: k < |tables| && MayWrite(tables[k].writes, name)
  }

  ghost predicate ReboundSomewhere<I, T>(tables: seq<FileTable<I, T>>, s: Key) {
    || (exists k: nat :: k < |tables| && s in tables[k].rebound)
    || (exists i: nat, j: nat, name :: WritesLiteral(tables, s, i, j, name))
  }

  /** Literals, writes, and the literals replaced inside a file or by another one, earlier or later. */
  ghost predicate WritesMerged<I, T>(tables: seq<FileTable<I, T>>, literals: set<(string, Key)>, writes: WriteSet,
        rebound: set<Key>)
  {
    && (forall l :: l in literals <==> exists k: nat :: k < |tables| && l in tables[k].literals)
    && (forall name :: MayWrite(writes, name) <==> SomeWrites(tables, name))
    && (forall s :: s in rebound <==> ReboundSomewhere(tables, s))
  }

  // ---------------------------------------------------------------------------------------------
  // One more file
  // ---------------------------------------------------------------------------------------------

  function ShiftedFns<I>(fns: map<string, Fn<I>>, offset: nat): map<string, Fn<I>> {
    map name | name in fns :: Shifted(fns[name], offset)
  }

  function ShiftedS3(s3: map<(string, string), nat>, offset: nat): map<(string, string), nat> {
    map key | key in s3 :: s3[key] + offset
  }

  lemma DefinedAppend<I, T>(tables: seq<FileTable<I, T>>, t: FileTable<I, T>, name: string)
    ensures Defined(tables + [t], name) <==> Defined(tables, name) || name in t.fns
  {
    var more := tables + [t];
    assert more[|tables|] == t;
    if k: nat :| k < |tables| && name in tables[k].fns {
      assert name in more[k].fns;
    }
  }

  lemma RegisteredAppend<I, T>(tables: seq<FileTable<I, T>>, t: FileTable<I, T>, key: (string, string))
    ensures Registered(tables + [t], key) <==> Registered(tables, key) || key in t.s3
  {
    var more := tables + [t];
    assert more[|tables|] == t;
    if k: nat :| k < |tables| && key in tables[k].s3 {
      assert key in more[k].s3;
    }
  }

  lemma LastDefinesAppend<I, T>(tables: seq<FileTable<I, T>>, t: FileTable<I, T>, name: string, k: nat)
    requires LastDefines(tables + [t], name, k)
    ensures k == |tables| || (LastDefines(tables, name, k) && name !in t.fns)
  {
    var more, n := tables + [t], |tables|;
    if k < n {
      assert more[n] == t;
      assert forall j :: k < j < n ==> more[j] == tables[j];
    }
  }

  lemma FnsAppendAt<I, T>(tables: seq<FileTable<I, T>>, t: FileTable<I, T>, fns: map<string, Fn<I>>, name: string,
        k: nat)
    requires FnsMerged(tables, fns) && LastDefines(tables + [t], name, k)
    ensures
      var after := fns + ShiftedFns(t.fns, Offset(tables, |tables|));
      name in after && after[name] == Shifted((tables + [t])[k].fns[name], Offset(tables + [t], k))
  {
    OffsetAppend(tables, t, k);
    LastDefinesAppend(tables, t, name, k);
    if k < |tables| {
      assert LastDefines(tables, name, k);
    }
  }

  lemma FnsAppend<I, T>(tables: seq<FileTable<I, T>>, t: FileTable<I, T>, fns: map<string, Fn<I>>)
    requires FnsMerged(tables, fns)
    ensures FnsMerged(tables + [t], fns + ShiftedFns(t.fns, Offset(tables, |tables|)))
  {
    forall name ensures name in fns + ShiftedFns(t.fns, Offset(tables, |tables|)) <==> Defined(tables + [t], name) {
      DefinedAppend(tables, t, name);
    }
    forall name, k: nat | LastDefines(tables + [t], name, k)
      ensures
        var after := fns + ShiftedFns(t.fns, Offset(tables, |tables|));
        name in after && after[name] == Shifted((tables + [t])[k].fns[name], Offset(tables + [t], k))
    {
      FnsAppendAt(tables, t, fns, name, k);
    }
  }

  lemma LastRegistersAppend<I, T>(tables: seq<FileTable<I, T>>, t: FileTable<I, T>, key: (string, string), k: nat)
    requires LastRegisters(tables + [t], key, k)
    ensures k == |tables| || (LastRegisters(tables, key, k) && key !in t.s3)
  {
    var more, n := tables + [t], |tables|;
    if k < n {
      assert more[n] == t;
      assert forall j :: k < j < n ==> more[j] == tables[j];
    }
  }

  lemma S3AppendAt<I, T>(tables: seq<FileTable<I, T>>, t: FileTable<I, T>, s3: map<(string, string), nat>,
        key: (string, string), k: nat)
    requires S3Merged(tables, s3) && LastRegisters(tables + [t], key, k)
    ensures
      var after := s3 + ShiftedS3(t.s3, Offset(tables, |tables|));
      key in after && after[key] == (tables + [t])[k].s3[key] + Offset(tables + [t], k)
  {
    OffsetAppend(tables, t, k);
    LastRegistersAppend(tables, t, key, k);
    if k < |tables| {
      assert LastRegisters(tables, key, k);
    }
  }

  lemma S3Append<I, T>(tables: seq<FileTable<I, T>>, t: FileTable<I, T>, s3: map<(string, string), nat>)
    requires S3Merged(tables, s3)
    ensures S3Merged(tables + [t], s3 + ShiftedS3(t.s3, Offset(tables, |tables|)))
  {
    forall key ensures key in s3 + ShiftedS3(t.s3, Offset(tables, |tables|)) <==> Registered(tables + [t], key) {
      RegisteredAppend(tables, t, key);
    }
    forall key, k: nat | LastRegisters(tables + [t], key, k)
      ensures
        var after := s3 + ShiftedS3(t.s3, Offset(tables, |tables|));
        key in after && after[key] == (tables + [t])[k].s3[key] + Offset(tables + [t], k)
    {
      S3AppendAt(tables, t, s3, key, k);
    }
  }

  lemma SlotsAppend<I, T>(tables: seq<FileTable<I, T>>, t: FileTable<I, T>, slots: seq<T>)
    requires SlotsMerged(tables, slots)
    ensures SlotsMerged(tables + [t], slots + t.slots)
  {
    var more, n := tables + [t], |tables|;
    OffsetAppend(tables, t, n);
    assert more[n] == t;
    forall k: nat, s: nat | k < |more| && s < |more[k].slots| ensures SlotAt(more, slots + t.slots, k, s) {
      OffsetAppend(tables, t, k);
      if k < n {
        assert SlotAt(tables, slots, k, s);
      }
    }
  }

  lemma OverriddenAppend<I, T>(tables: seq<FileTable<I, T>>, t: FileTable<I, T>, caller: string, k: nat)
    requires k < |tables|
    ensures Overridden(tables + [t], caller, k) <==>
      Overridden(tables, caller, k) || (caller in t.fns && Defined(tables, caller))
  {
    var more, n := tables + [t], |tables|;
    assert more[n] == t && more[..n] == tables;
    assert forall j :: 0 <= j < n ==> more[j] == tables[j] && more[..j] == tables[..j];
    if j: nat :| k < j < n && caller in tables[j].fns && Defined(tables[..j], caller) {
      assert caller in more[j].fns && Defined(more[..j], caller);
    }
  }

  lemma CallsAppend<I, T>(tables: seq<FileTable<I, T>>, t: FileTable<I, T>, calls: seq<Forward>, kept: seq<Forward>)
    requires CallsMerged(tables, calls)
    requires forall call :: call in kept <==> call in calls && !(call.caller in t.fns && Defined(tables, call.caller))
    ensures CallsMerged(tables + [t], kept + t.forwards)
  {
    var more, n := tables + [t], |tables|;
    assert more[n] == t;
    forall call ensures call in kept + t.forwards <==> exists k: nat :: KeptCall(more, call, k) {
      if call in t.forwards {
        assert KeptCall(more, call, n);
      }
      if call in kept {
        var k: nat :| KeptCall(tables, call, k);
        OverriddenAppend(tables, t, call.caller, k);
        assert KeptCall(more, call, k);
      }
      if k: nat :| KeptCall(more, call, k) {
        if k < n {
          OverriddenAppend(tables, t, call.caller, k);
          assert KeptCall(tables, call, k);
        }
      }
    }
  }

  function CallsOf<I, T>(t: FileTable<I, T>): FileCalls {
    FileCalls(t.fns.Keys, t.sites, t.forwards)
  }

  function AllCalls<I, T>(tables: seq<FileTable<I, T>>): (r: seq<FileCalls>)
    ensures |r| == |tables| && forall k :: 0 <= k < |r| ==> r[k] == CallsOf(tables[k])
  {
    seq(|tables|, k requires 0 <= k < |tables| => CallsOf(tables[k]))
  }

  lemma {:induction false} NamesDefined<I, T>(tables: seq<FileTable<I, T>>, name: string)
    ensures name in AllNames(AllCalls(tables)) <==> Defined(tables, name)
  {
    if tables != [] {
      var n := |tables| - 1;
      assert AllCalls(tables)[..n] == AllCalls(tables[..n]) && tables == tables[..n] + [tables[n]];
      NamesDefined(tables[..n], name);
      DefinedAppend(tables[..n], tables[n], name);
    }
  }

  lemma ForwardsAppend<I, T>(tables: seq<FileTable<I, T>>, t: FileTable<I, T>, fns: map<string, Fn<I>>)
    requires FnsMerged(tables, fns)
    ensures MergedForwards(AllCalls(tables + [t])) ==
      Kept(MergedForwards(AllCalls(tables)), t.fns.Keys * fns.Keys) + t.forwards
  {
    var all := AllCalls(tables + [t]);
    assert all[..|tables|] == AllCalls(tables);
    forall name ensures name in AllNames(AllCalls(tables)) <==> name in fns {
      NamesDefined(tables, name);
    }
    assert AllNames(AllCalls(tables)) == fns.Keys;
  }

  lemma SitesAppend<I, T>(tables: seq<FileTable<I, T>>, t: FileTable<I, T>)
    ensures CalledNames(AllCalls(tables + [t])) == CalledNames(AllCalls(tables)) + t.sites.Keys
    ensures forall name ::
      SitesOf(AllCalls(tables + [t]), name) == SitesIn(MergedSites(AllCalls(tables)), name) + SitesIn(t.sites, name)
  {
    var all := AllCalls(tables + [t]);
    assert all[..|tables|] == AllCalls(tables);
    forall name ensures SitesOf(all, name) == SitesIn(MergedSites(AllCalls(tables)), name) + SitesIn(t.sites, name) {
      CalledSomewhere(AllCalls(tables), name);
    }
  }

  /** The call sites with those of some names extended by a later file's. */
  function Extension(sites: map<string, seq<CallSite>>, more: map<string, seq<CallSite>>,
        names: set<string>): map<string, seq<CallSite>>
  {
    map name | name in sites.Keys + names :: SitesIn(sites, name) + if name in names then SitesIn(more, name) else []
  }

  lemma ExtensionNext(sites: map<string, seq<CallSite>>, more: map<string, seq<CallSite>>, names: set<string>,
        name: string)
    requires name !in names && name in more
    ensures
      var r := Extension(sites, more, names);
      r[name := SitesIn(r, name) + more[name]] == Extension(sites, more, names + {name})
  {
    var r := Extension(sites, more, names);
    assert SitesIn(r, name) == SitesIn(sites, name);
    assert (sites.Keys + names) + {name} == sites.Keys + (names + {name});
  }

  lemma ExtensionNone(sites: map<string, seq<CallSite>>, more: map<string, seq<CallSite>>)
    ensures Extension(sites, more, {}) == sites
  {
    assert sites.Keys + {} == sites.Keys;
    assert forall name :: name in sites ==> SitesIn(sites, name) + [] == sites[name];
  }

  /** Add the later file's call sites, callee by callee. */
  method ExtendSites(sites: map<string, seq<CallSite>>, more: map<string, seq<CallSite>>)
    returns (r: map<string, seq<CallSite>>)
    ensures r == Extension(sites, more, more.Keys)
  {
    r := sites;
    var left := more.Keys;
    ghost var done: set<string> := {};
    ExtensionNone(sites, more);
    while left != {}
      invariant left !! done && left + done == more.Keys && r == Extension(sites, more, done)
      decreases |left|
    {
      var name :| name in left;
      ExtensionNext(sites, more, done, name);
      r := r[name := SitesIn(r, name) + more[name]];
      left, done := left - {name}, done + {name};
    }
    assert done == more.Keys;
  }

  lemma ExtensionIsMerged<I, T>(tables: seq<FileTable<I, T>>, t: FileTable<I, T>)
    ensures Extension(MergedSites(AllCalls(tables)), t.sites, t.sites.Keys) == MergedSites(AllCalls(tables + [t]))
  {
    SitesAppend(tables, t);
    var a, b := Extension(MergedSites(AllCalls(tables)), t.sites, t.sites.Keys), MergedSites(AllCalls(tables + [t]));
    assert a.Keys == b.Keys;
    forall name | name in a ensures a[name] == b[name] {
      assert b[name] == SitesOf(AllCalls(tables + [t]), name);
    }
  }

  /** Some literal under a name these writes may reach. */
  ghost predicate Reached(literals: set<(string, Key)>, writes: WriteSet, s: Key) {
    exists name :: (name, s) in literals && MayWrite(writes, name)
  }

  lemma ReboundBefore<I, T>(tables: seq<FileTable<I, T>>, t: FileTable<I, T>, s: Key)
    requires ReboundSomewhere(tables, s) || s in t.rebound
    ensures ReboundSomewhere(tables + [t], s)
  {
    var more, n := tables + [t], |tables|;
    assert more[n] == t;
    if s in t.rebound {
      assert s in more[n].rebound;
    } else if k: nat :| k < n && s in tables[k].rebound {
      assert s in more[k].rebound;
    } else {
      var i: nat, j: nat, name :| WritesLiteral(tables, s, i, j, name);
      assert WritesLiteral(more, s, i, j, name);
    }
  }

  lemma ReboundAcross<I, T>(tables: seq<FileTable<I, T>>, t: FileTable<I, T>, s: Key, k: nat, name: string)
    requires k < |tables|
    requires
      || ((name, s) in tables[k].literals && MayWrite(t.writes, name))
      || ((name, s) in t.literals && MayWrite(tables[k].writes, name))
    ensures ReboundSomewhere(tables + [t], s)
  {
    var more, n := tables + [t], |tables|;
    assert more[n] == t && more[k] == tables[k];
    assert WritesLiteral(more, s, n, k, name) || WritesLiteral(more, s, k, n, name);
  }

  /** A literal replaced in the longer list was replaced before, inside the last file, or between it and another. */
  lemma ReboundSplit<I, T>(tables: seq<FileTable<I, T>>, t: FileTable<I, T>, s: Key) returns (k: nat, name: string)
    requires ReboundSomewhere(tables + [t], s)
    ensures
      || ReboundSomewhere(tables, s)
      || s in t.rebound
      || (k < |tables| && (name, s) in tables[k].literals && MayWrite(t.writes, name))
      || (k < |tables| && (name, s) in t.literals && MayWrite(tables[k].writes, name))
  {
    var more, n := tables + [t], |tables|;
    assert more[n] == t;
    k, name := 0, "";
    if own: nat :| own < |more| && s in more[own].rebound {
      if own < n {
        assert s in tables[own].rebound;
      }
    } else {
      var i: nat, j: nat, written :| WritesLiteral(more, s, i, j, written);
      if i < n && j < n {
        assert WritesLiteral(tables, s, i, j, written);
      } else {
        k, name := if i < n then i else j, written;
      }
    }
  }

  lemma ReboundAppendFile<I, T>(tables: seq<FileTable<I, T>>, t: FileTable<I, T>, literals: set<(string, Key)>,
        writes: WriteSet, rebound: set<Key>, s: Key)
    requires WritesMerged(tables, literals, writes, rebound)
    ensures ReboundSomewhere(tables + [t], s) <==>
      s in rebound || s in t.rebound || Reached(literals, t.writes, s) || Reached(t.literals, writes, s)
  {
    if s in rebound || s in t.rebound {
      ReboundBefore(tables, t, s);
    }
    if name :| (name, s) in literals && MayWrite(t.writes, name) {
      var k: nat :| k < |tables| && (name, s) in tables[k].literals;
      ReboundAcross(tables, t, s, k, name);
    }
    if name :| (name, s) in t.literals && MayWrite(writes, name) {
      assert SomeWrites(tables, name);
      var k: nat :| k < |tables| && MayWrite(tables[k].writes, name);
      ReboundAcross(tables, t, s, k, name);
    }
    if ReboundSomewhere(tables + [t], s) {
      var k, name := ReboundSplit(tables, t, s);
      assert k < |tables| && MayWrite(tables[k].writes, name) ==> MayWrite(writes, name) by {
        assert MayWrite(writes, name) <==> SomeWrites(tables, name);
      }
    }
  }

  lemma UnionAppend<I, T>(tables: seq<FileTable<I, T>>, t: FileTable<I, T>, literals: set<(string, Key)>,
        writes: WriteSet, rebound: set<Key>)
    requires WritesMerged(tables, literals, writes, rebound)
    ensures forall l :: l in literals + t.literals <==>
      exists k: nat :: k < |tables + [t]| && l in (tables + [t])[k].literals
    ensures forall name :: MayWrite(Extend(writes, t.writes), name) <==> SomeWrites(tables + [t], name)
  {
    var more, n := tables + [t], |tables|;
    assert more[n] == t && forall k :: 0 <= k < n ==> more[k] == tables[k];
    forall l ensures l in literals + t.literals <==> exists k: nat :: k < |more| && l in more[k].literals {
      if k: nat :| k < n && l in tables[k].literals {
        assert l in more[k].literals;
      }
    }
    forall name ensures MayWrite(Extend(writes, t.writes), name) <==> SomeWrites(more, name) {
      assert MayWrite(writes, name) <==> SomeWrites(tables, name);
      if k: nat :| k < n && MayWrite(tables[k].writes, name) {
        assert MayWrite(more[k].writes, name);
      }
      if k: nat :| k < |more| && MayWrite(more[k].writes, name) && k < n {
        assert MayWrite(tables[k].writes, name);
      }
    }
  }

  /** The literals these writes may replace. */
  method RebindCaptured(rebound: set<Key>, writes: WriteSet, literals: set<(string, Key)>) returns (r: set<Key>)
    ensures forall s :: s in r <==> s in rebound || Reached(literals, writes, s)
  {
    r := rebound;
    var left := literals;
    while left != {}
      invariant left <= literals
      invariant forall s :: s in r <==> s in rebound || Reached(literals - left, writes, s)
      decreases |left|
    {
      var entry :| entry in left;
      assert forall name, s {:trigger (name, s)} :: (name, s) in literals - (left - {entry}) <==>
        (name, s) in literals - left || (name, s) == entry;
      if MayWrite(writes, entry.0) {
        assert (entry.0, entry.1) in literals - (left - {entry});
        r := r + {entry.1};
      }
      left := left - {entry};
    }
    assert literals - left == literals;
  }

  class Merged<I, T> {
    var fns: map<string, Fn<I>>
    var s3: map<(string, string), nat>
    var slots: seq<T>
    var sites: map<string, seq<CallSite>>
    var forwards: seq<Forward>
    var literals: set<(string, Key)>
    var rebound: set<Key>
    var writes: WriteSet

    /** This is the merge of these files, in this order. */
    ghost predicate Merges(tables: seq<FileTable<I, T>>)
      reads this
    {
      && FnsMerged(tables, fns) && S3Merged(tables, s3) && SlotsMerged(tables, slots)
      && sites == MergedSites(AllCalls(tables)) && forwards == MergedForwards(AllCalls(tables))
      && CallsMerged(tables, forwards)
      && WritesMerged(tables, literals, writes, rebound)
    }

    constructor ()
      ensures Merges([])
    {
      fns, s3, slots := map[], map[], [];
      sites, forwards := map[], [];
      literals, rebound, writes := {}, {}, NO_WRITES;
    }

    /** Drop the calls whose caller the later file takes over. */
    method RetainCalls(later: map<string, Fn<I>>) returns (kept: seq<Forward>)
      ensures kept == Kept(forwards, later.Keys * fns.Keys)
    {
      kept := [];
      for i := 0 to |forwards|
        invariant kept == Kept(forwards[..i], later.Keys * fns.Keys)
      {
        assert forwards[..i + 1][..i] == forwards[..i];
        if !(forwards[i].caller in later && forwards[i].caller in fns) {
          kept := kept + [forwards[i]];
        }
      }
      assert forwards[..|forwards|] == forwards;
    }

    method AppendCalls(t: FileTable<I, T>, ghost tables: seq<FileTable<I, T>>)
      requires FnsMerged(tables, fns) && CallsMerged(tables, forwards)
      requires sites == MergedSites(AllCalls(tables)) && forwards == MergedForwards(AllCalls(tables))
      modifies `sites, `forwards
      ensures CallsMerged(tables + [t], forwards)
      ensures sites == MergedSites(AllCalls(tables + [t])) && forwards == MergedForwards(AllCalls(tables + [t]))
    {
      var kept := RetainCalls(t.fns);
      CallsAppend(tables, t, forwards, kept);
      ForwardsAppend(tables, t, fns);
      forwards := kept + t.forwards;
      sites := ExtendSites(sites, t.sites);
      ExtensionIsMerged(tables, t);
    }

    method AppendCollected(t: FileTable<I, T>, ghost tables: seq<FileTable<I, T>>)
      requires Merges(tables)
      modifies this
      ensures Merges(tables + [t])
    {
      AppendCalls(t, tables);
      ghost var literalsBefore, writesBefore, reboundBefore := literals, writes, rebound;
      FnsAppend(tables, t, fns);
      S3Append(tables, t, s3);
      SlotsAppend(tables, t, slots);
      UnionAppend(tables, t, literals, writes, rebound);
      var offset := |slots|;
      slots := slots + t.slots;
      var found := RebindCaptured(rebound, t.writes, literals);
      found := RebindCaptured(found, writes, t.literals);
      fns := fns + ShiftedFns(t.fns, offset);
      s3 := s3 + ShiftedS3(t.s3, offset);
      literals := literals + t.literals;
      rebound := found + t.rebound;
      writes := Extend(writes, t.writes);
      forall s ensures s in rebound <==> ReboundSomewhere(tables + [t], s) {
        ReboundAppendFile(tables, t, literalsBefore, writesBefore, reboundBefore, s);
      }
    }
  }

  method MergeCollected<I, T>(tables: seq<FileTable<I, T>>) returns (m: Merged<I, T>)
    ensures fresh(m) && m.Merges(tables)
  {
    m := new Merged();
    for i := 0 to |tables|
      invariant fresh(m) && m.Merges(tables[..i])
    {
      m.AppendCollected(tables[i], tables[..i]);
      assert tables[..i + 1] == tables[..i] + [tables[i]];
    }
    assert tables[..|tables|] == tables;
  }

  // ---------------------------------------------------------------------------------------------
  // What that gives
  // ---------------------------------------------------------------------------------------------

  lemma {:induction false} LastExistsFor<I, T>(tables: seq<FileTable<I, T>>, name: string) returns (k: nat)
    requires Defined(tables, name)
    ensures LastDefines(tables, name, k)
  {
    var n := |tables| - 1;
    if name in tables[n].fns {
      k := n;
    } else {
      var i: nat :| i < |tables| && name in tables[i].fns;
      assert name in tables[..n][i].fns;
      k := LastExistsFor(tables[..n], name);
    }
  }

  /** Every merged function holds the return its own file's table held for it, in a slot inside that file's range. */
  lemma MergedReturns<I, T>(tables: seq<FileTable<I, T>>, fns: map<string, Fn<I>>, slots: seq<T>, name: string)
    returns (k: nat)
    requires forall i :: 0 <= i < |tables| ==> TableOk(tables[i])
    requires FnsMerged(tables, fns) && SlotsMerged(tables, slots) && name in fns
    ensures LastDefines(tables, name, k) && fns[name].id == tables[k].fns[name].id
    ensures Offset(tables, k) <= fns[name].slot < Offset(tables, k) + |tables[k].slots| <= |slots|
    ensures slots[fns[name].slot] == tables[k].slots[tables[k].fns[name].slot]
  {
    k := LastExistsFor(tables, name);
    OffsetGrows(tables, k, |tables|);
    assert SlotAt(tables, slots, k, tables[k].fns[name].slot);
  }

  lemma MergedMethodReturns<I, T>(tables: seq<FileTable<I, T>>, s3: map<(string, string), nat>, slots: seq<T>,
        key: (string, string), k: nat)
    requires k < |tables| && key in tables[k].s3 && tables[k].s3[key] < |tables[k].slots|
    requires S3Merged(tables, s3) && SlotsMerged(tables, slots) && LastRegisters(tables, key, k)
    ensures key in s3 && s3[key] < |slots| && slots[s3[key]] == tables[k].slots[tables[k].s3[key]]
  {
    assert SlotAt(tables, slots, k, tables[k].s3[key]);
  }

  /** Functions of different files never share a slot. */
  lemma SlotsApart<I, T>(tables: seq<FileTable<I, T>>, fns: map<string, Fn<I>>, slots: seq<T>, a: string, b: string)
    requires forall i :: 0 <= i < |tables| ==> TableOk(tables[i])
    requires FnsMerged(tables, fns) && SlotsMerged(tables, slots) && a in fns && b in fns
    requires forall k: nat :: !(LastDefines(tables, a, k) && LastDefines(tables, b, k))
    ensures fns[a].slot != fns[b].slot
  {
    var j := MergedReturns(tables, fns, slots, a);
    var k := MergedReturns(tables, fns, slots, b);
    if j < k {
      OffsetGrows(tables, j, k);
    } else if k < j {
      OffsetGrows(tables, k, j);
    }
  }
}
