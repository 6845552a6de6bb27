/** A module that joins the project under a file that was checked against its disk copy. */
module BoxExample {
  import opened Wrappers
  import opened Captures
  import opened Defaults
  import opened FileOrder
  import opened Rebounds
  import opened Project

  /** A file: the path of the module it loads, if any, and what it exports as a module; it binds nothing. */
  datatype Source = Source(loads: Option<string>, exports: seq<string>)

  /** A file that loads a module, the module, and what its disk copy exports. */
  datatype Names = Names(a: string, m: string, onDisk: seq<string>)

  ghost predicate Different(e: Names) {
    e.a != e.m && e.onDisk != []
  }

  function NoBindings(): Collection<string> {
    Collection(map[], {}, map[], [], {}, {}, {}, NO_WRITES, {})
  }

  function Exports(e: Names, found: Overlay<Source>): seq<string> {
    match found
    case Checked(c) => c.exports
    case Unsaved => []
    case OnDisk => e.onDisk
  }

  /** A walk of a file shows what its module exports. */
  function Show(e: Names, c: Source, src: Sources<Source>): Emission<seq<string>> {
    Emission(if c.loads.Some? then Exports(e, Lookup(src, c.loads.value)) else [], {})
  }

  predicate Loads(c: Source) {
    c.loads.Some?
  }

  function Imports(c: Source): set<string> {
    if c.loads.Some? then {c.loads.value} else {}
  }

  function Showing(e: Names): Env<Source, bool, bool, nat, string, bool, seq<string>> {
    Env((p, c, k) => NoBindings(), Loads, (p, c, src) => Imports(c), name => false, name => false,
        Reader(d => ("", 0), d => None, d => {}, (d, source, start) => false),
        (p, c, k, m, src, t) => Show(e, c, src), [])
  }

  lemma ShowingOk(e: Names)
    ensures EmitOk(Showing(e)) && CollectOk(Showing(e))
  {
    var env := Showing(e);
    forall p, c, k, m, src, t, src', t' | TablesOk(t) && TablesOk(t') && SameView(env, p, c, k, m, src, t, src', t')
      ensures env.emit(p, c, k, m, src, t) == env.emit(p, c, k, m, src', t')
    {
      if c.loads.Some? {
        assert c.loads.value in env.imports(p, c, src);
      }
    }
  }

  function InA(e: Names): Source {
    Source(Some(e.m), [])
  }

  /** The module joins the project without its exports. */
  function InM(): Source {
    Source(None, [])
  }

  function First(e: Names): seq<(string, Source)> {
    [(e.a, InA(e))]
  }

  function Seen(e: Names): map<string, Collection<string>> {
    map[e.a := NoBindings()]
  }

  function Now(e: Names): map<string, Collection<string>> {
    map[e.a := NoBindings(), e.m := NoBindings()]
  }

  /** After a check of `a` alone. */
  function Settled(e: Names): State<Source, bool, bool, nat, string, bool, seq<string>> {
    State(First(e), true, true, {}, Seen(e), {}, {}, Some(Prev(map[], {}, true)), map[e.a := {}], map[e.a := e.onDisk],
          Merge(map[], true, [e.a], Seen(e)), Sources(First(e), {}), [e.a], Seen(e), false, {})
  }

  /** After the module was added. */
  ghost function Added(e: Names): State<Source, bool, bool, nat, string, bool, seq<string>> {
    AfterAdd(Showing(e), Settled(e), e.m, InM())
  }

  lemma NoneReplaced(e: Names)
    ensures Rebound(Now(e)) == {}
  {
    assert forall p, q, l :: !WrittenElsewhere(Now(e), p, q, l);
  }

  lemma NothingUsed(e: Names, reached: map<string, set<string>>)
    requires forall p :: p in reached ==> reached[p] == {}
    ensures forall p :: UsedBy(Now(e), reached, p) == {}
  {
  }

  lemma AddedIs(e: Names)
    requires Different(e)
    ensures Added(e).dirty == {e.m} && Added(e).invalidated == {} && Added(e).prev == Some(Prev(map[], {}, true))
    ensures Added(e).reached == map[e.a := {}]
  {
  }

  lemma OnlyM(e: Names, must: set<string>)
    requires Different(e) && MustBe(Showing(e), Added(e), Now(e), map[], true, must)
    ensures must == {e.m}
  {
    NoneReplaced(e);
    AddedIs(e);
    NothingUsed(e, map[e.a := {}]);
    OnlyDirtyEmitted(Showing(e), Added(e), Now(e), map[], true, must);
  }

  lemma Collects(e: Names)
    requires Different(e)
    ensures Added(e).files == [(e.a, InA(e)), (e.m, InM())]
    ensures Now(e) == AllCollected(Showing(e), Added(e).files, true)
  {
    var files := Added(e).files;
    assert AllCollected(Showing(e), files[..1], true) == map[e.a := NoBindings()];
  }

  /** `a` was seen to look its module up at the path of the new file. */
  lemma StaleIs(e: Names)
    requires Different(e)
    ensures Added(e).stale == {e.a}
  {
    assert (e.a, InA(e)) in First(e) && e.m in Imports(InA(e));
  }

  lemma Shows(e: Names, src: Sources<Source>, t: Tables<nat, string, bool>)
    ensures Showing(e).emit(e.a, InA(e), true, true, src, t) == Emission(Exports(e, Lookup(src, e.m)), {})
  {
  }

  lemma EntryWasFresh(e: Names, t: Tables<nat, string, bool>)
    requires Different(e)
    ensures FreshEntry(Showing(e), (e.a, InA(e)), true, true, map[e.a := e.onDisk], map[e.a := {}],
                       Sources(First(e), {}), t)
  {
    LookedUp(e);
    Shows(e, Sources(First(e), {}), t);
  }

  lemma EmittedIs(e: Names, s: State<Source, bool, bool, nat, string, bool, seq<string>>, t: Tables<nat, string, bool>)
    requires |s.files| > 0 && s.files[0] == (e.a, InA(e)) && s.collecting && s.metadata
    ensures Emitted(Showing(e), s, t, 0) == Exports(e, Lookup(Current(s), e.m))
  {
    Shows(e, Current(s), t);
  }

  lemma LookedUp(e: Names)
    requires Different(e)
    ensures Lookup(Sources(First(e), {}), e.m) == OnDisk
    ensures Lookup(Sources(First(e) + [(e.m, InM())], {}), e.m) == Checked(InM())
  {
    LookupAppended(Sources(First(e), {}), e.m, InM(), e.m);
  }

  /** A project with this file that was not checked yet. */
  function Unchecked(e: Names): State<Source, bool, bool, nat, string, bool, seq<string>> {
    State(First(e), true, true, {}, map[], {e.a}, {}, None, map[], map[], Merge(map[], true, [e.a], Seen(e)),
          Sources([], {}), [], map[], false, {})
  }

  lemma FirstCheck(e: Names)
    requires Different(e)
    ensures Settled(e) == AfterCheck(Unchecked(e), Seen(e), map[], true, map[e.a := e.onDisk], map[e.a := {}], {})
  {
    assert Paths(First(e)) == [e.a];
    assert Rebound(Seen(e)) == {} by {
      assert forall p, q, l :: !WrittenElsewhere(Seen(e), p, q, l);
    }
  }

  lemma SettledOk(e: Names)
    requires Different(e)
    ensures Sealed(Showing(e), Settled(e))
  {
    ShowingOk(e);
    FirstCheck(e);
    assert First(e)[0].0 == e.a;
    assert Complete(Showing(e), First(e), true, Seen(e));
    AllCollectionsOk(Showing(e), First(e), true, Seen(e));
    EntryWasFresh(e, Merge(map[], true, [e.a], Seen(e)));
    CheckOk(Showing(e), Unchecked(e), Seen(e), map[], true, map[e.a := e.onDisk], map[e.a := {}], {});
  }

  /** Both states meet the invariant of the operations. */
  lemma AddedOk(e: Names)
    requires Different(e)
    ensures StateOk(Showing(e), Settled(e)) && StateOk(Showing(e), Added(e))
  {
    SettledOk(e);
    AddOk(Showing(e), Settled(e), e.m, InM());
    Open(Showing(e), Settled(e));
    Open(Showing(e), Added(e));
  }

  /** The check emits the module alone, but emitting `a` again would no longer find the exports of the disk copy. */
  lemma AddedModuleIsMissed(e: Names, must: set<string>)
    requires Different(e) && MustBe(Showing(e), Added(e), Now(e), map[], true, must)
    ensures EmitOk(Showing(e)) && CollectOk(Showing(e))
    ensures StateOk(Showing(e), Settled(e)) && StateOk(Showing(e), Added(e))
    ensures Now(e) == AllCollected(Showing(e), Added(e).files, true)
    ensures FreshEntry(Showing(e), (e.a, InA(e)), true, true, Settled(e).diagnostics, Settled(e).reached,
                       Settled(e).sources, Settled(e).tables)
    ensures Added(e).stale == {e.a} && must == {e.m} && Added(e).diagnostics[e.a] == e.onDisk
    ensures Emitted(Showing(e), Added(e), Merge(map[], true, [e.a, e.m], Now(e)), 0) == []
  {
    ShowingOk(e);
    AddedOk(e);
    Collects(e);
    LookedUp(e);
    StaleIs(e);
    EntryWasFresh(e, Settled(e).tables);
    EmittedIs(e, Added(e), Merge(map[], true, [e.a, e.m], Now(e)));
    OnlyM(e, must);
  }

  lemma SuchNames()
    ensures Different(Names("a.R", "m.R", ["x"]))
  {
  }
}
