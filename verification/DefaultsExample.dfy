/** A change to the calls of a function that an incremental check cannot see. */
module DefaultsExample {
  import opened Wrappers
  import opened Captures
  import opened Defaults
  import opened FileOrder
  import opened Rebounds
  import opened Project
  import ArgumentMatching

  /** A file: the function it binds with its formal, or the name it sets to the result of a call. */
  datatype Source = Binds(owner: string, formal: string) | Calls(result: string, callee: string, site: CallSite)

  /** Two files, a function and its formal, and a variable. */
  datatype Names = Names(a: string, b: string, helper: string, bins: string, z: string)

  ghost predicate Different(e: Names) {
    e.a != e.b && e.helper != e.z
  }

  /** The formal's default is NULL. */
  function Bins(p: string, owner: string, formal: string): Formal {
    Formal(owner, (p, 0), None, [Param(formal, Some(Null))], formal, Null)
  }

  function CollectSource(p: string, c: Source): Collection<Key> {
    match c
    case Binds(f, formal) =>
      Collection(map[f := (p, 0)], {}, map[], [], {Bins(p, f, formal)}, {(f, (p, 0))}, {}, WriteSet({f}, false), {})
    case Calls(z, f, site) => Collection(map[], {}, map[f := [site]], [], {}, {}, {}, WriteSet({z}, false), {z})
  }

  function Reading(): Reader<Key> {
    Reader(d => d, d => None, d => {}, (d, source, start) => false)
  }

  /** A walk of the function's body shows what its formal starts with. */
  function Show(p: string, c: Source, t: Tables<nat, Key, bool>): Emission<Default> {
    if c.Binds? then Emission(DefaultType(Reading(), t.evidence, Bins(p, c.owner, c.formal)), {})
    else Emission(Opaque, {c.callee})
  }

  function Showing(): Env<Source, bool, bool, nat, Key, bool, Default> {
    Env((p, c, k) => CollectSource(p, c), c => false, (p, c, src) => {}, name => false, name => false, Reading(),
        (p, c, k, m, src, t) => Show(p, c, t), Opaque)
  }

  lemma ShowingOk()
    ensures EmitOk(Showing()) && CollectOk(Showing())
  {
    var env := Showing();
    forall p, c, k, m, src, t, src', t' | TablesOk(t) && TablesOk(t') && SameView(env, p, c, k, m, src, t, src', t')
      ensures env.emit(p, c, k, m, src, t) == env.emit(p, c, k, m, src', t')
    {
      if c.Binds? {
        assert Bins(p, c.owner, c.formal) in env.collect(p, c, k).formals;
      }
    }
    forall p, c, k ensures CollectionOk(env, p, env.collect(p, c, k)) {
      if c.Binds? {
        assert (c.owner, (p, 0)) in CollectSource(p, c).literals;
      }
    }
  }

  // ---------------------------------------------------------------------------------------------
  // The project
  // ---------------------------------------------------------------------------------------------

  function InA(e: Names): Source {
    Binds(e.helper, e.bins)
  }

  /** `b` calls the function with these arguments. */
  function InB(e: Names, arguments: seq<Option<string>>): Source {
    Calls(e.z, e.helper, CallSite(None, arguments))
  }

  function Files(e: Names, arguments: seq<Option<string>>): seq<(string, Source)> {
    [(e.a, InA(e)), (e.b, InB(e, arguments))]
  }

  function Order(e: Names): seq<string> {
    [e.a, e.b]
  }

  function Now(e: Names, arguments: seq<Option<string>>): map<string, Collection<Key>> {
    map[e.a := CollectSource(e.a, InA(e)), e.b := CollectSource(e.b, InB(e, arguments))]
  }

  function Returns(e: Names): map<string, nat> {
    map[e.helper := 0]
  }

  function Read(e: Names): map<string, set<string>> {
    map[e.a := {}, e.b := {e.helper}]
  }

  function Merged(e: Names, arguments: seq<Option<string>>): Tables<nat, Key, bool> {
    Merge(Returns(e), true, Order(e), Now(e, arguments))
  }

  function Before(e: Names): map<string, Default> {
    map[e.a := Opaque, e.b := Opaque]
  }

  /** `b` called the function with one argument; then it was edited to call it without. */
  function Edited(e: Names): State<Source, bool, bool, nat, Key, bool, Default> {
    var seen := Now(e, [None]);
    State(Files(e, []), true, true, {}, seen - {e.b}, {e.b}, {}, Some(Prev(Returns(e), Rebound(seen), true)), Read(e),
          Before(e), Merged(e, [None]), Sources(Files(e, [None]), {}), Order(e), seen, false, {})
  }

  lemma NoneReplaced(e: Names, arguments: seq<Option<string>>)
    requires Different(e)
    ensures Rebound(Now(e, arguments)) == {}
  {
    var now := Now(e, arguments);
    assert forall p, q, l :: !WrittenElsewhere(now, p, q, l);
  }

  lemma Collects(e: Names, arguments: seq<Option<string>>)
    requires Different(e)
    ensures Now(e, arguments) == AllCollected(Showing(), Files(e, arguments), true)
  {
    var files := Files(e, arguments);
    assert AllCollected(Showing(), files[..1], true) == map[e.a := CollectSource(e.a, InA(e))];
  }

  lemma OnlyB(e: Names, must: set<string>)
    requires Different(e) && MustBe(Showing(), Edited(e), Now(e, []), Returns(e), true, must)
    ensures must == {e.b}
  {
    NoneReplaced(e, [None]);
    NoneReplaced(e, []);
    OnlyDirtyEmitted(Showing(), Edited(e), Now(e, []), Returns(e), true, must);
  }

  // ---------------------------------------------------------------------------------------------
  // What the calls say
  // ---------------------------------------------------------------------------------------------

  /** The one call of the function is the one in `b`, and nothing forwards to it. */
  lemma OneSite(e: Names, arguments: seq<Option<string>>)
    requires Different(e)
    ensures Sites(Merged(e, arguments).evidence, e.helper) == [CallSite(None, arguments)]
    ensures Merged(e, arguments).evidence.forwards == []
  {
    var all := CallsOfAll(Order(e), Now(e, arguments));
    assert all == [CallsIn(Now(e, arguments), e.a), CallsIn(Now(e, arguments), e.b)];
    assert all[..1] == [CallsIn(Now(e, arguments), e.a)] && all[..1][..0] == [];
    assert SitesIn(all[0].sites, e.helper) == [] && SitesIn(all[1].sites, e.helper) == [CallSite(None, arguments)];
    assert SitesOf(all[..1], e.helper) == [];
    assert SitesOf(all, e.helper) == [CallSite(None, arguments)];
    assert all[0].forwards == [] && all[1].forwards == [];
    assert MergedForwards(all[..1]) == [];
    assert MergedForwards(all) == [];
    assert e.helper in CalledNames(all);
  }

  /** The formal starts as NULL exactly when the call has no argument. */
  lemma StartsAs(e: Names, arguments: seq<Option<string>>)
    requires Different(e) && (arguments == [] || arguments == [None])
    ensures DefaultType(Reading(), Merged(e, arguments).evidence, Bins(e.a, e.helper, e.bins)) ==
      if arguments == [] then Null else Opaque
  {
    var evidence, f := Merged(e, arguments).evidence, Bins(e.a, e.helper, e.bins);
    OneSite(e, arguments);
    assert IndexNamed(f.params, f.name) == Some(0);
    assert Reaches(Sites(evidence, e.helper)[0], None);
    assert arguments[..0] == [] && ArgumentMatching.Unnamed(arguments) == |arguments|;
    assert Omitting(Sites(evidence, e.helper)[0], None, e.bins, 0) <==> arguments == [];
  }

  lemma EmittedIs(s: State<Source, bool, bool, nat, Key, bool, Default>, t: Tables<nat, Key, bool>, i: nat)
    requires i < |s.files|
    ensures Emitted(Showing(), s, t, i) == Show(s.files[i].0, s.files[i].1, t).diagnostics
  {
  }

  lemma EntryWasFresh(e: Names, src: Sources<Source>)
    requires Different(e)
    ensures FreshEntry(Showing(), (e.a, InA(e)), true, true, Before(e), Read(e), src, Merged(e, [None]))
  {
    StartsAs(e, [None]);
  }

  lemma EntryOfBWasFresh(e: Names, src: Sources<Source>)
    requires Different(e)
    ensures FreshEntry(Showing(), (e.b, InB(e, [None])), true, true, Before(e), Read(e), src, Merged(e, [None]))
  {
  }

  // ---------------------------------------------------------------------------------------------
  // How the edited state comes about
  // ---------------------------------------------------------------------------------------------

  /** A project with these files that was not checked yet. */
  function Unchecked(e: Names): State<Source, bool, bool, nat, Key, bool, Default> {
    State(Files(e, [None]), true, true, {}, map[], {e.a, e.b}, {}, None, map[], map[], Merged(e, [None]),
          Sources([], {}), [], map[], false, {})
  }

  /** After its first check. */
  ghost function AtFirst(e: Names): State<Source, bool, bool, nat, Key, bool, Default> {
    AfterCheck(Unchecked(e), Now(e, [None]), Returns(e), true, Before(e), Read(e), {})
  }

  lemma SamePaths(e: Names, arguments: seq<Option<string>>)
    ensures Paths(Files(e, arguments)) == Order(e)
  {
  }

  lemma NamesAre(e: Names)
    requires Different(e)
    ensures FileOrder.Names(Now(e, [None])) == Returns(e).Keys
  {
    assert e.helper in Now(e, [None])[e.a].defs;
  }

  lemma AllCollectedIs(e: Names)
    requires Different(e)
    ensures Complete(Showing(), Files(e, [None]), true, Now(e, [None]))
  {
    var files := Files(e, [None]);
    assert files[0].0 == e.a && files[1].0 == e.b;
  }

  lemma FirstEntry(e: Names, i: nat)
    requires Different(e) && i < 2
    ensures NewEntry(Showing(), Files(e, [None])[i], true, true, {}, Before(e), Read(e),
                     Sources(Files(e, [None]), {}), Merged(e, [None]))
  {
    var src := Sources(Files(e, [None]), {});
    EntryWasFresh(e, src);
    EntryOfBWasFresh(e, src);
  }

  lemma AtFirstOk(e: Names)
    requires Different(e)
    ensures Sealed(Showing(), AtFirst(e))
  {
    var s := Unchecked(e);
    ShowingOk();
    AllCollectedIs(e);
    AllCollectionsOk(Showing(), s.files, true, Now(e, [None]));
    NamesAre(e);
    SamePaths(e, [None]);
    forall i | 0 <= i < 2
      ensures NewEntry(Showing(), s.files[i], true, true, {}, Before(e), Read(e), Current(s), Merged(e, [None]))
    {
      FirstEntry(e, i);
    }
    CheckOk(Showing(), s, Now(e, [None]), Returns(e), true, Before(e), Read(e), {});
  }

  lemma UpdatedIs(e: Names)
    requires Different(e)
    ensures Updated(Files(e, [None]), e.b, InB(e, [])) == Files(e, [])
  {
    var files := Files(e, [None]);
    assert files[1].0 == e.b && UniquePaths(files);
    IndexFound(files, e.b, 1);
  }

  lemma EditedAfter(e: Names)
    requires Different(e)
    ensures AfterUpdate(AtFirst(e), e.b, InB(e, []), {e.b}) == Edited(e)
  {
    SamePaths(e, [None]);
    UpdatedIs(e);
  }

  lemma AtFirstIs(e: Names)
    ensures AtFirst(e).files == Files(e, [None]) && AtFirst(e).dirty == {}
  {
  }

  lemma NoBoxes(files: seq<(string, Source)>)
    ensures !AnyBox(Showing(), files)
  {
  }

  /** Checking the files and editing `b` leads to the edited state, which meets the invariant of the operations. */
  lemma EditedOk(e: Names)
    requires Different(e)
    ensures Edited(e) == AfterUpdate(AtFirst(e), e.b, InB(e, []), {e.b})
    ensures StateOk(Showing(), AtFirst(e)) && StateOk(Showing(), Edited(e))
  {
    AtFirstOk(e);
    EditedAfter(e);
    AtFirstIs(e);
    NoBoxes(Updated(Files(e, [None]), e.b, InB(e, [])));
    UpdateOk(Showing(), AtFirst(e), e.b, InB(e, []), {e.b});
    Open(Showing(), AtFirst(e));
    Open(Showing(), Edited(e));
  }

  // ---------------------------------------------------------------------------------------------
  // What is missed
  // ---------------------------------------------------------------------------------------------

  lemma DefaultChanges(e: Names)
    requires Different(e)
    ensures DefaultsChange(Showing(), e.a, InA(e), true, Merged(e, [None]).evidence, Merged(e, []).evidence)
  {
    StartsAs(e, [None]);
    StartsAs(e, []);
    assert Bins(e.a, e.helper, e.bins) in CollectSource(e.a, InA(e)).formals;
  }

  /** The check emits `b` alone, but emitting `a` again would start the formal as NULL, which it took as unknown. */
  lemma EditedCallIsMissed(e: Names, must: set<string>)
    requires Different(e) && MustBe(Showing(), Edited(e), Now(e, []), Returns(e), true, must)
    ensures EmitOk(Showing()) && CollectOk(Showing()) && StateOk(Showing(), Edited(e))
    ensures Now(e, []) == AllCollected(Showing(), Files(e, []), true)
    ensures FreshEntry(Showing(), (e.a, InA(e)), true, true, Before(e), Read(e), Edited(e).sources, Edited(e).tables)
    ensures DefaultsChange(Showing(), e.a, InA(e), true, Edited(e).tables.evidence, Merged(e, []).evidence)
    ensures must == {e.b} && Before(e)[e.a] == Opaque
    ensures Emitted(Showing(), Edited(e), Merged(e, []), 0) == Null
  {
    ShowingOk();
    EditedOk(e);
    Collects(e, []);
    EntryWasFresh(e, Edited(e).sources);
    DefaultChanges(e);
    OnlyB(e, must);
    StartsAs(e, []);
    EmittedIs(Edited(e), Merged(e, []), 0);
  }

  lemma SuchNames()
    ensures Different(Names("a.R", "b.R", "helper", "bins", "z"))
  {
  }
}
