/** Changes to the definitions of a name that an incremental check cannot see. */
module ProjectExample {
  import opened Wrappers
  import opened Captures
  import opened Defaults
  import opened FileOrder
  import opened Rebounds
  import opened Project

  /**
   * A file: the formals of the functions it binds and which of them are methods, the names it sets to other values, the
   * functions it calls, and whether it runs code that may write anything.
   */
  datatype Source = Source(binds: map<string, string>, methods: set<string>, sets: set<string>, calls: set<string>,
    runs: bool)

  /** Three files, two functions, a nested one and a `length` method, with their formals. */
  datatype Names = Names(
    a: string,
    b: string,
    c: string,
    f: string,
    g: string,
    i: string,
    l: string,
    x: string,
    y: string)

  ghost predicate Different(e: Names) {
    && e.a != e.b && e.a != e.c && e.b != e.c && e.x != e.y
    && e.f != e.g && e.f != e.i && e.g != e.i && e.l != e.f && e.l != e.g && e.l != e.i
  }

  /** No capture record is kept for the nested function. */
  function CollectSource(e: Names, p: string, s: Source): Collection<string> {
    Collection(s.binds, s.methods * s.binds.Keys, map n | n in s.calls :: [], [], {},
               set n | n in s.binds && n != e.i :: (n, (p, 0)), if s.runs then {(p, 0)} else {},
               WriteSet(s.binds.Keys + s.sets, s.runs), s.sets)
  }

  /** Where a name is defined, with which formals, and whether something else sets it. */
  datatype Facts = Facts(definers: seq<(string, string)>, marked: bool)

  /** What is shown of `f`, of the nested function, of the `length` method, and of the registered methods. */
  datatype Shown = Shown(outer: Option<Facts>, inner: Option<Facts>, sized: Option<Facts>, methods: set<string>)

  function Show(e: Names, t: Tables<nat, string, bool>, s: Source, n: string): Option<Facts> {
    if (n in s.binds || n in s.calls || n == e.l) && n in t.definers then Some(Facts(t.definers[n], n in t.marked))
    else None
  }

  /**
   * A walk of a file reports on `f` and the function nested in it where it defines or calls them, and on the `length`
   * method wherever it is.
   */
  function Report(e: Names, s: Source, t: Tables<nat, string, bool>): Emission<Shown> {
    Emission(Shown(Show(e, t, s, e.f), Show(e, t, s, e.i), Show(e, t, s, e.l), t.methods),
             if e.i in s.binds then {e.i} else {})
  }

  function Reading(): Reader<string> {
    Reader(d => ("", 0), d => None, d => {}, (d, source, start) => false)
  }

  function Reporting(e: Names): Env<Source, bool, bool, nat, string, bool, Shown> {
    Env((p, s, k) => CollectSource(e, p, s), s => false, (p, s, src) => {}, name => name == e.i, name => name == e.l,
        Reading(), (p, s, k, m, src, t) => Report(e, s, t), Shown(None, None, None, {}))
  }

  lemma SameShown(e: Names, p: string, s: Source, k: bool, m: bool, src: Sources<Source>, t: Tables<nat, string, bool>,
        src': Sources<Source>, t': Tables<nat, string, bool>, n: string)
    requires TablesOk(t) && TablesOk(t') && SameView(Reporting(e), p, s, k, m, src, t, src', t')
    ensures Show(e, t, s, n) == Show(e, t', s, n)
  {
    if (n in s.binds || n in s.calls || n == e.l) && n in t.visible {
      assert n in CollectSource(e, p, s).defs || n in CollectSource(e, p, s).sites || n == e.l;
      assert Looks(Reporting(e), p, s, k, m, src, t, n);
      assert SameFunction(t, t', n);
    }
  }

  lemma ReportingOk(e: Names)
    ensures EmitOk(Reporting(e)) && CollectOk(Reporting(e))
  {
    var env := Reporting(e);
    forall p, s, k, m, src, t, src', t' | TablesOk(t) && TablesOk(t') && SameView(env, p, s, k, m, src, t, src', t')
      ensures env.emit(p, s, k, m, src, t) == env.emit(p, s, k, m, src', t')
    {
      SameShown(e, p, s, k, m, src, t, src', t', e.f);
      SameShown(e, p, s, k, m, src, t, src', t', e.i);
      SameShown(e, p, s, k, m, src, t, src', t', e.l);
    }
    forall p, s, k ensures CollectionOk(env, p, env.collect(p, s, k)) {
      forall n | n in s.binds && n != e.i ensures Captured(CollectSource(e, p, s), n) {
        assert (n, (p, 0)) in CollectSource(e, p, s).literals;
      }
    }
  }

  // ---------------------------------------------------------------------------------------------
  // The project
  // ---------------------------------------------------------------------------------------------

  /** What `b` holds before and after an edit, and whether `c` calls `f`. */
  datatype Story = Story(before: Source, after: Source, called: bool)

  /** `b` always holds the `length` method. */
  function Binds(e: Names, n: string, formals: string): Source {
    Source(map[n := formals, e.l := e.y], {}, {}, {}, false)
  }

  /** `b` binds `g`, and is edited to bind `f` instead. */
  function Defines(e: Names): Story {
    Story(Binds(e, e.g, e.y), Binds(e, e.f, e.y), true)
  }

  /** `b` binds `g`, and is edited to set `f` to a value as well. */
  function Sets(e: Names): Story {
    Story(Binds(e, e.g, e.y), Source(map[e.g := e.y, e.l := e.y], {}, {e.f}, {}, false), true)
  }

  /** `b` binds `g`, and is edited to bind `f` with a function nested in it. */
  function Nests(e: Names): Story {
    Story(Binds(e, e.g, e.y), Source(map[e.f := e.y, e.l := e.y, e.i := e.y], {}, {}, {}, false), true)
  }

  /** `b` binds `f`, which nobody calls, and is edited to bind `g` instead. */
  function Withdraws(e: Names): Story {
    Story(Binds(e, e.f, e.y), Binds(e, e.g, e.y), false)
  }

  /** `b` binds `g` with the formals of a method, and is edited to give it others. */
  function LosesMethod(e: Names): Story {
    Story(Source(map[e.g := e.y, e.l := e.y], {e.g}, {}, {}, false), Binds(e, e.g, e.x), true)
  }

  /** `b` binds `g`, and is edited to write the `length` method anew. */
  function Rewrites(e: Names): Story {
    Story(Binds(e, e.g, e.y), Source(map[e.g := e.y, e.l := e.x], {}, {}, {}, false), true)
  }

  ghost predicate IsStory(e: Names, st: Story) {
    || st == Defines(e) || st == Sets(e) || st == Nests(e) || st == Withdraws(e) || st == LosesMethod(e)
    || st == Rewrites(e)
  }

  function InA(e: Names): Source {
    Source(map[e.f := e.x, e.i := e.x], {}, {}, {}, false)
  }

  function InC(e: Names, st: Story): Source {
    Source(map[e.g := e.x], {}, {}, if st.called then {e.f} else {}, true)
  }

  /** `a` comes after `b` and defines `f` and a function nested in it; `c` runs code that may write anything. */
  function Files(e: Names, st: Story, s: Source): seq<(string, Source)> {
    [(e.b, s), (e.a, InA(e)), (e.c, InC(e, st))]
  }

  function Order(e: Names): seq<string> {
    [e.b, e.a, e.c]
  }

  function Now(e: Names, st: Story, s: Source): map<string, Collection<string>> {
    map[e.b := CollectSource(e, e.b, s), e.a := CollectSource(e, e.a, InA(e)), e.c := CollectSource(e, e.c, InC(e, st))]
  }

  /** The signatures; that of `g` is another one while it has the formals of a method. */
  function Returns(e: Names, s: Source): map<string, nat> {
    map[e.f := 0, e.g := if s.methods == {} then 0 else 1, e.i := 0, e.l := 0]
  }

  function Read(e: Names): map<string, set<string>> {
    map[e.b := {}, e.a := {e.i}, e.c := {}]
  }

  /** The tables a check works with while `b` holds `s`. */
  function Merged(e: Names, st: Story, s: Source): Tables<nat, string, bool> {
    Merge(Returns(e, s), true, Order(e), Now(e, st, s))
  }

  /** What the check before the edit showed. */
  function Kept(e: Names, st: Story): map<string, Shown> {
    var t := Merged(e, st, st.before);
    map[e.b := Report(e, st.before, t).diagnostics, e.a := Report(e, InA(e), t).diagnostics,
        e.c := Report(e, InC(e, st), t).diagnostics]
  }

  /** After the edit: `b` is dirty, its old names are invalidated, and the other files have their old entries. */
  function Edited(e: Names, st: Story): State<Source, bool, bool, nat, string, bool, Shown> {
    var seen := Now(e, st, st.before);
    State(Files(e, st, st.after), true, true, {}, seen - {e.b}, {e.b}, st.before.binds.Keys,
          Some(Prev(Returns(e, st.before), Rebound(seen), true)), Read(e), Kept(e, st), Merged(e, st, st.before),
          Sources(Files(e, st, st.before), {}), Order(e), seen, false, {})
  }

  // ---------------------------------------------------------------------------------------------
  // Only the edited file is emitted
  // ---------------------------------------------------------------------------------------------

  function All(e: Names): set<Key> {
    {(e.b, 0), (e.a, 0), (e.c, 0)}
  }

  lemma OwnKey(e: Names, st: Story, s: Source, p: string)
    requires p in Now(e, st, s)
    ensures (p, 0) in All(e)
    ensures forall k :: k in Now(e, st, s)[p].rebound ==> k == (p, 0)
    ensures forall l :: l in Now(e, st, s)[p].literals ==> l.1 == (p, 0)
  {
  }

  lemma OwnedReplaced(e: Names, st: Story, s: Source, k: Key)
    requires k in Rebound(Now(e, st, s))
    ensures k in All(e)
  {
    var now := Now(e, st, s);
    if p :| p in now && k in now[p].rebound {
      OwnKey(e, st, s, p);
    } else {
      var p, q, l :| WrittenElsewhere(now, p, q, l) && l.1 == k;
      OwnKey(e, st, s, p);
    }
  }

  /** What `c` runs replaces every literal, before and after. */
  lemma AllReplaced(e: Names, st: Story, s: Source, n: string)
    requires Different(e) && !s.runs && n in s.binds && n != e.i
    ensures Rebound(Now(e, st, s)) == All(e)
  {
    var now := Now(e, st, s);
    assert (n, (e.b, 0)) in now[e.b].literals && (e.f, (e.a, 0)) in now[e.a].literals;
    assert WrittenElsewhere(now, e.b, e.c, (n, (e.b, 0)));
    assert WrittenElsewhere(now, e.a, e.c, (e.f, (e.a, 0)));
    assert (e.c, 0) in now[e.c].rebound;
    forall k | k in Rebound(now) ensures k in All(e) {
      OwnedReplaced(e, st, s, k);
    }
  }

  lemma SameReplaced(e: Names, st: Story)
    requires Different(e) && IsStory(e, st)
    ensures Rebound(Now(e, st, st.after)) == All(e) && Rebound(Now(e, st, st.before)) == All(e)
  {
    AllReplaced(e, st, st.before, if e.f in st.before.binds then e.f else e.g);
    AllReplaced(e, st, st.after, if e.f in st.after.binds then e.f else e.g);
  }

  lemma Collects(e: Names, st: Story, s: Source)
    requires Different(e)
    ensures Now(e, st, s) == AllCollected(Reporting(e), Files(e, st, s), true)
  {
    var files, env := Files(e, st, s), Reporting(e);
    assert files[..2][..1] == files[..1];
    assert AllCollected(env, files[..1], true) == map[e.b := CollectSource(e, e.b, s)];
    assert AllCollected(env, files[..2], true) ==
      AllCollected(env, files[..1], true)[e.a := CollectSource(e, e.a, InA(e))];
  }

  /** Only the nested function is read, and only `f` is called, if anything. */
  lemma Used(e: Names, st: Story, s: Source, p: string)
    requires Different(e) && s.calls == {}
    ensures UsedBy(Now(e, st, s), Read(e), p) <= {e.i} + if st.called then {e.f} else {}
  {
  }

  lemma NotUsed(e: Names, st: Story, p: string)
    requires Different(e) && IsStory(e, st)
    ensures UsedBy(Now(e, st, st.after), Read(e), p) * st.before.binds.Keys == {}
  {
    Used(e, st, st.after, p);
    UsedIsOther(e, st);
  }

  /** What is used is not what `b` had. */
  lemma UsedIsOther(e: Names, st: Story)
    requires Different(e) && IsStory(e, st)
    ensures ({e.i} + if st.called then {e.f} else {}) !! st.before.binds.Keys
  {
  }

  lemma OnlyG(e: Names, st: Story)
    requires Different(e) && IsStory(e, st)
    ensures Direct(Returns(e, st.before), Returns(e, st.after)) <= st.before.binds.Keys
  {
  }

  lemma NoMethods(e: Names, st: Story)
    requires Different(e) && IsStory(e, st)
    ensures Methods(Now(e, st, st.after)) == {}
  {
    assert forall p :: p in Now(e, st, st.after) ==> Now(e, st, st.after)[p].methods == {};
  }

  /** These are the files that a check after the edit emits. */
  ghost predicate Checked(e: Names, st: Story, must: set<string>) {
    MustBe(Reporting(e), Edited(e, st), Now(e, st, st.after), Returns(e, st.after), true, must)
  }

  lemma NotAll(e: Names, st: Story)
    requires Different(e) && IsStory(e, st)
    ensures !EmitsAll(Edited(e, st).prev, Returns(e, st.after), Rebound(Now(e, st, st.after)), true)
  {
    SameReplaced(e, st);
    PrevIs(e, st);
    SameNames(e, st.before, st.after);
  }

  lemma SameNames(e: Names, s: Source, s': Source)
    ensures Returns(e, s).Keys == Returns(e, s').Keys
  {
    assert Returns(e, s).Keys == {e.f, e.g, e.i, e.l} && Returns(e, s').Keys == {e.f, e.g, e.i, e.l};
  }

  lemma PrevIs(e: Names, st: Story)
    ensures Edited(e, st).prev == Some(Prev(Returns(e, st.before), Rebound(Now(e, st, st.before)), true))
  {
  }

  lemma EditedIs(e: Names, st: Story)
    ensures Edited(e, st).invalidated == st.before.binds.Keys && Edited(e, st).dirty == {e.b}
    ensures Edited(e, st).prev.value.visible == Returns(e, st.before) && Edited(e, st).reached == Read(e)
  {
  }

  lemma OnlyB(e: Names, st: Story, must: set<string>)
    requires Different(e) && IsStory(e, st) && Checked(e, st, must)
    ensures must == {e.b}
  {
    var s, now := Edited(e, st), Now(e, st, st.after);
    NotAll(e, st);
    NoMethods(e, st);
    OnlyG(e, st);
    EditedIs(e, st);
    forall p ensures UsedBy(now, s.reached, p) * s.invalidated == {} {
      NotUsed(e, st, p);
    }
    OnlyDirtyEmitted(Reporting(e), s, now, Returns(e, st.after), true, must);
  }

  // ---------------------------------------------------------------------------------------------
  // What emitting the others again would give
  // ---------------------------------------------------------------------------------------------

  /** What is known of a name while `b` holds `s`. */
  function Known(e: Names, s: Source, n: string): Facts {
    Facts((if n in s.binds then [(e.b, s.binds[n])] else []) + (if n == e.l then [] else [(e.a, e.x)]), n in s.sets)
  }

  lemma HowMany(e: Names, s: Source, n: string)
    ensures |Known(e, s, n).definers| == (if n in s.binds then 1 else 0) + (if n == e.l then 0 else 1)
  {
  }

  lemma WhereDefined(e: Names, st: Story, s: Source, n: string)
    requires Different(e) && (n == e.f || n == e.i || n == e.l)
    ensures Definers(Order(e), Now(e, st, s), n) == Known(e, s, n).definers
  {
    var now := Now(e, st, s);
    assert Order(e)[..2] == [e.b, e.a] && [e.b, e.a][..1] == [e.b] && [e.b][..0] == [];
    assert Definers([e.b], now, n) == if n in s.binds then [(e.b, s.binds[n])] else [];
    assert Definers([e.b, e.a], now, n) == Definers([e.b], now, n) + if n == e.l then [] else [(e.a, e.x)];
  }

  lemma WhoMarks(e: Names, st: Story, s: Source)
    requires Different(e)
    ensures MarkedNames(Now(e, st, s)) == s.sets
  {
    forall n | n in s.sets ensures n in MarkedNames(Now(e, st, s)) {
      assert n in Now(e, st, s)[e.b].marks;
    }
  }

  lemma WhichMethods(e: Names, st: Story, s: Source)
    requires Different(e)
    ensures Methods(Now(e, st, s)) == s.methods * s.binds.Keys
  {
    forall n | n in s.methods * s.binds.Keys ensures n in Methods(Now(e, st, s)) {
      assert n in Now(e, st, s)[e.b].methods;
    }
  }

  lemma ShownIs(e: Names, st: Story, s: Source, file: Source, n: string)
    requires Different(e) && (n == e.f || n == e.i || n == e.l)
    ensures Show(e, Merged(e, st, s), file, n) ==
      if n in file.binds || n in file.calls || n == e.l then Some(Known(e, s, n)) else None
  {
    WhereDefined(e, st, s, n);
    WhoMarks(e, st, s);
    assert n in Returns(e, s) && Merged(e, st, s).definers[n] == Definers(Order(e), Now(e, st, s), n);
  }

  /** What emitting `a` and `c` shows while `b` holds `s`. */
  function FromA(e: Names, s: Source): Shown {
    Shown(Some(Known(e, s, e.f)), Some(Known(e, s, e.i)), Some(Known(e, s, e.l)), s.methods * s.binds.Keys)
  }

  function FromC(e: Names, st: Story, s: Source): Shown {
    Shown(if st.called then Some(Known(e, s, e.f)) else None, None, Some(Known(e, s, e.l)), s.methods * s.binds.Keys)
  }

  lemma ReportedIs(e: Names, st: Story, s: Source)
    requires Different(e)
    ensures Report(e, InA(e), Merged(e, st, s)) == Emission(FromA(e, s), {e.i})
    ensures Report(e, InC(e, st), Merged(e, st, s)) == Emission(FromC(e, st, s), {})
  {
    WhichMethods(e, st, s);
    ShownIs(e, st, s, InA(e), e.f);
    ShownIs(e, st, s, InA(e), e.i);
    ShownIs(e, st, s, InA(e), e.l);
    ShownIs(e, st, s, InC(e, st), e.f);
    ShownIs(e, st, s, InC(e, st), e.i);
    ShownIs(e, st, s, InC(e, st), e.l);
  }

  lemma KeptIs(e: Names, st: Story)
    requires Different(e)
    ensures Kept(e, st)[e.a] == FromA(e, st.before) && Kept(e, st)[e.c] == FromC(e, st, st.before)
  {
    ReportedIs(e, st, st.before);
  }

  lemma FreshIs(e: Names, file: (string, Source), shown: map<string, Shown>, read: map<string, set<string>>,
        src: Sources<Source>, t: Tables<nat, string, bool>)
    requires file.0 in shown && file.0 in read && Report(e, file.1, t) == Emission(shown[file.0], read[file.0])
    ensures FreshEntry(Reporting(e), file, true, true, shown, read, src, t)
  {
  }

  lemma EmittedIs(e: Names, s: State<Source, bool, bool, nat, string, bool, Shown>, t: Tables<nat, string, bool>,
        k: nat)
    requires k < |s.files|
    ensures Emitted(Reporting(e), s, t, k) == Report(e, s.files[k].1, t).diagnostics
  {
  }

  lemma EntriesWereFresh(e: Names, st: Story, src: Sources<Source>)
    requires Different(e)
    ensures FreshEntry(Reporting(e), (e.a, InA(e)), true, true, Kept(e, st), Read(e), src, Merged(e, st, st.before))
    ensures FreshEntry(Reporting(e), (e.c, InC(e, st)), true, true, Kept(e, st), Read(e), src, Merged(e, st, st.before))
  {
    ReportedIs(e, st, st.before);
    KeptIs(e, st);
    FreshIs(e, (e.a, InA(e)), Kept(e, st), Read(e), src, Merged(e, st, st.before));
    FreshIs(e, (e.c, InC(e, st)), Kept(e, st), Read(e), src, Merged(e, st, st.before));
  }

  lemma EntryOfBWasFresh(e: Names, st: Story, src: Sources<Source>)
    requires Different(e) && e.i !in st.before.binds
    ensures FreshEntry(Reporting(e), (e.b, st.before), true, true, Kept(e, st), Read(e), src, Merged(e, st, st.before))
  {
    FreshIs(e, (e.b, st.before), Kept(e, st), Read(e), src, Merged(e, st, st.before));
  }

  // ---------------------------------------------------------------------------------------------
  // How the edited state comes about
  // ---------------------------------------------------------------------------------------------

  /** A project with these files that was not checked yet. */
  function Unchecked(e: Names, st: Story): State<Source, bool, bool, nat, string, bool, Shown> {
    State(Files(e, st, st.before), true, true, {}, map[], {e.a, e.b, e.c}, {}, None, map[], map[],
          Merged(e, st, st.before), Sources([], {}), [], map[], false, {})
  }

  /** After its first check. */
  ghost function AtFirst(e: Names, st: Story): State<Source, bool, bool, nat, string, bool, Shown> {
    AfterCheck(Unchecked(e, st), Now(e, st, st.before), Returns(e, st.before), true, Kept(e, st), Read(e), {})
  }

  lemma AllCollectedIs(e: Names, st: Story)
    requires Different(e)
    ensures Complete(Reporting(e), Files(e, st, st.before), true, Now(e, st, st.before))
  {
    var files := Files(e, st, st.before);
    assert files[0].0 == e.b && files[1].0 == e.a && files[2].0 == e.c;
  }

  lemma NamesAre(e: Names, st: Story, s: Source)
    requires s.binds.Keys <= {e.f, e.g, e.i, e.l} && e.l in s.binds && Different(e)
    ensures FileOrder.Names(Now(e, st, s)) == Returns(e, s).Keys
  {
    var now := Now(e, st, s);
    assert e.f in now[e.a].defs && e.i in now[e.a].defs && e.g in now[e.c].defs && e.l in now[e.b].defs;
    forall n | n in FileOrder.Names(now) ensures n in Returns(e, s) {
      var p :| p in now && n in now[p].defs;
      assert p == e.b || p == e.a || p == e.c;
    }
  }

  lemma BeforeIs(e: Names, st: Story)
    requires Different(e) && IsStory(e, st)
    ensures e.i !in st.before.binds && e.l in st.before.binds && st.before.binds.Keys <= {e.f, e.g, e.i, e.l}
  {
  }

  lemma FreshIsNew(e: Names, file: (string, Source), shown: map<string, Shown>, read: map<string, set<string>>,
        src: Sources<Source>, t: Tables<nat, string, bool>)
    requires FreshEntry(Reporting(e), file, true, true, shown, read, src, t)
    ensures NewEntry(Reporting(e), file, true, true, {}, shown, read, src, t)
  {
  }

  lemma FirstEntry(e: Names, st: Story, i: nat)
    requires Different(e) && IsStory(e, st) && i < 3
    ensures NewEntry(Reporting(e), Files(e, st, st.before)[i], true, true, {}, Kept(e, st), Read(e),
                     Sources(Files(e, st, st.before), {}), Merged(e, st, st.before))
  {
    var src, t := Sources(Files(e, st, st.before), {}), Merged(e, st, st.before);
    var shown, read := Kept(e, st), Read(e);
    BeforeIs(e, st);
    EntryOfBWasFresh(e, st, src);
    EntriesWereFresh(e, st, src);
    FreshIsNew(e, (e.b, st.before), shown, read, src, t);
    FreshIsNew(e, (e.a, InA(e)), shown, read, src, t);
    FreshIsNew(e, (e.c, InC(e, st)), shown, read, src, t);
    WhichFile(e, st, i);
  }

  lemma WhichFile(e: Names, st: Story, i: nat)
    requires i < 3
    ensures Files(e, st, st.before)[i] ==
      if i == 0 then (e.b, st.before) else if i == 1 then (e.a, InA(e)) else (e.c, InC(e, st))
  {
  }

  lemma SamePaths(e: Names, st: Story, s: Source)
    ensures Paths(Files(e, st, s)) == Order(e)
  {
  }

  /** A check of these collections leaves a sealed state, if the entries are those of emission. */
  lemma CheckedOk(e: Names, s: State<Source, bool, bool, nat, string, bool, Shown>,
        now: map<string, Collection<string>>, rets: map<string, nat>, shown: map<string, Shown>,
        read: map<string, set<string>>, t: Tables<nat, string, bool>)
    requires Complete(Reporting(e), s.files, s.collecting, now) && rets.Keys == FileOrder.Names(now)
    requires t == Merge(rets, true, Paths(s.files), now)
    requires forall i :: 0 <= i < |s.files| ==>
      NewEntry(Reporting(e), s.files[i], s.collecting, s.metadata, {}, shown, read, Current(s), t)
    ensures Sealed(Reporting(e), AfterCheck(s, now, rets, true, shown, read, {}))
  {
    ReportingOk(e);
    AllCollectionsOk(Reporting(e), s.files, s.collecting, now);
    CheckOk(Reporting(e), s, now, rets, true, shown, read, {});
  }

  lemma UncheckedIs(e: Names, st: Story)
    ensures Unchecked(e, st).files == Files(e, st, st.before) && |Files(e, st, st.before)| == 3
    ensures Unchecked(e, st).collecting && Unchecked(e, st).metadata
    ensures Current(Unchecked(e, st)) == Sources(Files(e, st, st.before), {})
  {
  }

  lemma AtFirstOk(e: Names, st: Story)
    requires Different(e) && IsStory(e, st)
    ensures Sealed(Reporting(e), AtFirst(e, st))
  {
    AllCollectedIs(e, st);
    BeforeIs(e, st);
    NamesAre(e, st, st.before);
    SamePaths(e, st, st.before);
    UncheckedIs(e, st);
    forall i | 0 <= i < 3
      ensures NewEntry(Reporting(e), Files(e, st, st.before)[i], true, true, {}, Kept(e, st), Read(e),
                       Sources(Files(e, st, st.before), {}), Merged(e, st, st.before))
    {
      FirstEntry(e, st, i);
    }
    CheckedOk(e, Unchecked(e, st), Now(e, st, st.before), Returns(e, st.before), Kept(e, st), Read(e),
              Merged(e, st, st.before));
  }

  lemma UpdatedIs(e: Names, st: Story)
    requires Different(e)
    ensures Updated(Files(e, st, st.before), e.b, st.after) == Files(e, st, st.after)
  {
    var files := Files(e, st, st.before);
    assert files[0].0 == e.b;
    assert UniquePaths(files);
    IndexFound(files, e.b, 0);
  }

  lemma EditedAfter(e: Names, st: Story)
    requires Different(e)
    ensures AfterUpdate(AtFirst(e, st), e.b, st.after, {e.b}) == Edited(e, st)
  {
    SamePaths(e, st, st.before);
    UpdatedIs(e, st);
  }

  /** Checking the files and editing `b` leads to the edited state, which meets the invariant of the operations. */
  lemma EditedOk(e: Names, st: Story)
    requires Different(e) && IsStory(e, st)
    ensures Edited(e, st) == AfterUpdate(AtFirst(e, st), e.b, st.after, {e.b})
    ensures StateOk(Reporting(e), AtFirst(e, st)) && StateOk(Reporting(e), Edited(e, st))
  {
    AtFirstOk(e, st);
    EditedAfter(e, st);
    UpdateOk(Reporting(e), AtFirst(e, st), e.b, st.after, {e.b});
    Open(Reporting(e), AtFirst(e, st));
    Open(Reporting(e), Edited(e, st));
  }

  lemma EmittedAgain(e: Names, st: Story)
    requires Different(e)
    ensures Emitted(Reporting(e), Edited(e, st), Merged(e, st, st.after), 1) == FromA(e, st.after)
    ensures Emitted(Reporting(e), Edited(e, st), Merged(e, st, st.after), 2) == FromC(e, st, st.after)
  {
    ReportedIs(e, st, st.after);
    EmittedIs(e, Edited(e, st), Merged(e, st, st.after), 1);
    EmittedIs(e, Edited(e, st), Merged(e, st, st.after), 2);
  }

  // ---------------------------------------------------------------------------------------------
  // What is missed
  // ---------------------------------------------------------------------------------------------

  /** The check after the edit emits `b` alone, though `a` and `c` had entries that were right before. */
  ghost predicate OnlyEdited(e: Names, st: Story, must: set<string>) {
    && EmitOk(Reporting(e)) && CollectOk(Reporting(e))
    && StateOk(Reporting(e), Edited(e, st))
    && Now(e, st, st.after) == AllCollected(Reporting(e), Files(e, st, st.after), true)
    && FreshEntry(Reporting(e), (e.a, InA(e)), true, true, Kept(e, st), Read(e), Edited(e, st).sources,
                  Edited(e, st).tables)
    && FreshEntry(Reporting(e), (e.c, InC(e, st)), true, true, Kept(e, st), Read(e), Edited(e, st).sources,
                  Edited(e, st).tables)
    && must == {e.b}
  }

  /** The entry of the file at place `k` is not what emitting it again gives. */
  ghost predicate OutOfDate(e: Names, st: Story, k: nat)
    requires k < 3
  {
    var p := Files(e, st, st.after)[k].0;
    p in Edited(e, st).diagnostics
    && Edited(e, st).diagnostics[p] != Emitted(Reporting(e), Edited(e, st), Merged(e, st, st.after), k)
  }

  lemma OutOfDateIs(e: Names, st: Story)
    requires Different(e)
    ensures OutOfDate(e, st, 1) <==> FromA(e, st.before) != FromA(e, st.after)
    ensures OutOfDate(e, st, 2) <==> FromC(e, st, st.before) != FromC(e, st, st.after)
  {
    KeptIs(e, st);
    EmittedAgain(e, st);
  }

  lemma OthersAreReused(e: Names, st: Story, must: set<string>)
    requires Different(e) && IsStory(e, st)
    requires Checked(e, st, must)
    ensures OnlyEdited(e, st, must)
    ensures OutOfDate(e, st, 1) <==> FromA(e, st.before) != FromA(e, st.after)
    ensures OutOfDate(e, st, 2) <==> FromC(e, st, st.before) != FromC(e, st, st.after)
  {
    ReportingOk(e);
    EditedOk(e, st);
    Collects(e, st, st.after);
    EntriesWereFresh(e, st, Edited(e, st).sources);
    OutOfDateIs(e, st);
    OnlyB(e, st, must);
  }

  /** Another definer shows. */
  lemma DefinersShow(e: Names, s: Source, s': Source, n: string)
    requires (n in s.binds) != (n in s'.binds)
    ensures Known(e, s, n) != Known(e, s', n)
  {
    HowMany(e, s, n);
    HowMany(e, s', n);
  }

  /** `f` gains a definer, and loses one. */
  lemma DefinersOfF(e: Names)
    requires Different(e)
    ensures e.f !in Defines(e).before.binds && e.f in Defines(e).after.binds && Defines(e).called
    ensures e.f in Withdraws(e).before.binds && e.f !in Withdraws(e).after.binds
  {
  }

  lemma DefinersOfI(e: Names)
    requires Different(e)
    ensures e.i !in Nests(e).before.binds && e.i in Nests(e).after.binds
  {
  }

  lemma ShownOfF(e: Names, st: Story)
    requires Different(e) && (e.f in st.before.binds) != (e.f in st.after.binds)
    ensures FromA(e, st.before) != FromA(e, st.after)
    ensures st.called ==> FromC(e, st, st.before) != FromC(e, st, st.after)
  {
    DefinersShow(e, st.before, st.after, e.f);
  }

  /** `b` comes to define `f`, with other formals, and `c`, which calls it, is not emitted. */
  lemma EditedDefinerIsMissed(e: Names, must: set<string>)
    requires Different(e)
    requires Checked(e, Defines(e), must)
    ensures OnlyEdited(e, Defines(e), must) && OutOfDate(e, Defines(e), 2)
  {
    OthersAreReused(e, Defines(e), must);
    DefinersOfF(e);
    ShownOfF(e, Defines(e));
  }

  /** `b` comes to set `f` to another value, and `c`, which calls it, is not emitted. */
  lemma EditedMarkIsMissed(e: Names, must: set<string>)
    requires Different(e)
    requires Checked(e, Sets(e), must)
    ensures OnlyEdited(e, Sets(e), must) && OutOfDate(e, Sets(e), 2)
  {
    OthersAreReused(e, Sets(e), must);
    assert Known(e, Sets(e).after, e.f).marked && !Known(e, Sets(e).before, e.f).marked;
  }

  /**
   * `b` comes to define a function nested in its `f`, and `a`, which has one of that name in its own, is not emitted.
   */
  lemma NestedDefinerIsMissed(e: Names, must: set<string>)
    requires Different(e)
    requires Checked(e, Nests(e), must)
    ensures OnlyEdited(e, Nests(e), must) && OutOfDate(e, Nests(e), 1)
  {
    OthersAreReused(e, Nests(e), must);
    DefinersOfI(e);
    DefinersShow(e, Nests(e).before, Nests(e).after, e.i);
  }

  /** `b` no longer defines `f`, and `a`, which defines it too but does not call it, is not emitted. */
  lemma WithdrawnDefinerIsMissed(e: Names, must: set<string>)
    requires Different(e)
    requires Checked(e, Withdraws(e), must)
    ensures OnlyEdited(e, Withdraws(e), must) && OutOfDate(e, Withdraws(e), 1)
  {
    OthersAreReused(e, Withdraws(e), must);
    DefinersOfF(e);
    ShownOfF(e, Withdraws(e));
  }

  /** `b` loses the project's last method, and `c`, which dispatches, is not emitted. */
  lemma LostMethodIsMissed(e: Names, must: set<string>)
    requires Different(e)
    requires Checked(e, LosesMethod(e), must)
    ensures OnlyEdited(e, LosesMethod(e), must) && OutOfDate(e, LosesMethod(e), 2)
  {
    OthersAreReused(e, LosesMethod(e), must);
    assert e.g in FromC(e, LosesMethod(e), LosesMethod(e).before).methods;
    assert FromC(e, LosesMethod(e), LosesMethod(e).after).methods == {};
  }

  /** `b` writes the `length` method anew, and `c`, which does not call it, is not emitted. */
  lemma RewrittenLengthIsMissed(e: Names, must: set<string>)
    requires Different(e)
    requires Checked(e, Rewrites(e), must)
    ensures OnlyEdited(e, Rewrites(e), must) && OutOfDate(e, Rewrites(e), 2)
  {
    OthersAreReused(e, Rewrites(e), must);
    assert Known(e, Rewrites(e).after, e.l).definers[0].1 == e.x
      && Known(e, Rewrites(e).before, e.l).definers[0].1 == e.y;
  }

  lemma SuchNames()
    ensures Different(Names("a.R", "b.R", "c.R", "f", "g", "f$inner", "length.foo", "x", "y"))
  {
  }
}
