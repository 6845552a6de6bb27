/**
 * The type a defaulted formal starts with in its function's body: the default, if some call of the project omits the
 * argument or a caller forwards a formal of its own that one of its calls omits; otherwise nothing is known.
 */
module Defaults {
  import opened Wrappers
  import opened Captures
  import opened ArgumentMatching

  /** What a default says by its syntax alone; anything but a literal says nothing. */
  datatype Default = Opaque | Logical | Whole(value: int) | Number(amount: real) | Text | Null | Missing(mode: string)

  datatype Param = Param(name: string, default: Option<Default>)

  /** A call by name: its package qualifier and its arguments' names. */
  datatype CallSite = CallSite(package: Option<string>, arguments: seq<Option<string>>)

  datatype Callee = Bare | Qualified(package: string, member: string)

  /** A call that passes some formal of its caller on: per argument its name, and the variable if it is one. */
  datatype Forward = Forward(
    caller: string,
    callee: string,
    target: Callee,
    params: seq<Param>,
    arguments: seq<(Option<string>, Option<string>)>,
    start: nat)

  /** A defaulted formal of a named function literal, and the package of the file that holds it. */
  datatype Formal = Formal(owner: string, id: Key, package: Option<string>, params: seq<Param>, name: string,
    default: Default)

  /**
   * What is read off a definition: which literal it is, its package, the functions its body calls, and whether
   * something in it may replace or test a formal before a call.
   */
  datatype Reader<!D> = Reader(
    id: D -> Key,
    package: D -> Option<string>,
    calls: D -> set<string>,
    replaced: (D, string, nat) -> bool)

  /** The calls of a project, and the definition each name has. */
  datatype Evidence<D> = Evidence(sites: map<string, seq<CallSite>>, forwards: seq<Forward>, live: map<string, D>)

  /** A name without its quotes. */
  function Semantic(name: string): string {
    if |name| >= 2 && name[0] == name[|name| - 1] && (name[0] == '"' || name[0] == '\'' || name[0] == '`')
    then name[1..|name| - 1] else name
  }

  function IndexNamed(params: seq<Param>, name: string): (r: Option<nat>)
    ensures r.Some? ==> r.value < |params| && Semantic(params[r.value].name) == Semantic(name)
    ensures r.Some? ==> forall k :: 0 <= k < r.value ==> Semantic(params[k].name) != Semantic(name)
    ensures r.None? ==> forall k :: 0 <= k < |params| ==> Semantic(params[k].name) != Semantic(name)
  {
    if params == [] then None
    else if Semantic(params[0].name) == Semantic(name) then Some(0)
    else
      match IndexNamed(params[1..], name)
      case Some(k) => Some(k + 1)
      case None => None
  }

  // ---------------------------------------------------------------------------------------------
  // Which calls omit a formal
  // ---------------------------------------------------------------------------------------------

  predicate Named(arguments: seq<Option<string>>, name: string) {
    exists k :: 0 <= k < |arguments| && arguments[k].Some? && Semantic(arguments[k].value) == Semantic(name)
  }

  /** The call neither names the formal nor has an unnamed argument for every formal up to it. */
  predicate Omits(arguments: seq<Option<string>>, name: string, index: nat) {
    !Named(arguments, name) && Unnamed(arguments) <= index
  }

  /** A qualified call reaches only its own package's function. */
  predicate Reaches(site: CallSite, package: Option<string>) {
    site.package.None? || site.package == package
  }

  predicate Omitting(site: CallSite, package: Option<string>, name: string, index: nat) {
    Reaches(site, package) && Omits(site.arguments, name, index)
  }

  function Sites<D>(e: Evidence<D>, name: string): seq<CallSite> {
    if name in e.sites then e.sites[name] else []
  }

  predicate Called<D>(e: Evidence<D>, owner: string, package: Option<string>) {
    exists k :: 0 <= k < |Sites(e, owner)| && Reaches(Sites(e, owner)[k], package)
  }

  /** Some call that reaches the function omits the formal. */
  predicate Omitted<D>(e: Evidence<D>, owner: string, package: Option<string>, name: string, index: nat) {
    exists k :: 0 <= k < |Sites(e, owner)| && Omitting(Sites(e, owner)[k], package, name, index)
  }

  // ---------------------------------------------------------------------------------------------
  // Which callers pass an omitted formal on
  // ---------------------------------------------------------------------------------------------

  /** The forwarding call reaches the function literal. */
  predicate Forwards<D>(read: Reader<D>, e: Evidence<D>, c: Forward, f: Formal) {
    match c.target
    case Bare => Semantic(c.callee) == Semantic(f.owner)
    case Qualified(package, member) =>
      member in e.live && read.package(e.live[member]) == Some(package) && read.id(e.live[member]) == f.id
  }

  /** The argument with the formal's name. */
  function NamedArgument(arguments: seq<(Option<string>, Option<string>)>, name: string): Option<Option<string>> {
    if arguments == [] then None
    else if arguments[0].0.Some? && Semantic(arguments[0].0.value) == Semantic(name) then Some(arguments[0].1)
    else NamedArgument(arguments[1..], name)
  }

  function UnnamedArgument(arguments: seq<(Option<string>, Option<string>)>, index: nat): Option<Option<string>> {
    if arguments == [] then None
    else if arguments[0].0.Some? then UnnamedArgument(arguments[1..], index)
    else if index == 0 then Some(arguments[0].1)
    else UnnamedArgument(arguments[1..], index - 1)
  }

  /** The variable passed for the formal, if it is one. */
  function Source(c: Forward, name: string, index: nat): Option<string> {
    var named := NamedArgument(c.arguments, name);
    var argument := if named.Some? then named else UnnamedArgument(c.arguments, index);
    if argument.Some? then argument.value else None
  }

  /** Nothing in the caller's definition stands between its formal and the call. */
  predicate Intact<D>(read: Reader<D>, e: Evidence<D>, c: Forward, source: string) {
    c.caller in e.live ==> !read.replaced(e.live[c.caller], source, c.start)
  }

  function CallerPackage<D>(read: Reader<D>, e: Evidence<D>, c: Forward): Option<string> {
    if c.caller in e.live then read.package(e.live[c.caller]) else None
  }

  /** What the forwarding call brings to the formal: the default of the caller's formal that one of its calls omits. */
  function Brings<D>(read: Reader<D>, e: Evidence<D>, c: Forward, f: Formal, index: nat): Option<Default> {
    if !Forwards(read, e, c, f) then None
    else
      match Source(c, f.name, index)
      case None => None
      case Some(source) =>
        if !Intact(read, e, c, source) then None
        else
          match IndexNamed(c.params, source)
          case None => None
          case Some(k) =>
            if c.params[k].default.Some? && Omitted(e, c.caller, CallerPackage(read, e, c), source, k)
            then c.params[k].default else None
  }

  /** The first forwarding call from the `n`th on that brings something. */
  function FirstBrought<D>(read: Reader<D>, e: Evidence<D>, f: Formal, index: nat, n: nat): (r: Option<Default>)
    requires n <= |e.forwards|
    ensures r.None? <==> forall k {:trigger e.forwards[k]} :: n <= k < |e.forwards| ==>
      Brings(read, e, e.forwards[k], f, index).None?
    ensures r.Some? ==>
      exists k {:trigger e.forwards[k]} :: n <= k < |e.forwards| && Brings(read, e, e.forwards[k], f, index) == r
    decreases |e.forwards| - n
  {
    if n == |e.forwards| then None
    else if Brings(read, e, e.forwards[n], f, index).Some? then Brings(read, e, e.forwards[n], f, index)
    else FirstBrought(read, e, f, index, n + 1)
  }

  function DefaultType<D>(read: Reader<D>, e: Evidence<D>, f: Formal): Default {
    match IndexNamed(f.params, f.name)
    case None => Opaque
    case Some(index) =>
      if !Called(e, f.owner, f.package) then Opaque
      else if Omitted(e, f.owner, f.package, f.name, index) then f.default
      else
        match FirstBrought(read, e, f, index, 0)
        case Some(d) => d
        case None => Opaque
  }

  // ---------------------------------------------------------------------------------------------
  // Whether an omission is one
  // ---------------------------------------------------------------------------------------------

  function Spelled(params: seq<Param>): (r: seq<string>)
    ensures |r| == |params| && forall k :: 0 <= k < |r| ==> r[k] == Semantic(params[k].name)
  {
    seq(|params|, k requires 0 <= k < |params| => Semantic(params[k].name))
  }

  function Spellings(arguments: seq<Option<string>>): (r: seq<Option<string>>)
    ensures |r| == |arguments|
    ensures forall k :: 0 <= k < |r| ==>
      r[k] == if arguments[k].Some? then Some(Semantic(arguments[k].value)) else None
  {
    seq(|arguments|, k requires 0 <= k < |arguments| =>
      if arguments[k].Some? then Some(Semantic(arguments[k].value)) else None)
  }

  /** R's matching of the call's arguments to the formals. */
  function Matching(params: seq<Param>, arguments: seq<Option<string>>): Bindings {
    Match(Spelled(params), Spellings(arguments))
  }

  /** What the names alone match. */
  function NamesMatching(params: seq<Param>, arguments: seq<Option<string>>): Bindings {
    ByPrefix(Spelled(params), Spellings(arguments), |arguments|)
  }

  /** The call gives the formal a value. */
  predicate Supplied(params: seq<Param>, arguments: seq<Option<string>>, index: nat) {
    Some(index) in Matching(params, arguments)
  }

  lemma {:induction false} SameUnnamed(arguments: seq<Option<string>>)
    ensures Unnamed(Spellings(arguments)) == Unnamed(arguments)
  {
    if arguments != [] {
      var n := |arguments| - 1;
      SameUnnamed(arguments[..n]);
      assert Spellings(arguments)[..n] == Spellings(arguments[..n]);
    }
  }

  /** An argument with the formal's own name is matched to it. */
  lemma NamedIsMatched(params: seq<Param>, arguments: seq<Option<string>>, name: string, index: nat)
    requires IndexNamed(params, name) == Some(index) && Semantic(name) != "..." && Named(arguments, name)
    ensures Some(index) in NamesMatching(params, arguments) && Supplied(params, arguments, index)
  {
    var ps, names := Spelled(params), Spellings(arguments);
    var k: nat :| k < |arguments| && arguments[k].Some? && Semantic(arguments[k].value) == Semantic(name);
    IndexIsFirst(params, name);
    assert Exact(ps, names[k]) == Some(index);
    ByPrefixOk(ps, names, |names|);
    MatchIsOrdered(ps, names);
    assert IsExact(ps, names, k);
    assert NamesMatching(params, arguments)[k] == Some(index) && Matching(params, arguments)[k] == Some(index);
  }

  lemma {:induction false} IndexIsFirst(params: seq<Param>, name: string)
    ensures First(Spelled(params), Semantic(name)) == IndexNamed(params, name)
  {
    if params != [] {
      assert Spelled(params)[1..] == Spelled(params[1..]);
      IndexIsFirst(params[1..], name);
    }
  }

  /**
   * A formal before `...` that a call leaves out always counts as omitted. One that counts as omitted is left out
   * exactly unless a name abbreviates it, or other names take so many formals before it that unnamed arguments reach
   * it.
   */
  lemma OmissionIsReal(params: seq<Param>, arguments: seq<Option<string>>, name: string, index: nat)
    requires IndexNamed(params, name) == Some(index) && index < PartialEnd(Spelled(params))
    ensures !Supplied(params, arguments, index) ==> Omits(arguments, name, index)
    ensures Omits(arguments, name, index) ==>
      (Supplied(params, arguments, index) <==>
         || Some(index) in NamesMatching(params, arguments)
         || Unnamed(arguments) > FreeBefore(NamesMatching(params, arguments), index))
  {
    SameUnnamed(arguments);
    SuppliedExactly(Spelled(params), Spellings(arguments), index);
    IndexIsFirst(params, name);
    assert Semantic(name) != "...";
    if Named(arguments, name) {
      NamedIsMatched(params, arguments, name, index);
    }
  }

  /** After `...` only the formal's own name supplies it, so an unnamed argument can make an omission go unnoticed. */
  lemma OmissionAfterDots(params: seq<Param>, arguments: seq<Option<string>>, name: string, index: nat)
    requires IndexNamed(params, name) == Some(index) && index >= PartialEnd(Spelled(params)) && Semantic(name) != "..."
    ensures Supplied(params, arguments, index) <==> Named(arguments, name)
    ensures Omits(arguments, name, index) ==> !Supplied(params, arguments, index)
  {
    var ps, names, m := Spelled(params), Spellings(arguments), Matching(params, arguments);
    IndexIsFirst(params, name);
    if Named(arguments, name) {
      NamedIsMatched(params, arguments, name, index);
    }
    if Supplied(params, arguments, index) {
      MatchIsOrdered(ps, names);
      var k: nat :| k < |m| && m[k] == Some(index);
      assert IsExact(ps, names, k);
      assert arguments[k].Some? && Semantic(arguments[k].value) == ps[index];
    }
  }

  /** With formals `x` and `y`, the call `f(x = 1, 2)` supplies `y` and still counts as omitting it. */
  lemma SuppliedCountsAsOmitted(x: string, y: string, default: Default)
    requires Semantic(x) != Semantic(y) && Semantic(x) != "..." && Semantic(y) != "..."
    ensures
      var params := [Param(x, None), Param(y, Some(default))];
      Omits([Some(x), None], y, 1) && Supplied(params, [Some(x), None], 1)
  {
    var params, arguments := [Param(x, None), Param(y, Some(default))], [Some(x), None];
    var ps, m := Spelled(params), NamesMatching(params, arguments);
    assert IndexNamed(params, x) == Some(0) && IndexNamed(params, y) == Some(1);
    assert First(ps, "...").None?;
    assert arguments[0].Some? && Semantic(arguments[0].value) == Semantic(x);
    NamedIsMatched(params, arguments, x, 0);
    assert FreeBefore(m, 1) == 0;
    assert arguments[..1] == [Some(x)] && [Some(x)][..0] == [];
    assert Unnamed(arguments) == 1;
    OmissionIsReal(params, arguments, y, 1);
  }

  // ---------------------------------------------------------------------------------------------
  // The calls of several files
  // ---------------------------------------------------------------------------------------------

  /** What one file contributes: the names it defines, its call sites by callee, and its forwarding calls. */
  datatype FileCalls = FileCalls(names: set<string>, sites: map<string, seq<CallSite>>, forwards: seq<Forward>)

  function AllNames(files: seq<FileCalls>): set<string> {
    if files == [] then {} else AllNames(files[..|files| - 1]) + files[|files| - 1].names
  }

  /** The forwarding calls whose caller is not taken over. */
  function Kept(calls: seq<Forward>, taken: set<string>): (r: seq<Forward>)
    ensures forall c :: c in r <==> c in calls && c.caller !in taken
  {
    if calls == [] then []
    else
      var last := calls[|calls| - 1];
      Kept(calls[..|calls| - 1], taken) + if last.caller in taken then [] else [last]
  }

  /** In file order; a file that defines a name anew drops the forwarding calls its earlier definition made. */
  function MergedForwards(files: seq<FileCalls>): seq<Forward> {
    if files == [] then []
    else
      var before, last := files[..|files| - 1], files[|files| - 1];
      Kept(MergedForwards(before), last.names * AllNames(before)) + last.forwards
  }

  function SitesIn(sites: map<string, seq<CallSite>>, name: string): seq<CallSite> {
    if name in sites then sites[name] else []
  }

  /** The calls of a name, file after file. */
  function SitesOf(files: seq<FileCalls>, name: string): seq<CallSite> {
    if files == [] then [] else SitesOf(files[..|files| - 1], name) + SitesIn(files[|files| - 1].sites, name)
  }

  function CalledNames(files: seq<FileCalls>): set<string> {
    if files == [] then {} else CalledNames(files[..|files| - 1]) + files[|files| - 1].sites.Keys
  }

  function MergedSites(files: seq<FileCalls>): map<string, seq<CallSite>> {
    map name | name in CalledNames(files) :: SitesOf(files, name)
  }

  lemma {:induction false} CalledSomewhere(files: seq<FileCalls>, name: string)
    ensures name in CalledNames(files) <==> exists k: nat :: k < |files| && name in files[k].sites
    ensures name !in CalledNames(files) ==> SitesOf(files, name) == []
  {
    if files != [] {
      var before := files[..|files| - 1];
      CalledSomewhere(before, name);
      if k: nat :| k < |files| && name in files[k].sites {
        assert k < |before| ==> before[k] == files[k];
      }
      if k: nat :| k < |before| && name in before[k].sites {
        assert files[k] == before[k];
      }
    }
  }

  lemma {:induction false} SiteSomewhere(files: seq<FileCalls>, name: string, site: CallSite)
    ensures site in SitesOf(files, name) <==> exists k: nat :: k < |files| && site in SitesIn(files[k].sites, name)
  {
    if files != [] {
      var before := files[..|files| - 1];
      SiteSomewhere(before, name, site);
      if k: nat :| k < |files| && site in SitesIn(files[k].sites, name) {
        assert k < |before| ==> before[k] == files[k];
      }
      if k: nat :| k < |before| && site in SitesIn(before[k].sites, name) {
        assert files[k] == before[k];
      }
    }
  }

  /** Some call in the file reaches the function and omits the formal. */
  predicate OmittedIn(sites: map<string, seq<CallSite>>, owner: string, package: Option<string>, name: string,
        index: nat)
  {
    exists site :: site in SitesIn(sites, owner) && Omitting(site, package, name, index)
  }

  /** A formal is omitted somewhere in the project exactly when it is omitted in some file, whatever their order. */
  lemma OmittedSomewhere<D>(files: seq<FileCalls>, e: Evidence<D>, owner: string, package: Option<string>,
        name: string, index: nat)
    requires e.sites == MergedSites(files)
    ensures Omitted(e, owner, package, name, index) <==>
      exists k: nat :: k < |files| && OmittedIn(files[k].sites, owner, package, name, index)
  {
    CalledSomewhere(files, owner);
    assert Sites(e, owner) == SitesOf(files, owner);
    if i: nat :| i < |Sites(e, owner)| && Omitting(Sites(e, owner)[i], package, name, index) {
      SiteSomewhere(files, owner, Sites(e, owner)[i]);
    }
    if k: nat :| k < |files| && OmittedIn(files[k].sites, owner, package, name, index) {
      var site :| site in SitesIn(files[k].sites, owner) && Omitting(site, package, name, index);
      SiteSomewhere(files, owner, site);
      var i: nat :| i < |Sites(e, owner)| && Sites(e, owner)[i] == site;
    }
  }

  /** Without a forwarding caller, the type is the default exactly while some call omits the formal. */
  lemma OnlyOmissionCounts<D>(read: Reader<D>, e: Evidence<D>, e': Evidence<D>, f: Formal, index: nat)
    requires IndexNamed(f.params, f.name) == Some(index) && f.default != Opaque
    requires FirstBrought(read, e, f, index, 0).None? && FirstBrought(read, e', f, index, 0).None?
    ensures DefaultType(read, e, f) != DefaultType(read, e', f) <==>
      (Omitted(e, f.owner, f.package, f.name, index) <==> !Omitted(e', f.owner, f.package, f.name, index))
  {
    if Omitted(e, f.owner, f.package, f.name, index) {
      assert Called(e, f.owner, f.package);
    }
    if Omitted(e', f.owner, f.package, f.name, index) {
      assert Called(e', f.owner, f.package);
    }
  }
}
