/**
 * The two closures of an incremental check: the functions a restart has to refine again, and the
 * functions whose readers have to be emitted again.
 */
module Closures {

  // ---------------------------------------------------------------------------------------------
  // Functions to refine: a worklist over recorded reads
  // ---------------------------------------------------------------------------------------------

  /** What the last refinements recorded: reads, forwarded calls (caller, callee), and the methods of each generic. */
  datatype Recorded = Recorded(seen: map<string, set<string>>, forwarded: seq<(string, string)>,
        methods: map<string, set<string>>)

  /** Refining `f` looks at `g`. */
  predicate DependsOn(rec: Recorded, f: string, g: string) {
    || (f in rec.seen && g in rec.seen[f])
    || (f, g) in rec.forwarded
    || (f in rec.methods && g in rec.methods[f])
  }

  /** Each function depends on the next. */
  predicate Chain(rec: Recorded, path: seq<string>) {
    path != [] && forall i :: 0 <= i < |path| - 1 ==> DependsOn(rec, path[i], path[i + 1])
  }

  ghost predicate ReachesAny(rec: Recorded, f: string, targets: set<string>) {
    exists path :: Chain(rec, path) && path[0] == f && path[|path| - 1] in targets
  }

  lemma ReachesStep(rec: Recorded, f: string, g: string, targets: set<string>)
    requires DependsOn(rec, f, g) && ReachesAny(rec, g, targets)
    ensures ReachesAny(rec, f, targets)
  {
    var path :| Chain(rec, path) && path[0] == g && path[|path| - 1] in targets;
    assert Chain(rec, [f] + path);
  }

  /** A set that holds the targets and every function depending on one of its own holds every function reaching them. */
  lemma {:induction false} ClosedHoldsReaching(rec: Recorded, closed: set<string>, path: seq<string>)
    requires Chain(rec, path) && path[|path| - 1] in closed
    requires forall f, g :: g in closed && DependsOn(rec, f, g) ==> f in closed
    ensures path[0] in closed
  {
    if |path| > 1 {
      ClosedHoldsReaching(rec, closed, path[1..]);
      assert DependsOn(rec, path[0], path[1]);
    }
  }

  predicate Calls(callers: map<string, set<string>>, f: string, g: string) {
    g in callers && f in callers[g]
  }

  function Insert(callers: map<string, set<string>>, f: string, g: string): map<string, set<string>> {
    callers[g := (if g in callers then callers[g] else {}) + {f}]
  }

  lemma InsertCalls(callers: map<string, set<string>>, f: string, g: string)
    ensures forall c, h :: Calls(Insert(callers, f, g), c, h) <==> Calls(callers, c, h) || (c == f && h == g)
  {
  }

  method InsertAll(callers: map<string, set<string>>, f: string,
        dependencies: set<string>) returns (r: map<string, set<string>>)
    ensures forall c, g :: Calls(r, c, g) <==> Calls(callers, c, g) || (c == f && g in dependencies)
  {
    r := callers;
    var left := dependencies;
    while left != {}
      invariant left <= dependencies
      invariant forall c, g :: Calls(r, c, g) <==> Calls(callers, c, g) || (c == f && g in dependencies - left)
      decreases |left|
    {
      var g :| g in left;
      InsertCalls(r, f, g);
      r, left := Insert(r, f, g), left - {g};
    }
  }

  /** Turn the recorded dependencies around. */
  method Invert(rec: Recorded) returns (callers: map<string, set<string>>)
    ensures forall f, g :: Calls(callers, f, g) <==> DependsOn(rec, f, g)
  {
    callers := map[];
    var left := rec.seen.Keys;
    while left != {}
      invariant left <= rec.seen.Keys
      invariant forall f, g :: Calls(callers, f, g) <==> f in rec.seen && f !in left && g in rec.seen[f]
      decreases |left|
    {
      var f :| f in left;
      callers := InsertAll(callers, f, rec.seen[f]);
      left := left - {f};
    }
    for i := 0 to |rec.forwarded|
      invariant forall f, g :: Calls(callers, f, g) <==>
        (f in rec.seen && g in rec.seen[f]) || (f, g) in rec.forwarded[..i]
    {
      assert rec.forwarded[..i + 1] == rec.forwarded[..i] + [rec.forwarded[i]];
      InsertCalls(callers, rec.forwarded[i].0, rec.forwarded[i].1);
      callers := Insert(callers, rec.forwarded[i].0, rec.forwarded[i].1);
    }
    assert rec.forwarded[..|rec.forwarded|] == rec.forwarded;
    left := rec.methods.Keys;
    while left != {}
      invariant left <= rec.methods.Keys
      invariant forall f, g :: Calls(callers, f, g) <==>
        || (f in rec.seen && g in rec.seen[f])
        || (f, g) in rec.forwarded
        || (f in rec.methods && f !in left && g in rec.methods[f])
      decreases |left|
    {
      var f :| f in left;
      callers := InsertAll(callers, f, rec.methods[f]);
      left := left - {f};
    }
  }

  ghost predicate WorkOk(rec: Recorded, edited: set<string>, affected: set<string>, pending: seq<string>) {
    && edited <= affected
    && (forall f :: f in pending ==> f in affected)
    && (forall f :: f in affected ==> ReachesAny(rec, f, edited))
  }

  /** Everything that depends on `g` is in. */
  ghost predicate Done(rec: Recorded, affected: set<string>, g: string) {
    forall f :: DependsOn(rec, f, g) ==> f in affected
  }

  ghost function Universe(callers: map<string, set<string>>): set<string> {
    set g, f | g in callers && f in callers[g] :: f
  }

  function CallersOf(callers: map<string, set<string>>, g: string): set<string> {
    if g in callers then callers[g] else {}
  }

  /** Add the callers of one function, and put the new ones on the worklist. */
  method AddCallers(found: set<string>, affected: set<string>, pending: seq<string>) returns (r: set<string>,
        work: seq<string>)
    ensures r == affected + found
    ensures forall f :: f in work <==> f in pending || (f in found && f !in affected)
    ensures r == affected ==> work == pending
  {
    r, work := affected, pending;
    var left := found;
    while left != {}
      invariant left <= found
      invariant r == affected + (found - left)
      invariant forall f :: f in work <==> f in pending || (f in found && f !in left && f !in affected)
      invariant r == affected ==> work == pending
      decreases |left|
    {
      var f :| f in left;
      left := left - {f};
      if f !in r {
        r, work := r + {f}, work + [f];
      }
    }
  }

  /** Everything outside the worklist is done. */
  ghost predicate DoneBut(rec: Recorded, affected: set<string>, pending: seq<string>) {
    forall g {:trigger Done(rec, affected, g)} :: g in affected && g !in pending ==> Done(rec, affected, g)
  }

  lemma PopKeepsWork(rec: Recorded, edited: set<string>, affected: set<string>, pending: seq<string>,
        found: set<string>, work: seq<string>)
    requires pending != [] && WorkOk(rec, edited, affected, pending) && DoneBut(rec, affected, pending)
    requires forall f :: f in found <==> DependsOn(rec, f, pending[|pending| - 1])
    requires forall f :: f in work <==> f in pending[..|pending| - 1] || (f in found && f !in affected)
    ensures WorkOk(rec, edited, affected + found, work) && DoneBut(rec, affected + found, work)
  {
    var g, rest := pending[|pending| - 1], pending[..|pending| - 1];
    assert pending == rest + [g];
    forall f | f in found ensures ReachesAny(rec, f, edited) {
      ReachesStep(rec, f, g, edited);
    }
    forall h | h in affected + found && h !in work ensures Done(rec, affected + found, h) {
      if h != g {
        assert Done(rec, affected, h);
      }
    }
  }

  lemma DoneIsExact(rec: Recorded, edited: set<string>, affected: set<string>)
    requires WorkOk(rec, edited, affected, []) && DoneBut(rec, affected, [])
    ensures forall f :: f in affected <==> ReachesAny(rec, f, edited)
    ensures forall f, g :: f !in affected && DependsOn(rec, f, g) ==> g !in affected
  {
    forall c, g | g in affected && DependsOn(rec, c, g) ensures c in affected {
      assert Done(rec, affected, g);
    }
    forall f | ReachesAny(rec, f, edited) ensures f in affected {
      var path :| Chain(rec, path) && path[0] == f && path[|path| - 1] in edited;
      ClosedHoldsReaching(rec, affected, path);
    }
  }

  lemma EditedReach(rec: Recorded, edited: set<string>)
    ensures forall f :: f in edited ==> ReachesAny(rec, f, edited)
  {
    forall f | f in edited ensures ReachesAny(rec, f, edited) {
      assert Chain(rec, [f]);
    }
  }

  /** Take one function off the worklist. */
  method PopOne(rec: Recorded, callers: map<string, set<string>>, edited: set<string>, affected: set<string>,
        pending: seq<string>, ghost universe: set<string>)
    returns (r: set<string>, work: seq<string>)
    requires affected <= universe && Universe(callers) <= universe
    requires forall f, g :: Calls(callers, f, g) <==> DependsOn(rec, f, g)
    requires pending != [] && WorkOk(rec, edited, affected, pending) && DoneBut(rec, affected, pending)
    ensures WorkOk(rec, edited, r, work) && DoneBut(rec, r, work)
    ensures affected <= r <= universe
    ensures if r == affected then |work| < |pending| else |universe - r| < |universe - affected|
  {
    var g := pending[|pending| - 1];
    var found := CallersOf(callers, g);
    assert forall f :: f in found <==> Calls(callers, f, g);
    r, work := AddCallers(found, affected, pending[..|pending| - 1]);
    PopKeepsWork(rec, edited, affected, pending, found, work);
    assert found <= Universe(callers);
    if r != affected {
      Shrinks(universe, affected, r);
    }
  }

  /** The functions to refine again: exactly those from which an edited function can be reached. */
  method WithRefinementCallers(rec: Recorded, edited: set<string>) returns (affected: set<string>)
    ensures edited <= affected && forall f :: f in affected <==> ReachesAny(rec, f, edited)
    ensures forall f, g :: f !in affected && DependsOn(rec, f, g) ==> g !in affected
  {
    var callers := Invert(rec);
    affected := edited;
    var pending := Listed(edited);
    ghost var universe := edited + Universe(callers);
    EditedReach(rec, edited);
    while pending != []
      invariant WorkOk(rec, edited, affected, pending) && affected <= universe
      invariant DoneBut(rec, affected, pending)
      decreases |universe - affected|, |pending|
    {
      affected, pending := PopOne(rec, callers, edited, affected, pending, universe);
    }
    DoneIsExact(rec, edited, affected);
  }

  lemma Shrinks<T>(universe: set<T>, less: set<T>, more: set<T>)
    requires less < more <= universe
    ensures |universe - more| < |universe - less|
  {
    var x :| x in more && x !in less;
    Smaller(universe - more, universe - less, x);
  }

  lemma Smaller<T>(a: set<T>, b: set<T>, x: T)
    requires a <= b && x in b && x !in a
    ensures |a| < |b|
  {
    assert a <= b - {x};
    Cardinality(a, b - {x});
  }

  lemma {:induction false} Cardinality<T>(a: set<T>, b: set<T>)
    requires a <= b
    ensures |a| <= |b|
  {
    if a != {} {
      var x :| x in a;
      Cardinality(a - {x}, b - {x});
    }
  }

  method Listed(s: set<string>) returns (r: seq<string>)
    ensures forall x :: x in r <==> x in s
  {
    r := [];
    var left := s;
    while left != {}
      invariant left <= s
      invariant forall x :: x in r <==> x in s && x !in left
      decreases |left|
    {
      var x :| x in left;
      r, left := r + [x], left - {x};
    }
  }

  // ---------------------------------------------------------------------------------------------
  // Functions whose readers are emitted again: repeat until nothing changes
  // ---------------------------------------------------------------------------------------------

  /** The functions a file defines, and those it calls or was seen reading. */
  datatype FileUse = FileUse(defines: set<string>, uses: set<string>)

  /** A file that uses one of the functions has all its own functions among them. */
  ghost predicate Closed<P(!new)>(files: map<P, FileUse>, affected: set<string>) {
    forall p :: p in files && files[p].uses * affected != {} ==> files[p].defines <= affected
  }

  /** The least closed set above the changed functions. */
  method WithTransitiveCallers<P(==, !new)>(files: map<P, FileUse>,
        changed: set<string>) returns (affected: set<string>)
    ensures changed <= affected && Closed(files, affected)
    ensures forall other :: changed <= other && Closed(files, other) ==> affected <= other
  {
    affected := changed;
    ghost var universe := changed + set p, name | p in files && name in files[p].defines :: name;
    var growing := true;
    while growing
      invariant changed <= affected <= universe
      invariant forall other :: changed <= other && Closed(files, other) ==> affected <= other
      invariant !growing ==> Closed(files, affected)
      decreases |universe - affected|, growing
    {
      growing := false;
      var left := files.Keys;
      ghost var before := affected;
      while left != {}
        invariant left <= files.Keys
        invariant changed <= affected <= universe && before <= affected
        invariant forall other :: changed <= other && Closed(files, other) ==> affected <= other
        invariant growing <==> affected != before
        invariant !growing ==> forall p :: p in files && p !in left && files[p].uses * affected != {} ==>
          files[p].defines <= affected
        decreases |left|
      {
        var p :| p in left;
        left := left - {p};
        if files[p].uses * affected != {} && !(files[p].defines <= affected) {
          forall other | changed <= other && Closed(files, other) ensures affected + files[p].defines <= other {
            var used :| used in files[p].uses * affected;
            assert used in files[p].uses * other;
          }
          affected := affected + files[p].defines;
          growing := true;
        }
      }
      if growing {
        Shrinks(universe, before, affected);
      }
    }
  }
}
