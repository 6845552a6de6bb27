/**
 * The return-type fixpoint: a worklist over strongly connected components of the reads observed so
 * far. One function's inference walk is a parameter; what the scheduler relies on is stated in
 * `JobOk`.
 */
module Fixpoint {
  import opened Graphs
  import opened Wrappers
  import Tarjan
  import opened Seals

  /** Refinement rounds, and the budget per component member. */
  const MAX_FIXPOINT_DEPTH: nat := 8

  // ---------------------------------------------------------------------------------------------
  // Data
  // ---------------------------------------------------------------------------------------------

  /**
   * The tables an inference walk can see. `bottom` holds the slots not computed yet, whose entry in
   * `rets` is a placeholder; `metas` is the evaluation metadata of each slot's function; `loaded`
   * and `bare` are the attached packages.
   */
  datatype World<T, M, P> = World(rets: seq<T>, bottom: set<nat>, metas: seq<M>, loaded: set<P>, bare: set<P>)

  /**
   * One walk over a body: the return it found, if any path returns, the slots it read, and the packages attached after
   * it.
   */
  datatype Refinement<T, P> = Refinement(result: Option<T>, seen: seq<nat>, loaded: set<P>, bare: set<P>)

  /** What a run works on. Function `i` owns return slot `slots[i]` and is in scope iff `active[i]`. */
  datatype Job<!T, !M, !P> = Job(
    refine: (nat, World<T, M, P>) -> Refinement<T, P>,
    generics: seq<M> -> seq<M>,
    forwarded: (seq<M>, set<P>, set<P>) -> seq<M>,
    unknown: T,
    slots: seq<nat>,
    active: seq<bool>,
    slotCount: nat)

  /** The worklists: `callers[s]` are the functions seen reading slot `s`. */
  datatype Lists = Lists(pending: set<nat>, queue: set<nat>, callers: seq<set<nat>>)

  // ---------------------------------------------------------------------------------------------
  // What is assumed of inference
  // ---------------------------------------------------------------------------------------------

  ghost predicate WorldOk<T(!new), M(!new), P(!new)>(job: Job<T, M, P>, w: World<T, M, P>) {
    |w.rets| == |w.metas| == job.slotCount
  }

  ghost predicate SlotSame<T(!new), M(!new), P(!new)>(w: World<T, M, P>, w': World<T, M, P>, s: nat)
    requires s < |w.rets| == |w.metas| == |w'.rets| == |w'.metas|
  {
    w.rets[s] == w'.rets[s] && (s in w.bottom <==> s in w'.bottom) && w.metas[s] == w'.metas[s]
  }

  /** Reads are slots of the table, and a walk can attach packages but not detach them. */
  ghost predicate WalkOk<T(!new), M(!new), P(!new)>(job: Job<T, M, P>, f: nat, w: World<T, M, P>) {
    && (forall s :: s in job.refine(f, w).seen ==> s < job.slotCount)
    && w.loaded <= job.refine(f, w).loaded && w.bare <= job.refine(f, w).bare
  }

  /** The two tables agree on everything that walking `f`'s body in `w` looks at. */
  ghost predicate SameView<T(!new), M(!new), P(!new)>(job: Job<T, M, P>, f: nat, w: World<T, M, P>, w': World<T, M, P>)
    requires f < |job.slots| && job.slots[f] < job.slotCount && WorldOk(job, w) && WorldOk(job, w') && WalkOk(job, f, w)
  {
    && w.loaded == w'.loaded && w.bare == w'.bare
    && w.metas[job.slots[f]] == w'.metas[job.slots[f]]
    && (forall s :: s in job.refine(f, w).seen ==> SlotSame(w, w', s))
  }

  ghost predicate Framed<T(!new), M(!new), P(!new)>(job: Job<T, M, P>)
    requires forall f, w {:trigger WalkOk(job, f, w)} :: WalkOk(job, f, w)
    requires forall i :: 0 <= i < |job.slots| ==> job.slots[i] < job.slotCount
  {
    forall f: nat, w, w' {:trigger SameView(job, f, w, w')} ::
      f < |job.slots| && WorldOk(job, w) && WorldOk(job, w') && SameView(job, f, w, w') ==>
        job.refine(f, w') == job.refine(f, w)
  }

  ghost predicate SameSlot(slots: seq<nat>, i: nat, j: nat)
    requires i < |slots| && j < |slots|
  {
    slots[i] == slots[j]
  }

  /** No two functions own the same slot. */
  ghost predicate OneOwner(slots: seq<nat>) {
    forall i: nat, j: nat {:trigger SameSlot(slots, i, j)} :: i < |slots| && j < |slots| && SameSlot(slots, i, j) ==>
      i == j
  }

  lemma Owner(slots: seq<nat>, i: nat, j: nat)
    requires OneOwner(slots) && i < |slots| && j < |slots| && slots[i] == slots[j]
    ensures i == j
  {
    assert SameSlot(slots, i, j);
  }

  lemma OtherSlot(slots: seq<nat>, i: nat, j: nat)
    requires OneOwner(slots) && i < |slots| && j < |slots| && i != j
    ensures slots[i] != slots[j]
  {
    assert !SameSlot(slots, i, j);
  }

  ghost predicate JobOk<T(!new), M(!new), P(!new)>(job: Job<T, M, P>) {
    && |job.active| == |job.slots| < Tarjan.UNVISITED
    && (forall i :: 0 <= i < |job.slots| ==> job.slots[i] < job.slotCount)
    && OneOwner(job.slots)
    && (forall f, w {:trigger WalkOk(job, f, w)} :: WalkOk(job, f, w))
    && Framed(job)
    && (forall ms :: |job.generics(ms)| == |ms|)
    && (forall ms, l, b :: |job.forwarded(ms, l, b)| == |ms|)
  }

  ghost predicate Active<T(!new), M(!new), P(!new)>(job: Job<T, M, P>, f: nat) {
    f < |job.active| && job.active[f]
  }

  /** The slots owned by a function in scope. */
  ghost predicate ActiveSlot<T(!new), M(!new), P(!new)>(job: Job<T, M, P>, s: nat) {
    exists f: nat :: Active(job, f) && f < |job.slots| && job.slots[f] == s
  }

  // ---------------------------------------------------------------------------------------------
  // Settled functions
  // ---------------------------------------------------------------------------------------------

  ghost predicate ReadsBottom<T(!new), M(!new), P(!new)>(job: Job<T, M, P>, w: World<T, M, P>, f: nat) {
    exists s :: s in job.refine(f, w).seen && s in w.bottom
  }

  /** Storing what a walk over `f` finds in `w` would change nothing. */
  ghost predicate Agrees<T(!new), M(!new), P(!new)>(job: Job<T, M, P>, w: World<T, M, P>, f: nat)
    requires WorldOk(job, w) && f < |job.slots| && job.slots[f] < job.slotCount
  {
    var r := job.refine(f, w);
    && r.loaded == w.loaded && r.bare == w.bare
    && (r.result.Some? ==> w.rets[job.slots[f]] == r.result.value && job.slots[f] !in w.bottom)
    && (r.result.None? && !ReadsBottom(job, w, f) ==> w.rets[job.slots[f]] == job.unknown && job.slots[f] !in w.bottom)
  }

  /** `f` need not be refined again, and every slot it reads would wake it. */
  ghost predicate Settled<T(!new), M(!new), P(!new)>(job: Job<T, M, P>, w: World<T, M, P>, callers: seq<set<nat>>,
        f: nat)
    requires WorldOk(job, w) && f < |job.slots| && job.slots[f] < job.slotCount == |callers|
    requires WalkOk(job, f, w)
  {
    Agrees(job, w, f) && forall s :: s in job.refine(f, w).seen ==> f in callers[s]
  }

  ghost predicate ListsOk<T(!new), M(!new), P(!new)>(job: Job<T, M, P>, q: Lists) {
    && |q.callers| == job.slotCount
    && (forall f {:trigger f in q.pending} {:trigger f in q.queue} :: f in q.pending || f in q.queue ==> Active(job, f))
    && (forall s, f {:trigger f in q.callers[s]} :: 0 <= s < |q.callers| && f in q.callers[s] ==> Active(job, f))
  }

  /** Every function in scope is waiting, was widened by its last write, or is settled. */
  ghost predicate AllSettled<T(!new), M(!new), P(!new)>(job: Job<T, M, P>, w: World<T, M, P>, q: Lists,
        widened: set<nat>)
    requires JobOk(job) && WorldOk(job, w) && ListsOk(job, q)
  {
    forall f {:trigger Settled(job, w, q.callers, f)} ::
      Active(job, f) && f !in q.pending && f !in q.queue && f !in widened ==>
      WalkOk(job, f, w) && Settled(job, w, q.callers, f)
  }

  /** Writing slots that `f` does not read leaves `f` settled. */
  lemma WriteElsewhere<T(!new), M(!new), P(!new)>(job: Job<T, M, P>, w: World<T, M, P>, w': World<T, M, P>,
        callers: seq<set<nat>>, written: set<nat>, f: nat)
    requires JobOk(job) && WorldOk(job, w) && WorldOk(job, w') && |callers| == job.slotCount && f < |job.slots|
    requires WalkOk(job, f, w) && Settled(job, w, callers, f)
    requires w'.metas == w.metas && w'.loaded == w.loaded && w'.bare == w.bare && w'.bottom <= w.bottom
    requires forall s :: 0 <= s < job.slotCount && s !in written ==> SlotSame(w, w', s)
    requires forall s :: s in written && s < job.slotCount ==> f !in callers[s]
    requires job.slots[f] in written ==> job.slots[f] in w.bottom
    ensures WalkOk(job, f, w') && Settled(job, w', callers, f) && job.refine(f, w') == job.refine(f, w)
  {
    forall s | s in job.refine(f, w).seen ensures SlotSame(w, w', s) {
      assert f in callers[s];
    }
    assert SameView(job, f, w, w');
    assert WalkOk(job, f, w');
    assert ReadsBottom(job, w', f) <==> ReadsBottom(job, w, f) by {
      assert forall s :: s in job.refine(f, w).seen ==> SlotSame(w, w', s);
      if ReadsBottom(job, w, f) {
        var s :| s in job.refine(f, w).seen && s in w.bottom;
        assert SlotSame(w, w', s);
      }
    }
  }

  // ---------------------------------------------------------------------------------------------
  // The three moves of a component, on values
  // ---------------------------------------------------------------------------------------------

  /** A return is stored and its slot leaves bottom. */
  function Stored<T, M, P>(w: World<T, M, P>, s: nat, v: T): World<T, M, P>
    requires s < |w.rets|
  {
    w.(rets := w.rets[s := v], bottom := w.bottom - {s})
  }

  /** Whether storing `v` in slot `s` counts as a change. */
  predicate Changes<T(==), M, P>(w: World<T, M, P>, s: nat, v: T)
    requires s < |w.rets|
  {
    s in w.bottom || w.rets[s] != v
  }

  /** The lists after slot `s` changed while component `id` is being settled. */
  function Woken(q: Lists, s: nat, componentOf: seq<nat>, id: nat, widen: bool): Lists
    requires s < |q.callers| && forall c :: c in q.callers[s] ==> c < |componentOf|
  {
    Lists(q.pending + (set c | c in q.callers[s] && componentOf[c] != id),
          if widen then q.queue else q.queue + (set c | c in q.callers[s] && componentOf[c] == id),
          q.callers)
  }

  /** `f` is recorded as a reader of every slot in `seen`. */
  function Recorded(callers: seq<set<nat>>, seen: seq<nat>, f: nat): (r: seq<set<nat>>)
    requires forall s :: s in seen ==> s < |callers|
    ensures |r| == |callers|
    ensures forall s :: 0 <= s < |callers| ==> r[s] == callers[s] + (if s in seen then {f} else {})
  {
    seq(|callers|, s requires 0 <= s < |callers| => callers[s] + (if s in seen then {f} else {}))
  }

  /**
   * The return a walk gives: without a path through computed callees it stays bottom, otherwise no path means unknown.
   */
  function Outcome<T, P>(r: Refinement<T, P>, bottom: set<nat>, unknown: T): Option<T> {
    if r.result.Some? then r.result
    else if exists s :: s in r.seen && s in bottom then None
    else Some(unknown)
  }

  ghost predicate Placed<T(!new), M(!new), P(!new)>(job: Job<T, M, P>, componentOf: seq<nat>) {
    |componentOf| == |job.slots|
  }

  /** What the walk over `f` found, stored in the table it was found in. */
  function Refined<T(==), M, P>(job: Job<T, M, P>, w: World<T, M, P>, f: nat): World<T, M, P>
    requires f < |job.slots| && job.slots[f] < |w.rets|
  {
    var r := job.refine(f, w);
    var w1 := w.(loaded := r.loaded, bare := r.bare);
    match Outcome(r, w.bottom, job.unknown)
    case Some(v) => Stored(w1, job.slots[f], v)
    case None => w1
  }

  /** The lists after `f`, taken from the queue of component `id`, was refined in `w`. */
  function RefinedLists<T(==), M, P>(job: Job<T, M, P>, w: World<T, M, P>, q: Lists, f: nat, componentOf: seq<nat>,
        id: nat): Lists
    requires f < |job.slots| && job.slots[f] < |w.rets| == |q.callers|
    requires forall s :: s in job.refine(f, w).seen ==> s < |q.callers|
    requires f < |componentOf| && forall c :: c in q.callers[job.slots[f]] ==> c < |componentOf|
  {
    var r := job.refine(f, w);
    var q1 := q.(queue := q.queue - {f}, callers := Recorded(q.callers, r.seen, f));
    match Outcome(r, w.bottom, job.unknown)
    case Some(v) => if Changes(w, job.slots[f], v) then Woken(q1, job.slots[f], componentOf, id, false) else q1
    case None => q1
  }

  /** Refining `f` settles it, unless it wakes itself, and wakes everyone it unsettles. */
  lemma RefinedSettled<T(!new), M(!new), P(!new)>(job: Job<T, M, P>, w: World<T, M, P>, q: Lists, widened: set<nat>,
        f: nat, componentOf: seq<nat>, id: nat, g: nat)
    requires JobOk(job) && WorldOk(job, w) && ListsOk(job, q) && Placed(job, componentOf) && Active(job, f)
    requires Active(job, g)
    requires WalkOk(job, f, w) && WalkOk(job, g, w)
    requires job.refine(f, w).loaded == w.loaded && job.refine(f, w).bare == w.bare
    requires g == f || g in q.pending || g in q.queue || g in widened || Settled(job, w, q.callers, g)
    ensures var w', q' := Refined(job, w, f), RefinedLists(job, w, q, f, componentOf, id);
            || g in q'.pending || g in q'.queue || (g in widened && g != f)
            || (WalkOk(job, g, w') && Settled(job, w', q'.callers, g))
  {
    var w', q' := Refined(job, w, f), RefinedLists(job, w, q, f, componentOf, id);
    var r, s := job.refine(f, w), job.slots[f];
    if g in q'.pending || g in q'.queue || (g in widened && g != f) { return; }
    var callers := Recorded(q.callers, r.seen, f);
    if g != f { }
    match Outcome(r, w.bottom, job.unknown)
    case None =>
      assert w' == w;
      assert ReadsBottom(job, w, f);
    case Some(v) =>
      if Changes(w, s, v) {
        assert g !in callers[s];
        if g == f {
          SelfSettled(job, w, callers, f, v);
        } else {
          OtherSlot(job.slots, g, f);
          WriteElsewhere(job, w, w', callers, {s}, g);
        }
      } else {
        assert w' == w;
      }
  }

  lemma SelfSettled<T(!new), M(!new), P(!new)>(job: Job<T, M, P>, w: World<T, M, P>, callers: seq<set<nat>>, f: nat,
        v: T)
    requires JobOk(job) && WorldOk(job, w) && f < |job.slots| && |callers| == job.slotCount && WalkOk(job, f, w)
    requires job.refine(f, w).loaded == w.loaded && job.refine(f, w).bare == w.bare
    requires Outcome(job.refine(f, w), w.bottom, job.unknown) == Some(v)
    requires forall s :: s in job.refine(f, w).seen ==> f in callers[s]
    requires f !in callers[job.slots[f]]
    ensures WalkOk(job, f, Stored(w, job.slots[f], v)) && Settled(job, Stored(w, job.slots[f], v), callers, f)
  {
    var w' := Stored(w, job.slots[f], v);
    assert job.slots[f] !in job.refine(f, w).seen;
    assert SameView(job, f, w, w');
    assert WalkOk(job, f, w');
  }

  /** Several slots get the same return at once. */
  function Filled<T, M, P>(w: World<T, M, P>, slots: set<nat>, v: T): (r: World<T, M, P>)
    ensures |r.rets| == |w.rets|
    ensures forall s :: 0 <= s < |w.rets| ==> r.rets[s] == if s in slots then v else w.rets[s]
  {
    w.(rets := seq(|w.rets|, s requires 0 <= s < |w.rets| => if s in slots then v else w.rets[s]),
       bottom := w.bottom - slots)
  }

  predicate InTable(slots: seq<nat>, n: nat) {
    forall k :: 0 <= k < |slots| ==> slots[k] < n
  }

  function SlotSet(s: seq<nat>): set<nat> {
    set x | x in s
  }

  function WokenAll(q: Lists, changed: seq<nat>, componentOf: seq<nat>, id: nat, widen: bool): (r: Lists)
    requires InTable(changed, |q.callers|)
    requires forall s, c {:trigger c in q.callers[s]} :: 0 <= s < |q.callers| && c in q.callers[s] ==> c < |componentOf|
    ensures r.callers == q.callers
  {
    if changed == [] then q
    else Woken(WokenAll(q, changed[..|changed| - 1], componentOf, id, widen), changed[|changed| - 1], componentOf, id,
               widen)
  }

  /** Some changed slot was read by `g`. */
  ghost predicate Wakes(q: Lists, changed: seq<nat>, g: nat) {
    exists k :: 0 <= k < |changed| && changed[k] < |q.callers| && g in q.callers[changed[k]]
  }

  lemma {:induction false} WokenAllMembers(q: Lists, changed: seq<nat>, componentOf: seq<nat>, id: nat, widen: bool,
        g: nat)
    requires InTable(changed, |q.callers|)
    requires forall s, c {:trigger c in q.callers[s]} :: 0 <= s < |q.callers| && c in q.callers[s] ==> c < |componentOf|
    requires g < |componentOf|
    ensures var r := WokenAll(q, changed, componentOf, id, widen);
            && (g in r.pending <==> g in q.pending || (componentOf[g] != id && Wakes(q, changed, g)))
            && (g in r.queue <==> g in q.queue || (!widen && componentOf[g] == id && Wakes(q, changed, g)))
  {
    if changed != [] {
      var rest, last := changed[..|changed| - 1], changed[|changed| - 1];
      WokenAllMembers(q, rest, componentOf, id, widen, g);
      if Wakes(q, changed, g) {
        var k :| 0 <= k < |changed| && changed[k] < |q.callers| && g in q.callers[changed[k]];
        assert k < |rest| ==> rest[k] == changed[k];
      }
      if Wakes(q, rest, g) {
        var k :| 0 <= k < |rest| && rest[k] < |q.callers| && g in q.callers[rest[k]];
        assert changed[k] == rest[k];
      }
    }
  }

  lemma WokenAllListsOk<T(!new), M(!new), P(!new)>(job: Job<T, M, P>, q: Lists, changed: seq<nat>,
        componentOf: seq<nat>, id: nat, widen: bool)
    requires JobOk(job) && ListsOk(job, q) && Placed(job, componentOf)
    requires InTable(changed, |q.callers|)
    ensures ListsOk(job, WokenAll(q, changed, componentOf, id, widen))
  {
    if changed != [] {
      WokenAllListsOk(job, q, changed[..|changed| - 1], componentOf, id, widen);
    }
  }

  /** Lifting the members of a component still at bottom to unknown wakes everyone it unsettles. */
  lemma LiftSettled<T(!new), M(!new), P(!new)>(job: Job<T, M, P>, w: World<T, M, P>, q: Lists, widened: set<nat>,
        stuck: seq<nat>, componentOf: seq<nat>, id: nat, g: nat)
    requires JobOk(job) && WorldOk(job, w) && ListsOk(job, q) && Placed(job, componentOf) && Active(job, g)
    requires InTable(stuck, job.slotCount) && forall k :: 0 <= k < |stuck| ==> stuck[k] in w.bottom
    requires g in q.pending || g in q.queue || g in widened || (WalkOk(job, g, w) && Settled(job, w, q.callers, g))
    ensures var w', q' := Filled(w, SlotSet(stuck), job.unknown), WokenAll(q, stuck, componentOf, id, false);
            g in q'.pending || g in q'.queue || g in widened || (WalkOk(job, g, w') && Settled(job, w', q'.callers, g))
  {
    var written := SlotSet(stuck);
    var w', q' := Filled(w, written, job.unknown), WokenAll(q, stuck, componentOf, id, false);
    WokenAllMembers(q, stuck, componentOf, id, false, g);
    if g !in q'.pending && g !in q'.queue && g !in widened {
      assert !Wakes(q, stuck, g);
      WriteElsewhere(job, w, w', q.callers, written, g);
    }
  }

  /** Widening a component to unknown leaves the functions outside it settled or wakes them. */
  lemma WidenSettled<T(!new), M(!new), P(!new)>(job: Job<T, M, P>, w: World<T, M, P>, q: Lists, widened: set<nat>,
        members: set<nat>, slots: set<nat>, changed: seq<nat>, componentOf: seq<nat>, id: nat, g: nat)
    requires JobOk(job) && WorldOk(job, w) && ListsOk(job, q) && Placed(job, componentOf) && Active(job, g)
    requires forall m :: m in members ==> m < |job.slots|
    requires slots == set m | m in members :: job.slots[m]
    requires InTable(changed, job.slotCount) && forall k :: 0 <= k < |changed| ==> changed[k] in slots
    requires forall s :: s in slots && Changes(w, s, job.unknown) ==> s in changed
    requires componentOf[g] != id && g !in members && g !in q.queue
    requires g in q.pending || g in widened || (WalkOk(job, g, w) && Settled(job, w, q.callers, g))
    ensures var w', q' := Filled(w, slots, job.unknown), WokenAll(q.(queue := {}), changed, componentOf, id, true);
            g in q'.pending || g in q'.queue || g in widened || (WalkOk(job, g, w') && Settled(job, w', q'.callers, g))
  {
    var w', q' := Filled(w, slots, job.unknown), WokenAll(q.(queue := {}), changed, componentOf, id, true);
    WokenAllMembers(q.(queue := {}), changed, componentOf, id, true, g);
    if g !in q'.pending && g !in widened {
      assert !Wakes(q.(queue := {}), changed, g);
      forall m | m in members ensures job.slots[m] != job.slots[g] {
        OtherSlot(job.slots, m, g);
      }
      WriteElsewhere(job, w, w', q.callers, SlotSet(changed), g);
    }
  }

  // ---------------------------------------------------------------------------------------------
  // What holds throughout a pass
  // ---------------------------------------------------------------------------------------------

  /** Only slots in scope are ever at bottom. */
  ghost predicate BottomActive<T(!new), M(!new), P(!new)>(job: Job<T, M, P>, w: World<T, M, P>) {
    forall s {:trigger s in w.bottom} :: s in w.bottom ==> s < job.slotCount && ActiveSlot(job, s)
  }

  /** Slots owned by no function in scope hold what they held at the start. */
  ghost predicate OffScope<T(!new), M(!new), P(!new)>(job: Job<T, M, P>, start: World<T, M, P>, w: World<T, M, P>)
    requires WorldOk(job, start) && WorldOk(job, w)
  {
    forall s :: 0 <= s < job.slotCount && !ActiveSlot(job, s) ==> w.rets[s] == start.rets[s]
  }

  /** `passStart` is the table at the start of the pass, `start` at the start of the run. */
  ghost predicate PassOk<T(!new), M(!new), P(!new)>(job: Job<T, M, P>, start: World<T, M, P>,
        passStart: World<T, M, P>, w: World<T, M, P>, q: Lists, widened: set<nat>)
    requires JobOk(job) && WorldOk(job, start)
  {
    && WorldOk(job, w) && ListsOk(job, q) && BottomActive(job, w) && OffScope(job, start, w)
    && w.metas == passStart.metas && passStart.loaded <= w.loaded && passStart.bare <= w.bare
    && w.bottom <= passStart.bottom
    && (w.loaded == passStart.loaded && w.bare == passStart.bare ==> AllSettled(job, w, q, widened))
  }

  /** `PassOk`, behind a quantifier that only a `Seal` term opens, so that the methods carry it as a whole. */
  ghost predicate Steady<T(!new), M(!new), P(!new)>(job: Job<T, M, P>, start: World<T, M, P>,
        passStart: World<T, M, P>, w: World<T, M, P>, q: Lists, widened: set<nat>)
    requires JobOk(job) && WorldOk(job, start)
  {
    forall k {:trigger Seal(k)} :: Seal(k) ==> PassOk(job, start, passStart, w, q, widened)
  }

  lemma Open<T(!new), M(!new), P(!new)>(job: Job<T, M, P>, start: World<T, M, P>, passStart: World<T, M, P>,
        w: World<T, M, P>, q: Lists, widened: set<nat>)
    requires JobOk(job) && WorldOk(job, start) && Steady(job, start, passStart, w, q, widened)
    ensures PassOk(job, start, passStart, w, q, widened)
  {
    assert Seal(0);
  }

  lemma Basics<T(!new), M(!new), P(!new)>(job: Job<T, M, P>, start: World<T, M, P>, passStart: World<T, M, P>,
        w: World<T, M, P>, q: Lists, widened: set<nat>)
    requires JobOk(job) && WorldOk(job, start) && Steady(job, start, passStart, w, q, widened)
    ensures WorldOk(job, w) && ListsOk(job, q)
  {
    Open(job, start, passStart, w, q, widened);
  }

  lemma RefinedPassOk<T(!new), M(!new), P(!new)>(job: Job<T, M, P>, start: World<T, M, P>, passStart: World<T, M, P>,
        w: World<T, M, P>, q: Lists, widened: set<nat>, f: nat, componentOf: seq<nat>, id: nat)
    requires JobOk(job) && WorldOk(job, start) && PassOk(job, start, passStart, w, q, widened)
    requires Placed(job, componentOf) && Active(job, f)
    ensures WalkOk(job, f, w)
    ensures PassOk(job, start, passStart, Refined(job, w, f), RefinedLists(job, w, q, f, componentOf, id),
                   widened - {f})
  {
    assert WalkOk(job, f, w);
    var w', q' := Refined(job, w, f), RefinedLists(job, w, q, f, componentOf, id);
    assert ActiveSlot(job, job.slots[f]);
    if w'.loaded == passStart.loaded && w'.bare == passStart.bare {
      forall g | Active(job, g) && g !in q'.pending && g !in q'.queue && g !in widened - {f}
        ensures WalkOk(job, g, w') && Settled(job, w', q'.callers, g)
      {
        assert WalkOk(job, g, w);
        assert g == f || g in q.pending || g in q.queue || g in widened || Settled(job, w, q.callers, g);
        RefinedSettled(job, w, q, widened, f, componentOf, id, g);
      }
    }
  }

  lemma LiftPassOk<T(!new), M(!new), P(!new)>(job: Job<T, M, P>, start: World<T, M, P>, passStart: World<T, M, P>,
        w: World<T, M, P>, q: Lists, widened: set<nat>, stuck: seq<nat>, componentOf: seq<nat>, id: nat)
    requires JobOk(job) && WorldOk(job, start) && PassOk(job, start, passStart, w, q, widened)
    requires Placed(job, componentOf)
    requires InTable(stuck, job.slotCount) && forall k :: 0 <= k < |stuck| ==> stuck[k] in w.bottom
    ensures PassOk(job, start, passStart, Filled(w, SlotSet(stuck), job.unknown),
                   WokenAll(q, stuck, componentOf, id, false), widened)
  {
    var w', q' := Filled(w, SlotSet(stuck), job.unknown), WokenAll(q, stuck, componentOf, id, false);
    WokenAllListsOk(job, q, stuck, componentOf, id, false);
    if w'.loaded == passStart.loaded && w'.bare == passStart.bare {
      forall g | Active(job, g) && g !in q'.pending && g !in q'.queue && g !in widened
        ensures WalkOk(job, g, w') && Settled(job, w', q'.callers, g)
      {
        assert WalkOk(job, g, w);
        assert g in q.pending || g in q.queue || Settled(job, w, q.callers, g);
        LiftSettled(job, w, q, widened, stuck, componentOf, id, g);
      }
    }
  }

  /** `members` is the component with number `id`, all of it in scope. */
  ghost predicate IsComponent<T(!new), M(!new), P(!new)>(job: Job<T, M, P>, members: set<nat>, componentOf: seq<nat>,
        id: nat) {
    && Placed(job, componentOf)
    && (forall m: nat {:trigger m in members} :: m in members <==> m < |job.slots| && componentOf[m] == id)
  }

  lemma WidenPassOk<T(!new), M(!new), P(!new)>(job: Job<T, M, P>, start: World<T, M, P>, passStart: World<T, M, P>,
        w: World<T, M, P>, q: Lists, widened: set<nat>, members: set<nat>, slots: set<nat>, changed: seq<nat>,
        componentOf: seq<nat>, id: nat)
    requires JobOk(job) && WorldOk(job, start) && PassOk(job, start, passStart, w, q, widened)
    requires IsComponent(job, members, componentOf, id) && q.queue <= members && forall m :: m in members ==>
      Active(job, m)
    requires slots == set m | m in members :: job.slots[m]
    requires InTable(changed, job.slotCount) && forall k :: 0 <= k < |changed| ==> changed[k] in slots
    requires forall s :: s in slots && Changes(w, s, job.unknown) ==> s in changed
    ensures PassOk(job, start, passStart, Filled(w, slots, job.unknown),
                   WokenAll(q.(queue := {}), changed, componentOf, id, true), widened + members)
  {
    var w', q' := Filled(w, slots, job.unknown), WokenAll(q.(queue := {}), changed, componentOf, id, true);
    WokenAllListsOk(job, q.(queue := {}), changed, componentOf, id, true);
    forall s | s in slots ensures ActiveSlot(job, s) {
      var m :| m in members && job.slots[m] == s;
      assert Active(job, m);
    }
    if w'.loaded == passStart.loaded && w'.bare == passStart.bare {
      forall g | Active(job, g) && g !in q'.pending && g !in q'.queue && g !in widened + members
        ensures WalkOk(job, g, w') && Settled(job, w', q'.callers, g)
      {
        assert WalkOk(job, g, w);
        assert g !in members && g !in q.queue;
        assert g in q.pending || Settled(job, w, q.callers, g);
        WidenSettled(job, w, q, widened, members, slots, changed, componentOf, id, g);
      }
    }
  }

  // ---------------------------------------------------------------------------------------------
  // Least solutions
  // ---------------------------------------------------------------------------------------------

  /** A return slot as refinement understands it: not computed, or a type. */
  datatype Cell<T> = Bot | Val(t: T)

  function CellOf<T, M, P>(w: World<T, M, P>, s: nat): Cell<T>
    requires s < |w.rets|
  {
    if s in w.bottom then Bot else Val(w.rets[s])
  }

  predicate CellLeq<T>(leq: (T, T) -> bool, a: Cell<T>, b: Cell<T>) {
    a.Bot? || (b.Val? && leq(a.t, b.t))
  }

  ghost predicate WorldLeq<T(!new), M(!new), P(!new)>(leq: (T, T) -> bool, w: World<T, M, P>, x: World<T, M, P>)
    requires |w.rets| == |x.rets|
  {
    forall s {:trigger CellOf(w, s)} {:trigger CellOf(x, s)} :: 0 <= s < |w.rets| ==>
      CellLeq(leq, CellOf(w, s), CellOf(x, s))
  }

  /** What refining `f` in `w` gives. */
  function OutcomeCell<T, M, P>(job: Job<T, M, P>, w: World<T, M, P>, f: nat): Cell<T> {
    match Outcome(job.refine(f, w), w.bottom, job.unknown)
    case Some(v) => Val(v)
    case None => Bot
  }

  /** A slot at bottom holds the unknown placeholder it was created with. */
  ghost predicate WellPlaced<T(!new), M(!new), P(!new)>(job: Job<T, M, P>, w: World<T, M, P>)
    requires WorldOk(job, w)
  {
    forall s {:trigger s in w.bottom} :: s in w.bottom && s < job.slotCount ==> w.rets[s] == job.unknown
  }

  ghost predicate SameMetadata<T(!new), M(!new), P(!new)>(w: World<T, M, P>, x: World<T, M, P>) {
    w.metas == x.metas && w.loaded == x.loaded && w.bare == x.bare
  }

  ghost predicate Comparable<T(!new), M(!new), P(!new)>(job: Job<T, M, P>, leq: (T, T) -> bool, w: World<T, M, P>,
        x: World<T, M, P>) {
    WorldOk(job, w) && WorldOk(job, x) && WellPlaced(job, w) && WellPlaced(job, x) && SameMetadata(w, x)
      && WorldLeq(leq, w, x)
  }

  /** Refinement is monotone: knowing more about the callees never makes a result smaller. */
  ghost predicate Monotone<T(!new), M(!new), P(!new)>(job: Job<T, M, P>, leq: (T, T) -> bool) {
    && (forall t :: leq(t, t))
    && (forall a, b, c :: leq(a, b) && leq(b, c) ==> leq(a, c))
    && (forall f, w, x {:trigger Comparable(job, leq, w, x), job.refine(f, w)} ::
          Active(job, f) && Comparable(job, leq, w, x) ==>
          CellLeq(leq, OutcomeCell(job, w, f), OutcomeCell(job, x, f)))
  }

  /** No walk attaches a package. */
  ghost predicate Unattached<T(!new), M(!new), P(!new)>(job: Job<T, M, P>) {
    forall f, w {:trigger job.refine(f, w)} :: job.refine(f, w).loaded == w.loaded && job.refine(f, w).bare == w.bare
  }

  /** Neither way of passing on evaluation metadata changes anything. */
  ghost predicate Evaluated<T(!new), M(!new), P(!new)>(job: Job<T, M, P>, w: World<T, M, P>) {
    job.generics(w.metas) == w.metas && job.forwarded(w.metas, w.loaded, w.bare) == w.metas
  }

  /** Only returns are left to solve, starting from bottom in scope. */
  ghost predicate Quiet<T(!new), M(!new), P(!new)>(job: Job<T, M, P>, start: World<T, M, P>) {
    && WorldOk(job, start) && Unattached(job) && Evaluated(job, start)
    && forall s :: 0 <= s < job.slotCount && ActiveSlot(job, s) ==> start.rets[s] == job.unknown
  }

  /** `x` absorbs every refinement in scope and agrees with the start outside it. */
  ghost predicate PreSolution<T(!new), M(!new), P(!new)>(job: Job<T, M, P>, leq: (T, T) -> bool, start: World<T, M, P>,
        x: World<T, M, P>)
    requires WorldOk(job, start)
  {
    && WorldOk(job, x) && WellPlaced(job, x) && SameMetadata(start, x)
    && (forall f: nat {:trigger job.refine(f, x)} ::
          Active(job, f) && f < |job.slots| && job.slots[f] < job.slotCount ==>
          CellLeq(leq, OutcomeCell(job, x, f), CellOf(x, job.slots[f])))
    && (forall s {:trigger CellOf(x, s)} :: 0 <= s < job.slotCount && !ActiveSlot(job, s) ==>
         CellOf(x, s) == Val(start.rets[s]))
  }

  /** `w` is below every solution, as long as refinement is all that has been stored. */
  ghost predicate BelowSolutions<T(!new), M(!new), P(!new)>(job: Job<T, M, P>, leq: (T, T) -> bool,
        start: World<T, M, P>, w: World<T, M, P>)
    requires WorldOk(job, start)
  {
    && WorldOk(job, w) && WellPlaced(job, w) && SameMetadata(start, w)
    && forall x {:trigger PreSolution(job, leq, start, x)} :: PreSolution(job, leq, start, x) ==> WorldLeq(leq, w, x)
  }

  lemma RefinedBelow<T(!new), M(!new), P(!new)>(job: Job<T, M, P>, leq: (T, T) -> bool, start: World<T, M, P>,
        w: World<T, M, P>, f: nat)
    requires JobOk(job) && WorldOk(job, start) && Monotone(job, leq) && Unattached(job) && Active(job, f)
    requires BelowSolutions(job, leq, start, w)
    ensures BelowSolutions(job, leq, start, Refined(job, w, f))
  {
    var w' := Refined(job, w, f);
    forall x | PreSolution(job, leq, start, x) ensures WorldLeq(leq, w', x) {
      RefinedBelowOne(job, leq, start, w, f, x);
    }
  }

  lemma RefinedBelowOne<T(!new), M(!new), P(!new)>(job: Job<T, M, P>, leq: (T, T) -> bool, start: World<T, M, P>,
        w: World<T, M, P>, f: nat, x: World<T, M, P>)
    requires JobOk(job) && WorldOk(job, start) && Monotone(job, leq) && Unattached(job) && Active(job, f)
    requires WorldOk(job, w) && WellPlaced(job, w) && SameMetadata(start, w) && PreSolution(job, leq, start, x)
    requires WorldLeq(leq, w, x)
    ensures WorldLeq(leq, Refined(job, w, f), x)
  {
    assert Comparable(job, leq, w, x);
    assert CellLeq(leq, OutcomeCell(job, w, f), OutcomeCell(job, x, f));
    var s := job.slots[f];
    assert CellLeq(leq, OutcomeCell(job, x, f), CellOf(x, s));
    assert CellLeq(leq, OutcomeCell(job, w, f), CellOf(x, s));
    forall t | 0 <= t < |w.rets| ensures CellLeq(leq, CellOf(Refined(job, w, f), t), CellOf(x, t)) {
      assert CellLeq(leq, CellOf(w, t), CellOf(x, t));
    }
  }

  // ---------------------------------------------------------------------------------------------
  // The scheduler
  // ---------------------------------------------------------------------------------------------

  /** The strongly connected components of the read graph, each after the components it depends on. */
  ghost predicate ReadComponents<T(!new), M(!new), P(!new)>(job: Job<T, M, P>, callers: seq<set<nat>>,
        components: seq<seq<nat>>)
    requires JobOk(job) && |callers| == job.slotCount
  {
    exists g {:trigger ReadGraph(job, callers, g)} ::
      && ReadGraph(job, callers, g)
      && Tarjan.Partition(components, |g|) && Tarjan.StronglyConnected(g, components)
      && Tarjan.AfterDependencies(g, components)
  }

  predicate IsLeast(s: set<nat>, m: nat) {
    m in s && forall x {:trigger x in s} :: x in s ==> m <= x
  }

  function Least(s: set<nat>): (m: nat)
    requires s != {}
    ensures IsLeast(s, m)
  {
    LeastExists(s);
    var m :| IsLeast(s, m);
    m
  }

  lemma {:induction false} LeastExists(s: set<nat>)
    requires s != {}
    ensures exists m :: IsLeast(s, m)
  {
    var x :| x in s;
    if s == {x} {
      assert IsLeast(s, x);
    } else {
      LeastExists(s - {x});
      var y :| IsLeast(s - {x}, y);
      var m := if x <= y then x else y;
      forall z | z in s ensures m <= z {
        if z != x { assert z in s - {x}; }
      }
      assert IsLeast(s, m);
    }
  }

  class Checker<T(==,!new), M(==,!new), P(==,!new)> {
    var returnSlots: seq<T>
    var uncomputedReturns: set<nat>
    var metas: seq<M>
    var loaded: set<P>
    var bareLoaded: set<P>
    /** How often each function was refined. */
    ghost var refinementCounts: seq<nat>

    constructor (rets: seq<T>, ms: seq<M>, l: set<P>, b: set<P>)
      ensures State() == World(rets, {}, ms, l, b)
    {
      returnSlots, uncomputedReturns, metas, loaded, bareLoaded := rets, {}, ms, l, b;
      refinementCounts := [];
    }

    function State(): World<T, M, P>
      reads this
    {
      World(returnSlots, uncomputedReturns, metas, loaded, bareLoaded)
    }

    /** Store a computed return. Leaving bottom counts as a change even when the placeholder equals the result. */
    method StoreReturn(slot: nat, result: T) returns (changed: bool)
      requires slot < |returnSlots|
      modifies this`returnSlots, this`uncomputedReturns
      ensures State() == Stored(old(State()), slot, result)
      ensures changed == Changes(old(State()), slot, result)
    {
      var wasBottom := slot in uncomputedReturns;
      uncomputedReturns := uncomputedReturns - {slot};
      if returnSlots[slot] == result {
        assert returnSlots == returnSlots[slot := result];
        return wasBottom;
      }
      returnSlots := returnSlots[slot := result];
      return true;
    }

    /** Queue or postpone everyone who read a changed slot. */
    method Notify(q: Lists, changed: seq<nat>, componentOf: seq<nat>, id: nat, widen: bool) returns (r: Lists)
      requires InTable(changed, |q.callers|)
      requires forall s, c {:trigger c in q.callers[s]} :: 0 <= s < |q.callers| && c in q.callers[s] ==>
        c < |componentOf|
      ensures r == WokenAll(q, changed, componentOf, id, widen)
    {
      r := q;
      for k := 0 to |changed|
        invariant r == WokenAll(q, changed[..k], componentOf, id, widen)
      {
        assert changed[..k + 1][..k] == changed[..k];
        r := Woken(r, changed[k], componentOf, id, widen);
      }
      assert changed[..|changed|] == changed;
    }

    /** Refine the queued function `f` once and wake the readers of its slot if it changed. */
    method RefineNext(job: Job<T, M, P>, f: nat, q: Lists, componentOf: seq<nat>, id: nat) returns (r: Lists)
      requires JobOk(job) && WorldOk(job, State()) && ListsOk(job, q) && Placed(job, componentOf)
      requires Active(job, f) && WalkOk(job, f, State()) && f < |refinementCounts|
      modifies this`returnSlots, this`uncomputedReturns, this`loaded, this`bareLoaded, this`refinementCounts
      ensures State() == Refined(job, old(State()), f)
      ensures r == RefinedLists(job, old(State()), q, f, componentOf, id)
      ensures refinementCounts == old(refinementCounts)[f := old(refinementCounts[f]) + 1]
    {
      ghost var w := State();
      var refinement := job.refine(f, State());
      refinementCounts := refinementCounts[f := refinementCounts[f] + 1];
      var readBottom := exists s :: s in refinement.seen && s in uncomputedReturns;
      loaded, bareLoaded := refinement.loaded, refinement.bare;
      r := q.(queue := q.queue - {f}, callers := Recorded(q.callers, refinement.seen, f));
      var result := if refinement.result.Some? then refinement.result else if readBottom then None
                    else Some(job.unknown);
      assert result == Outcome(refinement, w.bottom, job.unknown);
      if result.Some? {
        var changed := StoreReturn(job.slots[f], result.value);
        if changed {
          r := Woken(r, job.slots[f], componentOf, id, false);
        }
      }
    }
  
    /** Give every member of the component the unknown return; report the slots that changed. */
    method FillComponent(job: Job<T, M, P>, component: seq<nat>) returns (changed: seq<nat>)
      requires WorldOk(job, State()) && forall k :: 0 <= k < |component| ==>
        component[k] < |job.slots| && job.slots[component[k]] < job.slotCount
      requires forall i, j :: 0 <= i < j < |component| ==> job.slots[component[i]] != job.slots[component[j]]
      modifies this`returnSlots, this`uncomputedReturns
      ensures State() == Filled(old(State()), MemberSlots(job, component), job.unknown)
      ensures InTable(changed, job.slotCount) && forall k :: 0 <= k < |changed| ==>
        changed[k] in MemberSlots(job, component)
      ensures forall s :: s in MemberSlots(job, component) && Changes(old(State()), s, job.unknown) ==> s in changed
    {
      changed := [];
      ghost var w := State();
      for k := 0 to |component|
        invariant WorldOk(job, State())
        invariant State() == Filled(w, MemberSlots(job, component[..k]), job.unknown)
        invariant InTable(changed, job.slotCount) && forall j :: 0 <= j < |changed| ==>
          changed[j] in MemberSlots(job, component[..k])
        invariant forall s :: s in MemberSlots(job, component[..k]) && Changes(w, s, job.unknown) ==> s in changed
      {
        var slot := job.slots[component[k]];
        assert component[..k + 1] == component[..k] + [component[k]];
        assert MemberSlots(job, component[..k + 1]) == MemberSlots(job, component[..k]) + {slot};
        assert slot !in MemberSlots(job, component[..k]);
        var change := StoreReturn(slot, job.unknown);
        if change { changed := changed + [slot]; }
      }
      assert component[..|component|] == component;
    }

    /** Store unknown in every slot of `stuck`. */
    method FillStuck(job: Job<T, M, P>, stuck: seq<nat>)
      requires WorldOk(job, State()) && InTable(stuck, job.slotCount)
      modifies this`returnSlots, this`uncomputedReturns
      ensures State() == Filled(old(State()), SlotSet(stuck), job.unknown)
    {
      ghost var w := State();
      for k := 0 to |stuck|
        invariant WorldOk(job, State())
        invariant State() == Filled(w, SlotSet(stuck[..k]), job.unknown)
      {
        assert stuck[..k + 1] == stuck[..k] + [stuck[k]];
        assert SlotSet(stuck[..k + 1]) == SlotSet(stuck[..k]) + {stuck[k]};
        var _ := StoreReturn(stuck[k], job.unknown);
      }
      assert stuck[..|stuck|] == stuck;
    }

    /** The budget ran out: the whole component becomes unknown. */
    method WidenComponent(job: Job<T, M, P>, component: seq<nat>, componentOf: seq<nat>, id: nat, q: Lists,
          ghost start: World<T, M, P>, ghost passStart: World<T, M, P>, ghost widened: set<nat>)
      returns (r: Lists)
      requires JobOk(job) && WorldOk(job, start) && Steady(job, start, passStart, State(), q, widened)
      requires SettleReady(job, component, componentOf, id, q)
      requires q.queue <= Members(component) && q.queue != {}
      modifies this`returnSlots, this`uncomputedReturns
      ensures WorldOk(job, State())
      ensures Steady(job, start, passStart, State(), r, widened + Members(component)) && r.queue == {}
      ensures q.pending <= r.pending && State() == Filled(old(State()), MemberSlots(job, component), job.unknown)
    {
      QueueIsActive(job, component, componentOf, id, start, passStart, State(), q, widened);
      Open(job, start, passStart, State(), q, widened);
      ghost var w, members := State(), Members(component);
      MembersAreDistinct(job, component);
      var changed := FillComponent(job, component);
      r := Notify(q.(queue := {}), changed, componentOf, id, true);
      WidenPassOk(job, start, passStart, w, q, widened, members, MemberSlots(job, component), changed, componentOf, id);
      WokenAllGrows(q.(queue := {}), changed, componentOf, id, true, members);
      WokenAllWidened(q.(queue := {}), changed, componentOf, id);
    }

    /** One queued member is refined. */
    method RefineMember(job: Job<T, M, P>, component: seq<nat>, componentOf: seq<nat>, id: nat, q: Lists,
          ghost start: World<T, M, P>, ghost passStart: World<T, M, P>, ghost widened: set<nat>)
      returns (r: Lists, f: nat)
      requires JobOk(job) && WorldOk(job, start) && Steady(job, start, passStart, State(), q, widened)
      requires SettleReady(job, component, componentOf, id, q) && |refinementCounts| == |job.slots|
      requires q.queue <= Members(component) && q.queue != {} && WorldOk(job, State()) && ListsOk(job, q)
      modifies this`returnSlots, this`uncomputedReturns, this`loaded, this`bareLoaded, this`refinementCounts
      ensures IsLeast(q.queue, f) && Active(job, f)
      ensures State() == Refined(job, old(State()), f)
      ensures WalkOk(job, f, old(State())) && r == RefinedLists(job, old(State()), q, f, componentOf, id)
      ensures Steady(job, start, passStart, State(), r, widened - {f}) && r.queue <= Members(component)
      ensures q.pending !! Members(component) ==> r.pending !! Members(component)
      ensures q.pending <= r.pending && uncomputedReturns <= old(uncomputedReturns)
      ensures |refinementCounts| == |job.slots| && Total(refinementCounts) == Total(old(refinementCounts)) + 1
      ensures refinementCounts == old(refinementCounts)[f := old(refinementCounts)[f] + 1]
    {
      Open(job, start, passStart, State(), q, widened);
      f := Least(q.queue);
      RefinedPassOk(job, start, passStart, State(), q, widened, f, componentOf, id);
      TotalOneMore(refinementCounts, f);
      r := RefineNext(job, f, q, componentOf, id);
    }

    /** Refining a queued member keeps what is known of the least solution. */
    method RefineQueued(job: Job<T, M, P>, component: seq<nat>, componentOf: seq<nat>, id: nat, q: Lists,
          ghost start: World<T, M, P>, ghost passStart: World<T, M, P>, ghost leq: (T, T) -> bool, ghost past: Trace,
          ghost passes: nat, ghost used: int)
      returns (r: Lists, ghost trace: Trace)
      requires JobOk(job) && WorldOk(job, start) && Steady(job, start, passStart, State(), q, past.widened)
      requires SettleReady(job, component, componentOf, id, q) && |refinementCounts| == |job.slots|
      requires q.queue <= Members(component) && q.queue != {} && WorldOk(job, State())
      requires LeastSoFar(job, leq, start, State(), past)
      requires Settling(job, start, past, State(), refinementCounts, passes, passStart, component, used)
      requires q.pending !! Members(component)
      modifies this`returnSlots, this`uncomputedReturns, this`loaded, this`bareLoaded, this`refinementCounts
      ensures WorldOk(job, State()) && Steady(job, start, passStart, State(), r, trace.widened)
      ensures r.queue <= Members(component)
      ensures r.pending !! Members(component)
      ensures q.pending <= r.pending && uncomputedReturns <= old(uncomputedReturns)
      ensures |refinementCounts| == |job.slots| && Total(refinementCounts) == Total(old(refinementCounts)) + 1
      ensures trace.lifted == past.lifted
      ensures LeastSoFar(job, leq, start, State(), trace)
      ensures Settling(job, start, trace, State(), refinementCounts, passes, passStart, component, used + 1)
      ensures Unattached(job) ==> loaded == old(loaded) && bareLoaded == old(bareLoaded)
      ensures RefinedLeast(job, componentOf, id, old(State()), q, old(refinementCounts), State(), r, refinementCounts)
    {
      ghost var w, counts := State(), refinementCounts;
      Basics(job, start, passStart, w, q, past.widened);
      var f;
      r, f := RefineMember(job, component, componentOf, id, q, start, passStart, past.widened);
      if !past.lifted { LeastAfterRefining(job, leq, start, w, past, f); }
      trace := AccountRefined(job, start, past, w, counts, passes, passStart, component, used, f);
    }

    /** The slots of `stuck` become unknown, and their readers are woken. */
    method LiftStuck(job: Job<T, M, P>, component: seq<nat>, stuck: seq<nat>, componentOf: seq<nat>, id: nat, q: Lists,
          ghost start: World<T, M, P>, ghost passStart: World<T, M, P>, ghost widened: set<nat>)
      returns (r: Lists)
      requires JobOk(job) && WorldOk(job, start) && Steady(job, start, passStart, State(), q, widened)
      requires SettleReady(job, component, componentOf, id, q)
      requires q.queue <= Members(component) && stuck != []
      requires forall k :: 0 <= k < |stuck| ==> stuck[k] < |job.slots| && job.slots[stuck[k]] in uncomputedReturns
      modifies this`returnSlots, this`uncomputedReturns
      ensures WorldOk(job, State())
      ensures Steady(job, start, passStart, State(), r, widened) && r.queue <= Members(component)
      ensures q.pending <= r.pending && uncomputedReturns < old(uncomputedReturns)
      ensures State() == Filled(old(State()), SlotSet(SlotsOf(job, stuck)), job.unknown)
      ensures q.pending !! Members(component) ==> r.pending !! Members(component)
    {
      Open(job, start, passStart, State(), q, widened);
      var slots := SlotsOf(job, stuck);
      LiftPassOk(job, start, passStart, State(), q, widened, slots, componentOf, id);
      WokenAllGrows(q, slots, componentOf, id, false, Members(component));
      if q.pending !! Members(component) {
        WokenAllElsewhere(q, slots, componentOf, id, false, Members(component));
      }
      assert slots[0] in uncomputedReturns && slots[0] in SlotSet(slots);
      FillStuck(job, slots);
      r := Notify(q, slots, componentOf, id, false);
    }

    /**
     * With nothing queued, members still at bottom only reach each other. The first pass revisits
     * them in the next one; afterwards no path returns a known value, and they become unknown.
     */
    method DrainStuck(job: Job<T, M, P>, component: seq<nat>, componentOf: seq<nat>, id: nat, firstPass: bool,
          q: Lists, ghost start: World<T, M, P>, ghost passStart: World<T, M, P>, ghost widened: set<nat>)
      returns (r: Lists, done: bool)
      requires JobOk(job) && WorldOk(job, start) && Steady(job, start, passStart, State(), q, widened)
      requires SettleReady(job, component, componentOf, id, q) && q.queue == {} && WorldOk(job, State())
      modifies this`returnSlots, this`uncomputedReturns
      ensures WorldOk(job, State())
      ensures Steady(job, start, passStart, State(), r, widened) && r.queue <= Members(component)
      ensures q.pending !! Members(component) && !done ==> r.pending !! Members(component)
      ensures q.pending <= r.pending
      ensures done ==> State() == old(State()) && r.queue == {}
      ensures done && !firstPass ==> forall k :: 0 <= k < |component| ==> job.slots[component[k]] !in uncomputedReturns
      ensures done && firstPass ==> forall k :: 0 <= k < |component| && job.slots[component[k]] in uncomputedReturns ==>
        component[k] in r.pending
      ensures |component| == 1 && done ==>
        r == if firstPass && job.slots[component[0]] in uncomputedReturns then q.(pending := q.pending + {component[0]})
             else q
      ensures !done ==> uncomputedReturns < old(uncomputedReturns)
      ensures !done ==>
        !firstPass && (forall k :: 0 <= k < |component| ==> component[k] < |job.slots|)
          && MemberSlots(job, component) * old(uncomputedReturns) != {}
      ensures !done ==>
        State() == Filled(old(State()), MemberSlots(job, component) * old(uncomputedReturns), job.unknown)
      ensures !done && |component| == 1 ==> !firstPass && job.slots[component[0]] in old(uncomputedReturns)
    {
      if firstPass {
        r := PostponeStuck(job, component, q, start, passStart, widened);
        done := true;
      } else {
        r, done := LiftRemaining(job, component, componentOf, id, q, start, passStart, widened);
      }
    }

    /** In the first pass, members still at bottom are pending again. */
    method PostponeStuck(job: Job<T, M, P>, component: seq<nat>, q: Lists, ghost start: World<T, M, P>,
          ghost passStart: World<T, M, P>, ghost widened: set<nat>) returns (r: Lists)
      requires JobOk(job) && WorldOk(job, start) && Steady(job, start, passStart, State(), q, widened)
      requires forall k :: 0 <= k < |component| ==> component[k] < |job.slots|
      ensures Steady(job, start, passStart, State(), r, widened) && r.queue == q.queue && q.pending <= r.pending
      ensures forall k :: 0 <= k < |component| && job.slots[component[k]] in uncomputedReturns ==>
        component[k] in r.pending
      ensures |component| == 1 ==>
        r == if job.slots[component[0]] in uncomputedReturns then q.(pending := q.pending + {component[0]}) else q
    {
      var stuck := Stuck(job, component, uncomputedReturns);
      StuckPostponed(job, component, q, uncomputedReturns);
      Postpone(job, start, passStart, State(), q, widened, stuck);
      r := q.(pending := q.pending + Members(stuck));
    }

    /** In later passes they become unknown, and their readers are woken; with none left the component is done. */
    method LiftRemaining(job: Job<T, M, P>, component: seq<nat>, componentOf: seq<nat>, id: nat, q: Lists,
          ghost start: World<T, M, P>, ghost passStart: World<T, M, P>, ghost widened: set<nat>)
      returns (r: Lists, done: bool)
      requires JobOk(job) && WorldOk(job, start) && Steady(job, start, passStart, State(), q, widened)
      requires SettleReady(job, component, componentOf, id, q) && q.queue == {} && WorldOk(job, State())
      modifies this`returnSlots, this`uncomputedReturns
      ensures WorldOk(job, State())
      ensures Steady(job, start, passStart, State(), r, widened) && r.queue <= Members(component)
      ensures q.pending !! Members(component) && !done ==> r.pending !! Members(component)
      ensures q.pending <= r.pending
      ensures done ==> State() == old(State()) && r == q
      ensures done ==> forall k :: 0 <= k < |component| ==> job.slots[component[k]] !in uncomputedReturns
      ensures !done ==>
        uncomputedReturns < old(uncomputedReturns)
          && MemberSlots(job, component) * old(uncomputedReturns) != {}
          && State() == Filled(old(State()), MemberSlots(job, component) * old(uncomputedReturns), job.unknown)
      ensures !done && |component| == 1 ==> job.slots[component[0]] in old(uncomputedReturns)
    {
      var stuck := Stuck(job, component, uncomputedReturns);
      if |component| == 1 { SingleStuck(job, component, uncomputedReturns); }
      StuckIsAll(job, component, uncomputedReturns);
      if stuck == [] {
        return q, true;
      }
      StuckSlots(job, component, uncomputedReturns);
      assert SlotsOf(job, stuck)[0] in SlotSet(SlotsOf(job, stuck));
      r := LiftStuck(job, component, stuck, componentOf, id, q, start, passStart, widened);
      done := false;
    }

    /** The budget is used up: widen the component. */
    method GiveUp(job: Job<T, M, P>, component: seq<nat>, componentOf: seq<nat>, id: nat, q: Lists,
          ghost start: World<T, M, P>, ghost passStart: World<T, M, P>, ghost past: Trace, ghost passes: nat)
      returns (r: Lists, ghost trace: Trace)
      requires JobOk(job) && WorldOk(job, start) && Steady(job, start, passStart, State(), q, past.widened)
      requires SettleReady(job, component, componentOf, id, q) && WorldOk(job, State())
      requires q.queue != {} && q.queue <= Members(component)
      requires Settling(job, start, past, State(), refinementCounts, passes, passStart, component,
                        MAX_FIXPOINT_DEPTH * |component|)
      modifies this`returnSlots, this`uncomputedReturns
      ensures WorldOk(job, State()) && Steady(job, start, passStart, State(), r, trace.widened) && r.queue == {}
      ensures q.pending <= r.pending && uncomputedReturns <= old(uncomputedReturns)
      ensures forall k :: 0 <= k < |component| ==> job.slots[component[k]] !in uncomputedReturns
      ensures trace.lifted && Balanced(job, start, trace, State(), refinementCounts, passes, passStart)
    {
      trace := AccountWidened(job, start, past, State(), refinementCounts, passes, passStart, component, q.queue);
      r := WidenComponent(job, component, componentOf, id, q, start, passStart, past.widened);
    }

    /** The queue is empty: end, or lift the members at bottom. */
    method Drain(job: Job<T, M, P>, component: seq<nat>, componentOf: seq<nat>, id: nat, firstPass: bool, q: Lists,
          ghost start: World<T, M, P>, ghost passStart: World<T, M, P>, ghost past: Trace, ghost passes: nat,
          ghost used: int)
      returns (r: Lists, done: bool, ghost trace: Trace)
      requires JobOk(job) && WorldOk(job, start) && Steady(job, start, passStart, State(), q, past.widened)
      requires SettleReady(job, component, componentOf, id, q) && q.queue == {} && WorldOk(job, State())
      requires Settling(job, start, past, State(), refinementCounts, passes, passStart, component, used)
      requires firstPass <==> passes == 0
      requires q.pending !! Members(component)
      modifies this`returnSlots, this`uncomputedReturns
      ensures WorldOk(job, State())
      ensures Steady(job, start, passStart, State(), r, trace.widened) && r.queue <= Members(component)
      ensures !done ==> r.pending !! Members(component)
      ensures q.pending <= r.pending
      ensures Settling(job, start, trace, State(), refinementCounts, passes, passStart, component, used)
      ensures done ==> State() == old(State()) && r.queue == {} && trace == past
      ensures done && !firstPass ==> forall k :: 0 <= k < |component| ==> job.slots[component[k]] !in uncomputedReturns
      ensures done && firstPass ==> forall k :: 0 <= k < |component| && job.slots[component[k]] in uncomputedReturns ==>
        component[k] in r.pending
      ensures |component| == 1 && done ==>
        r == if firstPass && job.slots[component[0]] in uncomputedReturns then q.(pending := q.pending + {component[0]})
             else q
      ensures !done ==> uncomputedReturns < old(uncomputedReturns) && trace.lifted
      ensures !done && |component| == 1 ==> !firstPass && job.slots[component[0]] in old(uncomputedReturns)
    {
      ghost var w := State();
      r, done := DrainStuck(job, component, componentOf, id, firstPass, q, start, passStart, past.widened);
      trace := past;
      if !done {
        StuckIsDeadlocked(job, component, componentOf, id, q, start, passStart, w, past, refinementCounts, passes,
                          used);
        trace := AccountLifted(job, start, past, w, refinementCounts, passes, passStart, component, used);
      }
    }

    /**
     * One turn: refine a queued member within the budget, widen the component when the budget ran out, or decide what
     * to do with members that only reach each other.
     */
    method Turn(job: Job<T, M, P>, component: seq<nat>, componentOf: seq<nat>, id: nat, firstPass: bool, q: Lists,
          budget: nat, ghost start: World<T, M, P>, ghost passStart: World<T, M, P>, ghost leq: (T, T) -> bool,
          ghost past: Trace, ghost passes: nat, ghost alone: bool, ghost refined: bool, ghost w0: World<T, M, P>,
          ghost q0: Lists, ghost counts0: seq<nat>)
      returns (r: Lists, left: nat, done: bool, ghost trace: Trace)
      requires JobOk(job) && WorldOk(job, start) && Steady(job, start, passStart, State(), q, past.widened)
      requires SettleReady(job, component, componentOf, id, q) && |refinementCounts| == |job.slots|
      requires WorldOk(job, State()) && q.queue <= Members(component) && q.pending !! Members(component)
      requires LeastSoFar(job, leq, start, State(), past) && (firstPass <==> passes == 0)
      requires Settling(job, start, past, State(), refinementCounts, passes, passStart, component,
                        MAX_FIXPOINT_DEPTH * |component| - budget)
      requires alone ==>
        AloneKept(job, component, componentOf, id, w0, q0, counts0, firstPass, refined, State(), q, refinementCounts)
      requires alone && !refined ==> budget > 0
      modifies this`returnSlots, this`uncomputedReturns, this`loaded, this`bareLoaded, this`refinementCounts
      ensures WorldOk(job, State()) && Steady(job, start, passStart, State(), r, trace.widened)
      ensures r.queue <= Members(component) && q.pending <= r.pending && uncomputedReturns <= old(uncomputedReturns)
      ensures Unattached(job) ==> loaded == old(loaded) && bareLoaded == old(bareLoaded)
      ensures |refinementCounts| == |job.slots| && left <= budget
      ensures Total(refinementCounts) + left == Total(old(refinementCounts)) + budget
      ensures LeastSoFar(job, leq, start, State(), trace)
      ensures !done ==> left < budget || uncomputedReturns < old(uncomputedReturns)
      ensures !done ==> r.pending !! Members(component)
      ensures !done ==>
        Settling(job, start, trace, State(), refinementCounts, passes, passStart, component,
                 MAX_FIXPOINT_DEPTH * |component| - left)
      ensures done ==> r.queue == {} && Balanced(job, start, trace, State(), refinementCounts, passes, passStart)
      ensures done ==> forall k :: 0 <= k < |component| && job.slots[component[k]] in uncomputedReturns ==>
        firstPass && component[k] in r.pending
      ensures alone ==> trace.lifted == past.lifted
      ensures alone && !done ==>
        AloneKept(job, component, componentOf, id, w0, q0, counts0, firstPass, true, State(), r, refinementCounts)
      ensures alone && done ==>
        AloneSettled(job, component, componentOf, id, w0, q0, counts0, firstPass, State(), r, refinementCounts)
    {
      ghost var w, counts := State(), refinementCounts;
      if alone { AloneIsOnce(job, component, componentOf, id, w0, q0, counts0, firstPass, refined, w, q, counts); }
      if budget == 0 && q.queue != {} {
        r, trace := GiveUp(job, component, componentOf, id, q, start, passStart, past, passes);
        left, done := budget, true;
      } else if q.queue != {} {
        r, trace := RefineQueued(job, component, componentOf, id, q, start, passStart, leq, past, passes,
                                 MAX_FIXPOINT_DEPTH * |component| - budget);
        left, done := budget - 1, false;
        if alone {
          AloneRefines(job, component, componentOf, id, w0, q0, counts0, firstPass, refined, w, q, counts, State(), r,
                       refinementCounts);
        }
      } else {
        if alone { AloneDrains(job, component, componentOf, id, w0, q0, counts0, firstPass, refined, w, q, counts); }
        r, done, trace := Drain(job, component, componentOf, id, firstPass, q, start, passStart, past, passes,
                                MAX_FIXPOINT_DEPTH * |component| - budget);
        left := budget;
      }
    }

    /** Run one component until its queue is empty. */
    method SettleComponent(job: Job<T, M, P>, component: seq<nat>, componentOf: seq<nat>, id: nat, firstPass: bool,
          lists: Lists, ghost start: World<T, M, P>, ghost passStart: World<T, M, P>, ghost leq: (T, T) -> bool,
          ghost past: Trace, ghost passes: nat)
      returns (q: Lists, ghost trace: Trace)
      requires JobOk(job) && WorldOk(job, start) && Steady(job, start, passStart, State(), lists, past.widened)
      requires lists.queue == {}
      requires SettleReady(job, component, componentOf, id, lists) && |refinementCounts| == |job.slots|
      requires WorldOk(job, State()) && ListsOk(job, lists)
      requires (firstPass ==> |component| == 1) && (firstPass <==> passes == 0)
      requires LeastSoFar(job, leq, start, State(), past)
      requires Balanced(job, start, past, State(), refinementCounts, passes, passStart)
      modifies this`returnSlots, this`uncomputedReturns, this`loaded, this`bareLoaded, this`refinementCounts
      ensures Steady(job, start, passStart, State(), q, trace.widened) && q.queue == {} && WorldOk(job, State())
      ensures Unattached(job) ==> loaded == old(loaded) && bareLoaded == old(bareLoaded)
      ensures lists.pending - Members(component) <= q.pending && uncomputedReturns <= old(uncomputedReturns)
      ensures forall k :: 0 <= k < |component| && job.slots[component[k]] in uncomputedReturns ==>
        firstPass && component[k] in q.pending
      ensures |refinementCounts| == |job.slots|
      ensures Total(refinementCounts) <= Total(old(refinementCounts)) + MAX_FIXPOINT_DEPTH * |component|
      ensures LeastSoFar(job, leq, start, State(), trace)
      ensures Balanced(job, start, trace, State(), refinementCounts, passes, passStart)
      ensures AloneEnds(job, component, old(State()), lists, firstPass) ==> trace.lifted == past.lifted
      ensures AloneEnds(job, component, old(State()), lists, firstPass) ==>
                AloneDone(job, component, componentOf, id, old(State()), lists, old(refinementCounts), firstPass,
                          State(), q, refinementCounts)
    {
      var members := Members(component);
      q := Lists(lists.pending - members, lists.pending * members, lists.callers);
      trace := Begin(job, component, componentOf, id, lists, start, passStart, State(), leq, past, refinementCounts,
                     passes);
      var budget := MAX_FIXPOINT_DEPTH * |component|;
      ghost var w0, counts0, refined, all := State(), refinementCounts, false, Total(refinementCounts) + budget;
      ghost var alone := AloneEnds(job, component, w0, lists, firstPass);
      if alone { AloneStarts(job, component, componentOf, id, w0, lists, refinementCounts, firstPass); }
      var done := false;
      while !done
        invariant Steady(job, start, passStart, State(), q, trace.widened) && q.queue <= members
        invariant lists.pending - members <= q.pending && uncomputedReturns <= old(uncomputedReturns)
        invariant |refinementCounts| == |job.slots| && budget >= 0 && WorldOk(job, State())
        invariant Total(refinementCounts) + budget == all
        invariant LeastSoFar(job, leq, start, State(), trace)
        invariant Unattached(job) ==> loaded == old(loaded) && bareLoaded == old(bareLoaded)
        invariant alone ==> trace.lifted == past.lifted
        invariant !done ==> q.pending !! members
        invariant !done ==>
          Settling(job, start, trace, State(), refinementCounts, passes, passStart, component,
                   MAX_FIXPOINT_DEPTH * |component| - budget)
        invariant done ==> q.queue == {} && Balanced(job, start, trace, State(), refinementCounts, passes, passStart)
        invariant done ==> forall k :: 0 <= k < |component| && job.slots[component[k]] in uncomputedReturns ==>
          firstPass && component[k] in q.pending
        invariant alone && !done ==>
          AloneKept(job, component, componentOf, id, w0, lists, counts0, firstPass, refined, State(), q,
                    refinementCounts)
        invariant alone && !done && !refined ==> budget > 0
        invariant alone && done ==>
          AloneSettled(job, component, componentOf, id, w0, lists, counts0, firstPass, State(), q, refinementCounts)
        decreases !done, budget, uncomputedReturns
      {
        q, budget, done, trace := Turn(job, component, componentOf, id, firstPass, q, budget, start, passStart, leq,
                                       trace, passes, alone, refined, w0, lists, counts0);
        refined := true;
      }
      if alone { assert Seal(0); }
    }

    /** Which functions own each slot. */
    method Owners(job: Job<T, M, P>) returns (owners: seq<seq<nat>>)
      requires JobOk(job)
      ensures OwnersOk(job, owners)
    {
      owners := seq(job.slotCount, _ => []);
      for i := 0 to |job.slots|
        invariant |owners| == job.slotCount
        invariant forall s, v: nat {:trigger v in owners[s]} :: 0 <= s < |owners| ==>
          (v in owners[s] <==> v < i && job.slots[v] == s)
      {
        var s := job.slots[i];
        owners := owners[s := owners[s] + [i]];
      }
    }

    /** The read graph over functions: each reader depends on the owners of the slots it read. */
    method Dependencies(job: Job<T, M, P>, owners: seq<seq<nat>>, callers: seq<set<nat>>) returns (g: Graph)
      requires JobOk(job) && OwnersOk(job, owners) && |callers| == job.slotCount
      requires forall s, c {:trigger c in callers[s]} :: 0 <= s < |callers| && c in callers[s] ==> c < |job.slots|
      ensures ReadGraph(job, callers, g)
    {
      g := seq(|job.slots|, _ => []);
      for s := 0 to |callers|
        invariant |g| == |job.slots|
        invariant forall r, v: nat {:trigger v in g[r]} :: 0 <= r < |g| ==>
                    (v in g[r] <==> v < |job.slots| && job.slots[v] < s && r in callers[job.slots[v]])
      {
        var rest := callers[s];
        while rest != {}
          invariant rest <= callers[s] && |g| == |job.slots|
          invariant forall r, v: nat {:trigger v in g[r]} :: 0 <= r < |g| ==>
                      (v in g[r] <==>
                         && v < |job.slots| && r in callers[job.slots[v]]
                         && (job.slots[v] < s || (job.slots[v] == s && r !in rest)))
          decreases rest
        {
          var reader :| reader in rest;
          rest := rest - {reader};
          g := g[reader := g[reader] + owners[s]];
        }
      }
    }

    /** The number of the component each function is in, or `UNVISITED`. */
    method Number(job: Job<T, M, P>, components: seq<seq<nat>>) returns (componentOf: seq<nat>)
      requires |job.slots| < Tarjan.UNVISITED && Disjoint(components, |job.slots|)
      ensures Placed(job, componentOf)
      ensures forall k :: 0 <= k < |components| ==> IsComponent(job, Members(components[k]), componentOf, k)
    {
      DisjointSize(components, |components|, |job.slots|);
      componentOf := seq(|job.slots|, _ => Tarjan.UNVISITED);
      for id := 0 to |components|
        invariant |componentOf| == |job.slots|
        invariant forall v, k :: 0 <= v < |job.slots| && 0 <= k < |components| ==>
                    (componentOf[v] == k <==> k < id && v in components[k])
      {
        var component := components[id];
        for j := 0 to |component|
          invariant |componentOf| == |job.slots|
          invariant forall v, k :: 0 <= v < |job.slots| && 0 <= k < |components| ==>
                      (componentOf[v] == k <==> if k == id then v in component[..j] else k < id && v in components[k])
        {
          assert component[..j + 1] == component[..j] + [component[j]];
          assert component[j] in components[id];
          componentOf := componentOf[component[j] := id];
        }
        assert component[..|component|] == component;
      }
    }

    /** Settle the components in order. */
    method SettleAll(job: Job<T, M, P>, components: seq<seq<nat>>, firstPass: bool, lists: Lists,
          ghost start: World<T, M, P>, ghost leq: (T, T) -> bool, ghost flat: Flat, ghost past: Trace,
          ghost passes: nat)
      returns (q: Lists, ghost trace: Trace)
      requires JobOk(job) && WorldOk(job, start) && Steady(job, start, State(), State(), lists, past.widened)
      requires lists.queue == {}
      requires WorldOk(job, State()) && PassReady(job, components, firstPass) && |refinementCounts| == |job.slots|
      requires LeastSoFar(job, leq, start, State(), past) && (firstPass <==> passes == 0)
      requires Balanced(job, start, past, State(), refinementCounts, passes, State())
      modifies this`returnSlots, this`uncomputedReturns, this`loaded, this`bareLoaded, this`refinementCounts
      ensures Steady(job, start, old(State()), State(), q, trace.widened) && q.queue == {} && WorldOk(job, State())
      ensures Unattached(job) ==> loaded == old(loaded) && bareLoaded == old(bareLoaded)
      ensures uncomputedReturns <= old(uncomputedReturns)
      ensures BottomPostponed(job, components, |components|, uncomputedReturns, firstPass, q.pending)
      ensures |refinementCounts| == |job.slots|
      ensures Total(refinementCounts) <= Total(old(refinementCounts)) + MAX_FIXPOINT_DEPTH * |job.slots|
      ensures LeastSoFar(job, leq, start, State(), trace)
      ensures Balanced(job, start, trace, State(), refinementCounts, passes, old(State()))
      ensures FirstFlatReady(job, flat, components, firstPass, lists) ==> trace.lifted == past.lifted
      ensures FirstFlatReady(job, flat, components, firstPass, lists) ==>
                FirstFlat(job, flat, components, |components|, q, old(refinementCounts), refinementCounts)
      ensures SecondFlatReady(job, flat, components, firstPass, lists, old(uncomputedReturns)) ==>
        trace.lifted == past.lifted
      ensures SecondFlatReady(job, flat, components, firstPass, lists, old(uncomputedReturns)) ==>
                SecondFlat(job, flat, components, |components|, q, uncomputedReturns, old(refinementCounts),
                           refinementCounts)
    {
      var componentOf := Number(job, components);
      q, trace := lists, past;
      ghost var before := State();
      ghost var first := FirstFlatReady(job, flat, components, firstPass, lists);
      ghost var second := SecondFlatReady(job, flat, components, firstPass, lists, uncomputedReturns);
      for id := 0 to |components|
        invariant Steady(job, start, before, State(), q, trace.widened) && q.queue == {} && WorldOk(job, State())
        invariant Unattached(job) ==> loaded == old(loaded) && bareLoaded == old(bareLoaded)
        invariant uncomputedReturns <= old(uncomputedReturns)
        invariant BottomPostponed(job, components, id, uncomputedReturns, firstPass, q.pending)
        invariant StillPending(components, id, lists.pending, q.pending)
        invariant |refinementCounts| == |job.slots|
        invariant Total(refinementCounts) <= Total(old(refinementCounts)) + MAX_FIXPOINT_DEPTH * Sizes(components[..id])
        invariant LeastSoFar(job, leq, start, State(), trace)
        invariant Balanced(job, start, trace, State(), refinementCounts, passes, before)
        invariant first || second ==> trace.lifted == past.lifted
        invariant first ==> FirstFlat(job, flat, components, id, q, old(refinementCounts), refinementCounts)
        invariant second ==>
          SecondFlat(job, flat, components, id, q, uncomputedReturns, old(refinementCounts), refinementCounts)
      {
        ghost var w, q0, counts := State(), q, refinementCounts;
        Basics(job, start, before, w, q, trace.widened);
        if first { FirstFlatAlone(job, flat, components, id, w, q0, old(refinementCounts), counts, lists); }
        if second {
          SecondFlatAlone(job, flat, components, id, start, before, w, q0, trace.widened, old(refinementCounts),
                          counts);
        }
        q, trace := SettleComponent(job, components[id], componentOf, id, firstPass, q, start, before, leq, trace,
                                    passes);
        assert components[..id + 1][..id] == components[..id];
        NextPostponed(job, components, id, w.bottom, uncomputedReturns, firstPass, lists.pending, q0.pending,
                      q.pending);
        if first {
          FirstFlatStep(job, flat, components, componentOf, id, w, q0, old(refinementCounts), counts, State(), q,
                        refinementCounts);
        }
        if second {
          SecondFlatStep(job, flat, components, componentOf, id, w, q0, old(refinementCounts), counts, State(), q,
                         refinementCounts);
        }
      }
      assert components[..|components|] == components;
      DisjointSize(components, |components|, |job.slots|);
    }

    /** The components of a pass: single functions in name order at first, then those of the read graph. */
    method Components(job: Job<T, M, P>, firstPass: bool, q: Lists, owners: seq<seq<nat>>,
          ghost flat: Flat) returns (components: seq<seq<nat>>)
      requires JobOk(job) && ListsOk(job, q) && OwnersOk(job, owners)
      ensures PassReady(job, components, firstPass)
      ensures if firstPass then components == Singles(q.pending, |job.slots|)
              else ReadComponents(job, q.callers, components)
      ensures firstPass ==>
        forall v: nat {:trigger Tarjan.Listed(components, v)} :: Tarjan.Listed(components, v) <==> v in q.pending
      ensures !firstPass ==> forall v: nat {:trigger Tarjan.Listed(components, v)} :: v < |job.slots| ==>
        Tarjan.Listed(components, v)
      ensures !firstPass && IsFlat(job, flat) && FlatCallers(job, flat, q.callers) ==> FlatOrder(job, flat, components)
    {
      if firstPass {
        components := [];
        for i := 0 to |job.slots|
          invariant components == Singles(q.pending, i)
        {
          if i in q.pending {
            components := components + [[i]];
          }
        }
        SinglesReady(job, q.pending);
      } else {
        var g := Dependencies(job, owners, q.callers);
        ReadGraphInRange(job, q.callers, g);
        components := Tarjan.ComponentsAfterDependencies(g);
        assert ReadComponents(job, q.callers, components);
        GraphComponentsReady(job, q, g, components);
        if IsFlat(job, flat) && FlatCallers(job, flat, q.callers) {
          GraphComponentsFlat(job, q, g, components, flat);
        }
      }
    }

    /**
     * After a pass: pass on evaluation metadata while it still changes or packages were attached,
     * and make everyone pending that the change can affect.
     */
    method PassOnMetadata(job: Job<T, M, P>, q: Lists, owners: seq<seq<nat>>, attachmentsChanged: bool,
          evaluationPending: bool, ghost start: World<T, M, P>, ghost passStart: World<T, M, P>,
          ghost widened: set<nat>)
      returns (r: Lists, stillPending: bool)
      requires JobOk(job) && WorldOk(job, start) && Steady(job, start, passStart, State(), q, widened) && q.queue == {}
      requires WorldOk(job, State())
      requires OwnersOk(job, owners)
      requires attachmentsChanged <==> loaded != passStart.loaded || bareLoaded != passStart.bare
      requires !evaluationPending && !attachmentsChanged ==> Evaluated(job, State())
      modifies this`metas
      ensures |metas| == |old(metas)| && Steady(job, start, State(), State(), r, widened) && r.queue == {}
      ensures State() == PassedOn(job, old(State()))
      ensures !stillPending ==> Evaluated(job, State())
      ensures q.pending <= r.pending && r.callers == q.callers
      ensures Evaluated(job, old(State())) && !attachmentsChanged ==> State() == old(State()) && r == q && !stillPending
    {
      ghost var w := State();
      Basics(job, start, passStart, w, q, widened);
      r, stillPending := q, false;
      if evaluationPending || attachmentsChanged {
        var afterGenerics := job.generics(metas);
        var afterForwarding := job.forwarded(afterGenerics, loaded, bareLoaded);
        var changed := set s | 0 <= s < |metas|
          && (afterGenerics[s] != metas[s] || afterForwarding[s] != afterGenerics[s]);
        metas := afterForwarding;
        stillPending := changed != {};
        var affected := set i | 0 <= i < |job.slots| && job.active[i] && job.slots[i] in changed;
        var readers := set s, c | s in changed && c in q.callers[s] :: c;
        r := r.(pending := r.pending + affected + readers);
        if changed == {} { NothingChanged(w.metas, afterGenerics, afterForwarding, changed); }
      }
      if attachmentsChanged {
        r := r.(pending := r.pending + set i | 0 <= i < |job.slots| && job.active[i]);
      }
      EndPass(job, start, passStart, w, q, widened, State(), r);
    }

    /** One pass: settle the components, then pass on metadata. */
    method RunPass(job: Job<T, M, P>, owners: seq<seq<nat>>, firstPass: bool, lists: Lists, evaluationPending: bool,
          ghost start: World<T, M, P>, ghost leq: (T, T) -> bool, ghost flat: Flat, ghost past: Trace,
          ghost passes: nat)
      returns (q: Lists, stillPending: bool, ghost trace: Trace)
      requires JobOk(job) && WorldOk(job, start) && WorldOk(job, State()) && OwnersOk(job, owners)
      requires BetweenPasses(job, leq, start, State(), lists, evaluationPending, past)
      requires |refinementCounts| == |job.slots| && (firstPass <==> passes == 0)
      requires Balanced(job, start, past, State(), refinementCounts, passes, State())
      modifies this
      ensures WorldOk(job, State()) && BetweenPasses(job, leq, start, State(), q, stillPending, trace)
      ensures !firstPass ==> uncomputedReturns == {}
      ensures |refinementCounts| == |job.slots|
      ensures Balanced(job, start, trace, State(), refinementCounts, passes + 1, State())
      ensures Total(refinementCounts) <= Total(old(refinementCounts)) + MAX_FIXPOINT_DEPTH * |job.slots|
      ensures firstPass && FlatStart(job, flat, start, old(State()), lists) ==>
                FlatMiddle(job, flat, start, State(), q, stillPending) && trace.lifted == past.lifted &&
                OncePerPass(old(refinementCounts), refinementCounts)
      ensures !firstPass && FlatMiddle(job, flat, start, old(State()), lists, evaluationPending) ==>
                q.pending == {} && !stillPending && trace.lifted == past.lifted
                  && OncePerPass(old(refinementCounts), refinementCounts)
    {
      ghost var w0, counts0 := State(), refinementCounts;
      Basics(job, start, w0, w0, lists, past.widened);
      var attachedBefore := (|loaded|, |bareLoaded|);
      var components := Components(job, firstPass, lists, owners, flat);
      var settled;
      settled, trace := SettleAll(job, components, firstPass, lists, start, leq, flat, past, passes);
      ghost var w1 := State();
      trace := AccountPassed(job, start, trace, w1, refinementCounts, passes, w0);
      Account(job, start, trace, PassedOn(job, w1), refinementCounts, passes + 1, PassedOn(job, w1));
      WideningForces(trace.log);
      Basics(job, start, w0, w1, settled, trace.widened);
      Open(job, start, w0, w1, settled, trace.widened);
      SameSize(w0.loaded, w1.loaded);
      SameSize(w0.bare, w1.bare);
      var attachmentsChanged := attachedBefore != (|loaded|, |bareLoaded|);
      q, stillPending := PassOnMetadata(job, settled, owners, attachmentsChanged, evaluationPending, start, w0,
                                        trace.widened);
      PassBottom(job, start, lists, components, firstPass, w0, w1, settled, q, trace.widened);
      PassLeast(job, leq, start, w0, w1, State(), trace);
      if firstPass && FlatStart(job, flat, start, w0, lists) {
        FlatFirstPass(job, flat, components, start, w0, lists, w1, settled, counts0, refinementCounts);
      }
      if !firstPass && FlatMiddle(job, flat, start, w0, lists, evaluationPending) {
        FlatSecondPass(job, flat, components, start, w0, lists, w1, settled, counts0, refinementCounts);
      }
    }

    /** Passes until nothing is pending, at most `MAX_FIXPOINT_DEPTH` of them. */
    method RunPasses(job: Job<T, M, P>, owners: seq<seq<nat>>, lists: Lists, ghost start: World<T, M, P>,
          ghost leq: (T, T) -> bool, ghost flat: Flat)
      returns (q: Lists, evaluationPending: bool, passes: nat, ghost trace: Trace)
      requires JobOk(job) && WorldOk(job, start) && State() == start && OwnersOk(job, owners)
      requires BetweenPasses(job, leq, start, start, lists, true, NO_STEPS)
      requires IsFlat(job, flat) && Evaluated(job, start) ==> FlatStart(job, flat, start, start, lists)
      requires refinementCounts == seq(|job.slots|, _ => 0)
      modifies this
      ensures WorldOk(job, State()) && BetweenPasses(job, leq, start, State(), q, evaluationPending, trace)
      ensures passes <= MAX_FIXPOINT_DEPTH && |refinementCounts| == |job.slots|
      ensures Balanced(job, start, trace, State(), refinementCounts, passes, State())
      ensures Total(refinementCounts) <= MAX_FIXPOINT_DEPTH * MAX_FIXPOINT_DEPTH * |job.slots|
      ensures uncomputedReturns == {} || q.pending == {}
      ensures IsFlat(job, flat) && Evaluated(job, start) ==>
        EndsFlat(q.pending == {} && !evaluationPending, passes, trace, refinementCounts)
    {
      q, trace := lists, NO_STEPS;
      evaluationPending := true;
      passes := 0;
      TotalZero(refinementCounts);
      AccountStart(job, start, refinementCounts);
      while passes < MAX_FIXPOINT_DEPTH && (q.pending != {} || evaluationPending)
        invariant WorldOk(job, State()) && BetweenPasses(job, leq, start, State(), q, evaluationPending, trace)
        invariant passes <= MAX_FIXPOINT_DEPTH && |refinementCounts| == |job.slots|
        invariant Balanced(job, start, trace, State(), refinementCounts, passes, State())
        invariant Total(refinementCounts) <= passes * (MAX_FIXPOINT_DEPTH * |job.slots|)
        invariant passes >= 2 ==> uncomputedReturns == {}
        invariant IsFlat(job, flat) && Evaluated(job, start) ==>
                    !trace.lifted && FlatSoFar(job, flat, start, State(), q, evaluationPending, passes,
                                               refinementCounts)
        decreases MAX_FIXPOINT_DEPTH - passes
      {
        ghost var counts := refinementCounts;
        passes := passes + 1;
        q, evaluationPending, trace := RunPass(job, owners, passes == 1, q, evaluationPending, start, leq, flat, trace,
                                               passes - 1);
        assert passes * (MAX_FIXPOINT_DEPTH * |job.slots|) ==
          (passes - 1) * (MAX_FIXPOINT_DEPTH * |job.slots|) + MAX_FIXPOINT_DEPTH * |job.slots|;
      }
      PassesTimes(passes, |job.slots|);
    }

    /**
     * Refine the functions in scope until nothing is pending, in at most `MAX_FIXPOINT_DEPTH`
     * passes. Returns in scope start at bottom; the others keep their seeded return.
     */
    method RunFixpoint(job: Job<T, M, P>, ghost leq: (T, T) -> bool, ghost flat: Flat)
      returns (converged: bool, passes: nat, dependencies: seq<set<nat>>, ghost trace: Trace)
      requires JobOk(job) && WorldOk(job, State())
      modifies this
      ensures WorldOk(job, State()) && uncomputedReturns == {}
      ensures forall s :: 0 <= s < job.slotCount && !ActiveSlot(job, s) ==> returnSlots[s] == old(returnSlots[s])
      ensures converged ==> Evaluated(job, State())
      ensures converged ==> forall f {:trigger Stable(job, State(), f)} :: Active(job, f) && f !in trace.widened ==>
        Stable(job, State(), f)
      ensures converged ==> DependenciesOk(job, State(), trace, dependencies)
      ensures Accounted(job, Started(job, old(State())), trace, State(), refinementCounts)
      ensures Passes(trace.log) == passes
      ensures converged && !trace.lifted && Monotone(job, leq) && Quiet(job, Started(job, old(State()))) ==>
                LeastSolution(job, leq, Started(job, old(State())), State())
      ensures passes <= MAX_FIXPOINT_DEPTH
      ensures Total(refinementCounts) <= MAX_FIXPOINT_DEPTH * MAX_FIXPOINT_DEPTH * |job.slots|
      ensures IsFlat(job, flat) && Evaluated(job, old(State())) ==> EndsFlat(converged, passes, trace, refinementCounts)
    {
      ghost var start := Started(job, State());
      var owners := Owners(job);
      var active := set i | 0 <= i < |job.slots| && job.active[i];
      uncomputedReturns := set i | 0 <= i < |job.slots| && job.active[i] :: job.slots[i];
      refinementCounts := seq(|job.slots|, _ => 0);
      var q := Lists(active, {}, seq(job.slotCount, _ => {}));
      StartOk(job, leq, start, q);
      var evaluationPending;
      q, evaluationPending, passes, trace := RunPasses(job, owners, q, start, leq, flat);
      converged := q.pending == {} && !evaluationPending;
      Finish(job, leq, start, State(), q, evaluationPending, trace);
      Account(job, start, trace, State(), refinementCounts, passes, State());
      uncomputedReturns := {};
      dependencies := seq(|job.slots|, f => set v | 0 <= v < |job.slots| && f in ReadersOf(job, q, v));
    }

    /** Refine the functions named by the scope, or all of them. An empty scope is no run at all. */
    method RunFixpointScoped(job: Job<T, M, P>, names: seq<string>, scope: Option<set<string>>,
          ghost leq: (T, T) -> bool, ghost flat: Flat)
      returns (converged: bool, passes: nat, dependencies: seq<set<nat>>, ghost trace: Trace)
      requires JobOk(job) && WorldOk(job, State()) && |names| == |job.slots|
      modifies this
      ensures WorldOk(job, State())
      ensures scope == Some({}) ==> State() == old(State()) && passes == 0
      ensures forall s :: 0 <= s < job.slotCount && !ActiveSlot(Scoped(job, names, scope), s) ==>
        returnSlots[s] == old(returnSlots[s])
      ensures forall i :: 0 <= i < |names| && scope.Some? && names[i] !in scope.value ==>
        returnSlots[job.slots[i]] == old(returnSlots[job.slots[i]])
      ensures scope != Some({}) ==>
        var scoped := Scoped(job, names, scope);
        uncomputedReturns == {} && Passes(trace.log) == passes
          && Accounted(scoped, Started(scoped, old(State())), trace, State(), refinementCounts)
      ensures converged && scope != Some({}) ==>
        forall i: nat :: i < |names| && InScope(names, scope, i) && i !in trace.widened ==>
        Stable(job, State(), i)
      ensures converged && scope != Some({}) ==> DependenciesOk(Scoped(job, names, scope), State(), trace, dependencies)
      ensures
        var scoped := Scoped(job, names, scope);
        converged && scope != Some({}) && !trace.lifted && Monotone(scoped, leq)
          && Quiet(scoped, Started(scoped, old(State()))) ==>
          LeastSolution(scoped, leq, Started(scoped, old(State())), State())
    {
      if scope == Some({}) {
        return true, 0, [], NO_STEPS;
      }
      var scoped := job.(active := seq(|names|, i requires 0 <= i < |names| => InScope(names, scope, i)));
      ScopedOk(job, scoped.active);
      assert scoped == Scoped(job, names, scope);
      converged, passes, dependencies, trace := RunFixpoint(scoped, leq, flat);
      forall i: nat | i < |names| && scope.Some? && names[i] !in scope.value
        ensures returnSlots[job.slots[i]] == old(returnSlots[job.slots[i]])
      {
        forall f: nat | Active(scoped, f) && f < |scoped.slots| ensures scoped.slots[f] != scoped.slots[i] {
          OtherSlot(scoped.slots, f, i);
        }
      }
      if converged {
        forall i: nat | i < |names| && InScope(names, scope, i) && i !in trace.widened ensures Stable(job, State(), i) {
          assert Active(scoped, i) && Stable(scoped, State(), i);
        }
      }
    }
  }

  /** The run's job, with the functions in scope active. */
  ghost function Scoped<T(!new), M(!new), P(!new)>(job: Job<T, M, P>, names: seq<string>,
        scope: Option<set<string>>): (r: Job<T, M, P>)
    requires JobOk(job) && |names| == |job.slots|
    ensures JobOk(r) && r.slots == job.slots && r.slotCount == job.slotCount && |r.active| == |names|
    ensures forall i: nat :: i < |names| ==> (Active(r, i) <==> InScope(names, scope, i))
  {
    var active := seq(|names|, i requires 0 <= i < |names| => InScope(names, scope, i));
    ScopedOk(job, active);
    job.(active := active)
  }

  /** The scope plays no part in what a walk does. */
  lemma ScopedOk<T(!new), M(!new), P(!new)>(job: Job<T, M, P>, active: seq<bool>)
    requires JobOk(job) && |active| == |job.slots|
    ensures JobOk(job.(active := active))
  {
    var scoped := job.(active := active);
    forall f, w ensures WalkOk(scoped, f, w) {
      assert WalkOk(job, f, w);
    }
    forall f: nat, w, w' | f < |scoped.slots| && WorldOk(scoped, w) && WorldOk(scoped, w') && SameView(scoped, f, w, w')
      ensures scoped.refine(f, w') == scoped.refine(f, w)
    {
      assert SameView(job, f, w, w');
    }
  }

  predicate InScope(names: seq<string>, scope: Option<set<string>>, i: nat)
    requires i < |names|
  {
    scope.None? || names[i] in scope.value
  }

  // ---------------------------------------------------------------------------------------------
  // The steps of a run
  // ---------------------------------------------------------------------------------------------

  /**
   * A component is taken up; a queued member is refined; the budget ran out with members queued, and all members become
   * unknown; with nothing queued, the members still at bottom become unknown; a pass ends by passing on metadata.
   */
  datatype Event = TakeUp(component: seq<nat>) | Refine(f: nat) | Widen(queued: set<nat>) | Lift | Pass

  /** What a run did, which functions were last written by widening, and whether a return was forced to unknown. */
  datatype Trace = Trace(widened: set<nat>, lifted: bool, log: seq<Event>)

  const NO_STEPS := Trace({}, false, [])

  /** The component being settled. */
  function Running(log: seq<Event>): seq<nat> {
    if log == [] then []
    else match log[|log| - 1]
      case TakeUp(component) => component
      case Refine(_) => Running(log[..|log| - 1])
      case Lift => Running(log[..|log| - 1])
      case _ => []
  }

  /** How often members were refined since the component was taken up. */
  function Used(log: seq<Event>): nat {
    if log == [] then 0
    else match log[|log| - 1]
      case Refine(_) => Used(log[..|log| - 1]) + 1
      case Lift => Used(log[..|log| - 1])
      case _ => 0
  }

  function Passes(log: seq<Event>): nat {
    if log == [] then 0 else Passes(log[..|log| - 1]) + if log[|log| - 1].Pass? then 1 else 0
  }

  /** How often `f` was refined. */
  function Refines(log: seq<Event>, f: nat): nat {
    if log == [] then 0 else Refines(log[..|log| - 1], f) + if log[|log| - 1] == Refine(f) then 1 else 0
  }

  /** The functions last written by widening. */
  function WidenedBy(log: seq<Event>): set<nat> {
    if log == [] then {}
    else
      var before := WidenedBy(log[..|log| - 1]);
      match log[|log| - 1]
      case Refine(f) => before - {f}
      case Widen(_) => before + Members(Running(log[..|log| - 1]))
      case _ => before
  }

  /** Whether a return was set to unknown to force an end. */
  predicate Forces(log: seq<Event>) {
    log != [] && (Forces(log[..|log| - 1]) || log[|log| - 1].Widen? || log[|log| - 1].Lift?)
  }

  /** The refinements that used up the budgets. */
  function Spent(log: seq<Event>): nat {
    if log == [] then 0
    else
      Spent(log[..|log| - 1])
      + if log[|log| - 1].Widen? then MAX_FIXPOINT_DEPTH * |Running(log[..|log| - 1])| else 0
  }

  predicate InSlots<T, M, P>(job: Job<T, M, P>, component: seq<nat>) {
    forall k :: 0 <= k < |component| ==> component[k] < |job.slots|
  }

  predicate LogInRange<T, M, P>(job: Job<T, M, P>, log: seq<Event>) {
    log == [] || (LogInRange(job, log[..|log| - 1])
                  && match log[|log| - 1]
                     case TakeUp(component) => InSlots(job, component)
                     case Refine(f) => f < |job.slots|
                     case _ => true)
  }

  lemma {:induction false} RunningInSlots<T, M, P>(job: Job<T, M, P>, log: seq<Event>)
    requires LogInRange(job, log)
    ensures InSlots(job, Running(log))
  {
    if log != [] { RunningInSlots(job, log[..|log| - 1]); }
  }

  /** Evaluation metadata passed on through generics and forwarding. */
  function PassedOn<T, M, P>(job: Job<T, M, P>, w: World<T, M, P>): World<T, M, P> {
    w.(metas := job.forwarded(job.generics(w.metas), w.loaded, w.bare))
  }

  /** The table after these steps. */
  ghost function Replay<T(!new), M(!new), P(!new)>(job: Job<T, M, P>, start: World<T, M, P>, log: seq<Event>):
        (w: World<T, M, P>)
    requires JobOk(job) && WorldOk(job, start) && LogInRange(job, log)
    ensures WorldOk(job, w)
  {
    if log == [] then start
    else
      var before := log[..|log| - 1];
      var w := Replay(job, start, before);
      RunningInSlots(job, before);
      match log[|log| - 1]
      case TakeUp(_) => w
      case Refine(f) => Refined(job, w, f)
      case Widen(_) => Filled(w, MemberSlots(job, Running(before)), job.unknown)
      case Lift => Filled(w, MemberSlots(job, Running(before)) * w.bottom, job.unknown)
      case Pass => PassedOn(job, w)
  }

  /** The table the current pass started with. */
  ghost function PassStart<T(!new), M(!new), P(!new)>(job: Job<T, M, P>, start: World<T, M, P>, log: seq<Event>):
        World<T, M, P>
    requires JobOk(job) && WorldOk(job, start) && LogInRange(job, log)
  {
    if log == [] || log[|log| - 1].Pass? then Replay(job, start, log) else PassStart(job, start, log[..|log| - 1])
  }

  predicate SameAttached<T, M, P(==)>(w: World<T, M, P>, w': World<T, M, P>) {
    w.loaded == w'.loaded && w.bare == w'.bare
  }

  /** Refining a member that is at bottom leaves it there. */
  ghost predicate Deadlocked<T(!new), M(!new), P(!new)>(job: Job<T, M, P>, w: World<T, M, P>, component: seq<nat>)
    requires InSlots(job, component)
  {
    forall f: nat {:trigger OutcomeCell(job, w, f)} ::
      f in component && f < |job.slots| && job.slots[f] in w.bottom ==> OutcomeCell(job, w, f).Bot?
  }

  /**
   * When a step may be taken: the first pass takes up single functions; members in scope are refined; a component is
   * widened when its budget was used up with members queued, and lifted after the first pass, when some member is at
   * bottom and, unless the pass attached packages, refining such members leaves them there.
   */
  ghost predicate MayTake<T(!new), M(!new), P(!new)>(job: Job<T, M, P>, start: World<T, M, P>, before: seq<Event>,
        event: Event)
    requires JobOk(job) && WorldOk(job, start) && LogInRange(job, before)
  {
    RunningInSlots(job, before);
    var component := Running(before);
    match event
    case TakeUp(taken) => Passes(before) == 0 ==> |taken| == 1
    case Refine(f) => Active(job, f) && f in component
    case Widen(queued) =>
      queued != {} && queued <= Members(component) && Used(before) == MAX_FIXPOINT_DEPTH * |component|
    case Lift =>
      var w := Replay(job, start, before);
      && Passes(before) > 0 && MemberSlots(job, component) * w.bottom != {}
      && (SameAttached(w, PassStart(job, start, before)) ==> Deadlocked(job, w, component))
    case Pass => true
  }

  ghost predicate Legal<T(!new), M(!new), P(!new)>(job: Job<T, M, P>, start: World<T, M, P>, log: seq<Event>)
    requires JobOk(job) && WorldOk(job, start) && LogInRange(job, log)
  {
    log == [] || (Legal(job, start, log[..|log| - 1]) && MayTake(job, start, log[..|log| - 1], log[|log| - 1]))
  }

  /**
   * The log accounts for the run: each step was allowed and together they give the table, the widened and the forced
   * functions and how often each function was refined; and the refinements that used the budgets up were made.
   */
  ghost predicate Accounted<T(!new), M(!new), P(!new)>(job: Job<T, M, P>, start: World<T, M, P>, trace: Trace,
        w: World<T, M, P>, counts: seq<nat>)
    requires JobOk(job) && WorldOk(job, start)
  {
    && LogInRange(job, trace.log) && Legal(job, start, trace.log) && Replay(job, start, trace.log) == w
    && trace.widened == WidenedBy(trace.log) && (trace.lifted <==> Forces(trace.log))
    && |counts| == |job.slots| && (forall f :: 0 <= f < |counts| ==> counts[f] == Refines(trace.log, f))
    && Spent(trace.log) + Used(trace.log) <= Total(counts)
  }

  lemma {:induction false} WideningForces(log: seq<Event>)
    ensures Forces(log) || WidenedBy(log) == {}
  {
    if log != [] { WideningForces(log[..|log| - 1]); }
  }

  /** What widening wrote last is not at bottom. */
  lemma {:induction false} WidenedComputed<T(!new), M(!new), P(!new)>(job: Job<T, M, P>, start: World<T, M, P>,
        log: seq<Event>, f: nat)
    requires JobOk(job) && WorldOk(job, start) && LogInRange(job, log)
    requires f in WidenedBy(log) && f < |job.slots|
    ensures job.slots[f] !in Replay(job, start, log).bottom
  {
    var before := log[..|log| - 1];
    RunningInSlots(job, before);
    if f in WidenedBy(before) {
      WidenedComputed(job, start, before, f);
    } else {
      var k :| 0 <= k < |Running(before)| && Running(before)[k] == f;
      assert job.slots[Running(before)[k]] in MemberSlots(job, Running(before));
    }
  }

  /** `Accounted` after some passes, kept closed. */
  ghost predicate Balanced<T(!new), M(!new), P(!new)>(job: Job<T, M, P>, start: World<T, M, P>, trace: Trace,
        w: World<T, M, P>, counts: seq<nat>, passes: nat, passStart: World<T, M, P>)
    requires JobOk(job) && WorldOk(job, start)
  {
    forall k {:trigger Seal(k)} :: Seal(k) ==>
      && Accounted(job, start, trace, w, counts) && Passes(trace.log) == passes
      && PassStart(job, start, trace.log) == passStart
  }

  /** The same while a component is being settled. */
  ghost predicate Settling<T(!new), M(!new), P(!new)>(job: Job<T, M, P>, start: World<T, M, P>, trace: Trace,
        w: World<T, M, P>, counts: seq<nat>, passes: nat, passStart: World<T, M, P>, component: seq<nat>, used: int)
    requires JobOk(job) && WorldOk(job, start)
  {
    && Balanced(job, start, trace, w, counts, passes, passStart)
    && forall k {:trigger Seal(k)} :: Seal(k) ==> Running(trace.log) == component && Used(trace.log) == used
  }

  lemma Account<T(!new), M(!new), P(!new)>(job: Job<T, M, P>, start: World<T, M, P>, trace: Trace, w: World<T, M, P>,
        counts: seq<nat>, passes: nat, passStart: World<T, M, P>)
    requires JobOk(job) && WorldOk(job, start) && Balanced(job, start, trace, w, counts, passes, passStart)
    ensures Accounted(job, start, trace, w, counts) && Passes(trace.log) == passes
    ensures PassStart(job, start, trace.log) == passStart
  {
    assert Seal(0);
  }

  lemma AccountStart<T(!new), M(!new), P(!new)>(job: Job<T, M, P>, start: World<T, M, P>, counts: seq<nat>)
    requires JobOk(job) && WorldOk(job, start) && counts == seq(|job.slots|, _ => 0)
    ensures Balanced(job, start, NO_STEPS, start, counts, 0, start)
  {
  }

  lemma AccountTaken<T(!new), M(!new), P(!new)>(job: Job<T, M, P>, start: World<T, M, P>, past: Trace,
        w: World<T, M, P>, counts: seq<nat>, passes: nat, passStart: World<T, M, P>, component: seq<nat>)
      returns (trace: Trace)
    requires JobOk(job) && WorldOk(job, start) && Balanced(job, start, past, w, counts, passes, passStart)
    requires InSlots(job, component) && (passes == 0 ==> |component| == 1)
    ensures Settling(job, start, trace, w, counts, passes, passStart, component, 0)
    ensures trace.widened == past.widened && trace.lifted == past.lifted
  {
    Account(job, start, past, w, counts, passes, passStart);
    trace := past.(log := past.log + [TakeUp(component)]);
    assert trace.log[..|past.log|] == past.log;
  }

  lemma AccountRefined<T(!new), M(!new), P(!new)>(job: Job<T, M, P>, start: World<T, M, P>, past: Trace,
        w: World<T, M, P>, counts: seq<nat>, passes: nat, passStart: World<T, M, P>, component: seq<nat>, used: int,
        f: nat)
      returns (trace: Trace)
    requires JobOk(job) && WorldOk(job, start) && WorldOk(job, w)
    requires Settling(job, start, past, w, counts, passes, passStart, component, used)
    requires Active(job, f) && f in component && |counts| == |job.slots|
    ensures Settling(job, start, trace, Refined(job, w, f), counts[f := counts[f] + 1], passes, passStart, component,
                     used + 1)
    ensures trace.widened == past.widened - {f} && trace.lifted == past.lifted
  {
    Account(job, start, past, w, counts, passes, passStart);
    assert Seal(0);
    trace := past.(widened := past.widened - {f}, log := past.log + [Refine(f)]);
    assert trace.log[..|past.log|] == past.log;
    TotalOneMore(counts, f);
  }

  lemma AccountWidened<T(!new), M(!new), P(!new)>(job: Job<T, M, P>, start: World<T, M, P>, past: Trace,
        w: World<T, M, P>, counts: seq<nat>, passes: nat, passStart: World<T, M, P>, component: seq<nat>,
        queued: set<nat>)
      returns (trace: Trace)
    requires JobOk(job) && WorldOk(job, start) && InSlots(job, component)
    requires Settling(job, start, past, w, counts, passes, passStart, component, MAX_FIXPOINT_DEPTH * |component|)
    requires queued != {} && queued <= Members(component)
    ensures Balanced(job, start, trace, Filled(w, MemberSlots(job, component), job.unknown), counts, passes, passStart)
    ensures trace.widened == past.widened + Members(component) && trace.lifted
  {
    Account(job, start, past, w, counts, passes, passStart);
    assert Seal(0);
    trace := Trace(past.widened + Members(component), true, past.log + [Widen(queued)]);
    assert trace.log[..|past.log|] == past.log;
  }

  lemma AccountLifted<T(!new), M(!new), P(!new)>(job: Job<T, M, P>, start: World<T, M, P>, past: Trace,
        w: World<T, M, P>, counts: seq<nat>, passes: nat, passStart: World<T, M, P>, component: seq<nat>, used: int)
      returns (trace: Trace)
    requires JobOk(job) && WorldOk(job, start) && InSlots(job, component) && passes > 0
    requires Settling(job, start, past, w, counts, passes, passStart, component, used)
    requires MemberSlots(job, component) * w.bottom != {}
    requires SameAttached(w, passStart) ==> Deadlocked(job, w, component)
    ensures Settling(job, start, trace, Filled(w, MemberSlots(job, component) * w.bottom, job.unknown), counts, passes,
                     passStart, component, used)
    ensures trace.widened == past.widened && trace.lifted
  {
    Account(job, start, past, w, counts, passes, passStart);
    assert Seal(0);
    trace := past.(lifted := true, log := past.log + [Lift]);
    assert trace.log[..|past.log|] == past.log;
  }

  lemma AccountPassed<T(!new), M(!new), P(!new)>(job: Job<T, M, P>, start: World<T, M, P>, past: Trace,
        w: World<T, M, P>, counts: seq<nat>, passes: nat, passStart: World<T, M, P>) returns (trace: Trace)
    requires JobOk(job) && WorldOk(job, start) && Balanced(job, start, past, w, counts, passes, passStart)
    ensures Balanced(job, start, trace, PassedOn(job, w), counts, passes + 1, PassedOn(job, w))
    ensures trace.widened == past.widened && trace.lifted == past.lifted
  {
    Account(job, start, past, w, counts, passes, passStart);
    trace := past.(log := past.log + [Pass]);
    assert trace.log[..|past.log|] == past.log;
  }

  ghost predicate LeastSoFar<T(!new), M(!new), P(!new)>(job: Job<T, M, P>, leq: (T, T) -> bool, start: World<T, M, P>,
        w: World<T, M, P>, trace: Trace)
    requires JobOk(job) && WorldOk(job, start)
  {
    Monotone(job, leq) && Quiet(job, start) && !trace.lifted ==> BelowSolutions(job, leq, start, w)
  }

  lemma LeastAfterRefining<T(!new), M(!new), P(!new)>(job: Job<T, M, P>, leq: (T, T) -> bool, start: World<T, M, P>,
        w: World<T, M, P>, trace: Trace, f: nat)
    requires JobOk(job) && WorldOk(job, start) && WorldOk(job, w) && Active(job, f)
    requires LeastSoFar(job, leq, start, w, trace) && !trace.lifted
    ensures LeastSoFar(job, leq, start, Refined(job, w, f), trace.(widened := trace.widened - {f}))
  {
    if Monotone(job, leq) && Quiet(job, start) { RefinedBelow(job, leq, start, w, f); }
  }

  // ---------------------------------------------------------------------------------------------
  // A component of one function that never reads its own slot
  // ---------------------------------------------------------------------------------------------

  ghost predicate SelfFree<T(!new), M(!new), P(!new)>(job: Job<T, M, P>, i: nat) {
    i < |job.slots| && forall w {:trigger job.refine(i, w)} :: job.slots[i] !in job.refine(i, w).seen
  }

  ghost predicate AloneReady<T(!new), M(!new), P(!new)>(job: Job<T, M, P>, component: seq<nat>, q: Lists) {
    && |component| == 1 && SelfFree(job, component[0])
    && job.slots[component[0]] < |q.callers| && component[0] !in q.callers[job.slots[component[0]]]
  }

  /** Its one refinement, when it is pending. */
  function AloneWorld<T(==), M, P>(job: Job<T, M, P>, w: World<T, M, P>, q: Lists, i: nat): World<T, M, P>
    requires i < |job.slots| && job.slots[i] < |w.rets|
  {
    if i in q.pending then Refined(job, w, i) else w
  }

  function AloneStep<T(==), M, P>(job: Job<T, M, P>, w: World<T, M, P>, q: Lists, i: nat, componentOf: seq<nat>,
        id: nat): Lists
    requires i < |job.slots| && job.slots[i] < |w.rets| == |q.callers|
    requires forall s :: s in job.refine(i, w).seen ==> s < |q.callers|
    requires i < |componentOf| && forall c :: c in q.callers[job.slots[i]] ==> c < |componentOf|
  {
    var base := Lists(q.pending - {i}, q.pending * {i}, q.callers);
    if i in q.pending then RefinedLists(job, w, base, i, componentOf, id) else base
  }

  function AloneLists<T(==), M, P>(job: Job<T, M, P>, w: World<T, M, P>, q: Lists, i: nat, componentOf: seq<nat>,
        id: nat, firstPass: bool): Lists
    requires i < |job.slots| && job.slots[i] < |w.rets| == |q.callers|
    requires forall s :: s in job.refine(i, w).seen ==> s < |q.callers|
    requires i < |componentOf| && forall c :: c in q.callers[job.slots[i]] ==> c < |componentOf|
  {
    var r := AloneStep(job, w, q, i, componentOf, id);
    if firstPass && job.slots[i] in AloneWorld(job, w, q, i).bottom then r.(pending := r.pending + {i}) else r
  }

  function AloneCounts(counts: seq<nat>, q: Lists, i: nat): seq<nat>
    requires i < |counts|
  {
    if i in q.pending then counts[i := counts[i] + 1] else counts
  }

  /** The component is one such function, and refining it leaves bottom or bottom may wait for the next pass. */
  ghost predicate AloneEnds<T(!new), M(!new), P(!new)>(job: Job<T, M, P>, component: seq<nat>, w: World<T, M, P>,
        q: Lists, firstPass: bool) {
    && AloneReady(job, component, q) && WorldOk(job, w) && job.slots[component[0]] < job.slotCount
    && WalkOk(job, component[0], w)
    && (firstPass || job.slots[component[0]] !in AloneWorld(job, w, q, component[0]).bottom)
  }

  /** The first member of the queue was refined. */
  ghost predicate RefinedLeast<T(!new), M(!new), P(!new)>(job: Job<T, M, P>, componentOf: seq<nat>, id: nat,
        w0: World<T, M, P>, q0: Lists, counts0: seq<nat>, w: World<T, M, P>, q: Lists, counts: seq<nat>)
    requires JobOk(job) && WorldOk(job, w0) && |counts0| == |job.slots|
  {
    exists f: nat {:trigger IsLeast(q0.queue, f)} :: IsLeast(q0.queue, f) && f < |job.slots| && w == Refined(job, w0, f)
      && ListsOk(job, q0) && Placed(job, componentOf) && WalkOk(job, f, w0)
      && q == RefinedLists(job, w0, q0, f, componentOf, id) && counts == counts0[f := counts0[f] + 1]
  }

  /** The component's state before and after its one refinement. */
  ghost predicate AloneSoFar<T(!new), M(!new), P(!new)>(job: Job<T, M, P>, component: seq<nat>, componentOf: seq<nat>,
        id: nat, w0: World<T, M, P>, q0: Lists, counts0: seq<nat>, refined: bool, w: World<T, M, P>, q: Lists,
        counts: seq<nat>)
    requires JobOk(job) && AloneEnds(job, component, w0, q0, true) && ListsOk(job, q0) && Placed(job, componentOf)
    requires |counts0| == |job.slots|
  {
    var i := component[0];
    if refined
    then i in q0.pending && w == AloneWorld(job, w0, q0, i) && counts == AloneCounts(counts0, q0, i)
         && q.queue == {} && q == AloneStep(job, w0, q0, i, componentOf, id)
    else w == w0 && counts == counts0 && q == Lists(q0.pending - {i}, q0.pending * {i}, q0.callers)
  }

  /** `AloneSoFar`, kept closed. */
  ghost predicate AloneKept<T(!new), M(!new), P(!new)>(job: Job<T, M, P>, component: seq<nat>, componentOf: seq<nat>,
        id: nat, w0: World<T, M, P>, q0: Lists, counts0: seq<nat>, firstPass: bool, refined: bool, w: World<T, M, P>,
        q: Lists, counts: seq<nat>)
  {
    forall k {:trigger Seal(k)} :: Seal(k) ==>
      && JobOk(job) && AloneEnds(job, component, w0, q0, firstPass) && ListsOk(job, q0) && Placed(job, componentOf)
      && |counts0| == |job.slots| && SettleReady(job, component, componentOf, id, q0)
      && AloneSoFar(job, component, componentOf, id, w0, q0, counts0, refined, w, q, counts)
  }

  lemma AloneStarts<T(!new), M(!new), P(!new)>(job: Job<T, M, P>, component: seq<nat>, componentOf: seq<nat>, id: nat,
        w0: World<T, M, P>, q0: Lists, counts0: seq<nat>, firstPass: bool)
    requires JobOk(job) && AloneEnds(job, component, w0, q0, firstPass) && ListsOk(job, q0) && Placed(job, componentOf)
    requires |counts0| == |job.slots| && SettleReady(job, component, componentOf, id, q0)
    ensures
      var members := Members(component);
      AloneKept(job, component, componentOf, id, w0, q0, counts0, firstPass, false, w0,
                Lists(q0.pending - members, q0.pending * members, q0.callers), counts0)
  {
    AloneQueue(job, component, componentOf, id, w0, q0);
  }

  /** After its refinement nothing is queued. */
  lemma AloneIsOnce<T(!new), M(!new), P(!new)>(job: Job<T, M, P>, component: seq<nat>, componentOf: seq<nat>, id: nat,
        w0: World<T, M, P>, q0: Lists, counts0: seq<nat>, firstPass: bool, refined: bool, w: World<T, M, P>, q: Lists,
        counts: seq<nat>)
    requires AloneKept(job, component, componentOf, id, w0, q0, counts0, firstPass, refined, w, q, counts)
    ensures refined ==> q.queue == {}
  {
    assert Seal(0);
  }

  lemma AloneRefines<T(!new), M(!new), P(!new)>(job: Job<T, M, P>, component: seq<nat>, componentOf: seq<nat>, id: nat,
        w0: World<T, M, P>, q0: Lists, counts0: seq<nat>, firstPass: bool, refined: bool, w: World<T, M, P>, q: Lists,
        counts: seq<nat>, w': World<T, M, P>, q': Lists, counts': seq<nat>)
    requires AloneKept(job, component, componentOf, id, w0, q0, counts0, firstPass, refined, w, q, counts)
    requires JobOk(job) && WorldOk(job, w) && |counts| == |job.slots| && q.queue != {}
    requires RefinedLeast(job, componentOf, id, w, q, counts, w', q', counts')
    ensures AloneKept(job, component, componentOf, id, w0, q0, counts0, firstPass, true, w', q', counts')
  {
    assert Seal(0);
    AloneQueue(job, component, componentOf, id, w0, q0);
  }

  /** With its queue empty the component ends as it should. */
  lemma AloneDrains<T(!new), M(!new), P(!new)>(job: Job<T, M, P>, component: seq<nat>, componentOf: seq<nat>, id: nat,
        w0: World<T, M, P>, q0: Lists, counts0: seq<nat>, firstPass: bool, refined: bool, w: World<T, M, P>, q: Lists,
        counts: seq<nat>)
    requires AloneKept(job, component, componentOf, id, w0, q0, counts0, firstPass, refined, w, q, counts)
    requires q.queue == {}
    ensures |component| == 1 && component[0] < |job.slots|
    ensures !firstPass ==> job.slots[component[0]] !in w.bottom
    ensures AloneSettled(job, component, componentOf, id, w0, q0, counts0, firstPass, w,
                         if firstPass && job.slots[component[0]] in w.bottom
                         then q.(pending := q.pending + {component[0]}) else q, counts)
  {
    assert Seal(0);
    AloneQueue(job, component, componentOf, id, w0, q0);
  }

  ghost predicate AloneDone<T(!new), M(!new), P(!new)>(job: Job<T, M, P>, component: seq<nat>, componentOf: seq<nat>,
        id: nat, w0: World<T, M, P>, q0: Lists, counts0: seq<nat>, firstPass: bool, w: World<T, M, P>, q: Lists,
        counts: seq<nat>)
    requires JobOk(job) && AloneEnds(job, component, w0, q0, true) && ListsOk(job, q0) && Placed(job, componentOf)
    requires |counts0| == |job.slots|
  {
    var i := component[0];
    && w == AloneWorld(job, w0, q0, i) && counts == AloneCounts(counts0, q0, i)
    && q == AloneLists(job, w0, q0, i, componentOf, id, firstPass)
  }

  /** `AloneDone`, kept closed. */
  ghost predicate AloneSettled<T(!new), M(!new), P(!new)>(job: Job<T, M, P>, component: seq<nat>,
        componentOf: seq<nat>, id: nat, w0: World<T, M, P>, q0: Lists, counts0: seq<nat>, firstPass: bool,
        w: World<T, M, P>, q: Lists, counts: seq<nat>)
  {
    forall k {:trigger Seal(k)} :: Seal(k) ==>
      && JobOk(job) && AloneEnds(job, component, w0, q0, true) && ListsOk(job, q0) && Placed(job, componentOf)
      && |counts0| == |job.slots|
      && AloneDone(job, component, componentOf, id, w0, q0, counts0, firstPass, w, q, counts)
  }

  lemma AloneQueue<T(!new), M(!new), P(!new)>(job: Job<T, M, P>, component: seq<nat>, componentOf: seq<nat>, id: nat,
        w: World<T, M, P>, q: Lists)
    requires JobOk(job) && WorldOk(job, w) && ListsOk(job, q) && AloneReady(job, component, q)
    requires SettleReady(job, component, componentOf, id, q)
    requires WalkOk(job, component[0], w)
    ensures AloneStep(job, w, q, component[0], componentOf, id).queue == {}
    ensures Members(component) == {component[0]}
    ensures (component[0] in q.pending ==> q.pending * Members(component) == {component[0]})
  {
    var i := component[0];
    assert Members(component) == {i};
    assert forall c: nat :: c < |componentOf| && componentOf[c] == id ==> c in Members(component);
  }

  lemma {:induction false} WokenAllElsewhere(q: Lists, changed: seq<nat>, componentOf: seq<nat>, id: nat, widen: bool,
        members: set<nat>)
    requires InTable(changed, |q.callers|)
    requires forall s, c {:trigger c in q.callers[s]} :: 0 <= s < |q.callers| && c in q.callers[s] ==> c < |componentOf|
    requires q.pending !! members && forall m :: m in members ==> m < |componentOf| && componentOf[m] == id
    ensures WokenAll(q, changed, componentOf, id, widen).pending !! members
  {
    if changed != [] {
      WokenAllElsewhere(q, changed[..|changed| - 1], componentOf, id, widen, members);
    }
  }

  /** With nothing queued, members that do not wait for another pass refine to what is stored. */
  lemma StuckIsDeadlocked<T(!new), M(!new), P(!new)>(job: Job<T, M, P>, component: seq<nat>, componentOf: seq<nat>,
        id: nat, q: Lists, start: World<T, M, P>, passStart: World<T, M, P>, w: World<T, M, P>, trace: Trace,
        counts: seq<nat>, passes: nat, used: int)
    requires JobOk(job) && WorldOk(job, start) && Steady(job, start, passStart, w, q, trace.widened)
    requires SettleReady(job, component, componentOf, id, q) && q.queue == {} && q.pending !! Members(component)
    requires Settling(job, start, trace, w, counts, passes, passStart, component, used)
    ensures SameAttached(w, passStart) ==> Deadlocked(job, w, component)
  {
    Open(job, start, passStart, w, q, trace.widened);
    Account(job, start, trace, w, counts, passes, passStart);
    if SameAttached(w, passStart) {
      forall f: nat | f in component && f < |job.slots| && job.slots[f] in w.bottom
        ensures OutcomeCell(job, w, f).Bot?
      {
        if f in trace.widened { WidenedComputed(job, start, trace.log, f); }
        var g: nat :| Active(job, g) && g < |job.slots| && job.slots[g] == job.slots[f];
        Owner(job.slots, f, g);
        assert f in Members(component);
        assert WalkOk(job, f, w) && Settled(job, w, q.callers, f);
      }
    }
  }

  /** A component is taken up: its pending members are queued. */
  lemma Begin<T(!new), M(!new), P(!new)>(job: Job<T, M, P>, component: seq<nat>, componentOf: seq<nat>, id: nat,
        lists: Lists, start: World<T, M, P>, passStart: World<T, M, P>, w: World<T, M, P>, leq: (T, T) -> bool,
        past: Trace, counts: seq<nat>, passes: nat) returns (trace: Trace)
    requires JobOk(job) && WorldOk(job, start) && Steady(job, start, passStart, w, lists, past.widened)
    requires lists.queue == {} && SettleReady(job, component, componentOf, id, lists)
    requires passes == 0 ==> |component| == 1
    requires LeastSoFar(job, leq, start, w, past) && Balanced(job, start, past, w, counts, passes, passStart)
    ensures trace.widened == past.widened && trace.lifted == past.lifted && LeastSoFar(job, leq, start, w, trace)
    ensures Settling(job, start, trace, w, counts, passes, passStart, component, 0)
    ensures Steady(job, start, passStart, w,
                   Lists(lists.pending - Members(component), lists.pending * Members(component), lists.callers),
                   trace.widened)
  {
    trace := AccountTaken(job, start, past, w, counts, passes, passStart, component);
    QueueMembers(job, component, componentOf, id, start, passStart, w, lists, past.widened);
  }

  /** A component with a queued member is in scope as a whole. */
  lemma QueueIsActive<T(!new), M(!new), P(!new)>(job: Job<T, M, P>, component: seq<nat>, componentOf: seq<nat>,
        id: nat, start: World<T, M, P>, passStart: World<T, M, P>, w: World<T, M, P>, q: Lists, widened: set<nat>)
    requires JobOk(job) && WorldOk(job, start) && Steady(job, start, passStart, w, q, widened)
    requires SettleReady(job, component, componentOf, id, q) && q.queue != {} && q.queue <= Members(component)
    ensures forall m {:trigger m in component} :: m in component ==> Active(job, m)
  {
    Open(job, start, passStart, w, q, widened);
    var f :| f in q.queue;
    assert f in component;
  }

  /** Moving the pending members of a component to its queue. */
  lemma QueueMembers<T(!new), M(!new), P(!new)>(job: Job<T, M, P>, component: seq<nat>, componentOf: seq<nat>, id: nat,
        start: World<T, M, P>, passStart: World<T, M, P>, w: World<T, M, P>, lists: Lists, widened: set<nat>)
    requires JobOk(job) && WorldOk(job, start) && Steady(job, start, passStart, w, lists, widened) && lists.queue == {}
    requires SettleReady(job, component, componentOf, id, lists)
    ensures Steady(job, start, passStart, w,
                   Lists(lists.pending - Members(component), lists.pending * Members(component), lists.callers),
                   widened)
  {
    Open(job, start, passStart, w, lists, widened);
  }

  lemma WokenAllWidened(q: Lists, changed: seq<nat>, componentOf: seq<nat>, id: nat)
    requires InTable(changed, |q.callers|)
    requires forall s, c {:trigger c in q.callers[s]} :: 0 <= s < |q.callers| && c in q.callers[s] ==> c < |componentOf|
    ensures WokenAll(q, changed, componentOf, id, true).queue == q.queue
  {
    if changed != [] {
      WokenAllWidened(q, changed[..|changed| - 1], componentOf, id);
    }
  }

  function MemberSlots<T, M, P>(job: Job<T, M, P>, component: seq<nat>): set<nat>
    requires forall k :: 0 <= k < |component| ==> component[k] < |job.slots|
  {
    set k | 0 <= k < |component| :: job.slots[component[k]]
  }

  /** The members of a component whose slot is still at bottom. */
  function Stuck<T, M, P>(job: Job<T, M, P>, component: seq<nat>, bottom: set<nat>): (r: seq<nat>)
    requires forall k :: 0 <= k < |component| ==> component[k] < |job.slots|
    ensures forall m {:trigger m in r} :: m in r <==> m in component && m < |job.slots| && job.slots[m] in bottom
  {
    if component == [] then []
    else
      var last := component[|component| - 1];
      assert component == component[..|component| - 1] + [last];
      Stuck(job, component[..|component| - 1], bottom) + if job.slots[last] in bottom then [last] else []
  }

  /** Exactly the members at bottom are stuck. */
  ghost predicate AllStuck<T(!new), M(!new), P(!new)>(job: Job<T, M, P>, component: seq<nat>, bottom: set<nat>,
        stuck: seq<nat>)
    requires forall k :: 0 <= k < |component| ==> component[k] < |job.slots|
  {
    && (forall k :: 0 <= k < |stuck| ==> stuck[k] < |job.slots| && job.slots[stuck[k]] in bottom)
    && (forall k :: 0 <= k < |component| && job.slots[component[k]] in bottom ==> component[k] in stuck)
  }

  /** Members still at bottom, and no others, are pending again. */
  lemma StuckPostponed<T(!new), M(!new), P(!new)>(job: Job<T, M, P>, component: seq<nat>, q: Lists, bottom: set<nat>)
    requires forall k :: 0 <= k < |component| ==> component[k] < |job.slots|
    ensures
      var stuck := Stuck(job, component, bottom);
      var r := q.(pending := q.pending + Members(stuck));
      && (forall k :: 0 <= k < |stuck| ==> stuck[k] < |job.slots| && job.slots[stuck[k]] in bottom)
      && (forall k :: 0 <= k < |component| && job.slots[component[k]] in bottom ==> component[k] in r.pending)
      && (|component| == 1 ==>
            r == if job.slots[component[0]] in bottom then q.(pending := q.pending + {component[0]}) else q)
  {
    StuckIsAll(job, component, bottom);
    if |component| == 1 {
      SingleStuck(job, component, bottom);
      assert q.pending + {} == q.pending;
    }
  }

  lemma StuckIsAll<T(!new), M(!new), P(!new)>(job: Job<T, M, P>, component: seq<nat>, bottom: set<nat>)
    requires forall k :: 0 <= k < |component| ==> component[k] < |job.slots|
    ensures AllStuck(job, component, bottom, Stuck(job, component, bottom))
  {
    var stuck := Stuck(job, component, bottom);
    forall k | 0 <= k < |stuck| ensures stuck[k] < |job.slots| && job.slots[stuck[k]] in bottom {
      assert stuck[k] in stuck;
    }
    forall k | 0 <= k < |component| ensures job.slots[component[k]] in bottom ==> component[k] in stuck {
      assert component[k] in component;
    }
  }

  lemma SingleStuck<T(!new), M(!new), P(!new)>(job: Job<T, M, P>, component: seq<nat>, bottom: set<nat>)
    requires |component| == 1 && component[0] < |job.slots|
    ensures Stuck(job, component, bottom) == if job.slots[component[0]] in bottom then component else []
  {
    assert component[..0] == [];
    assert component == [component[0]];
  }

  function SlotsOf<T, M, P>(job: Job<T, M, P>, members: seq<nat>): (r: seq<nat>)
    requires forall k :: 0 <= k < |members| ==> members[k] < |job.slots|
    ensures |r| == |members| && forall k :: 0 <= k < |r| ==> r[k] == job.slots[members[k]]
  {
    seq(|members|, k requires 0 <= k < |members| => job.slots[members[k]])
  }

  /** The slots of the stuck members are those of the component that are at bottom. */
  lemma StuckSlots<T(!new), M(!new), P(!new)>(job: Job<T, M, P>, component: seq<nat>, bottom: set<nat>)
    requires forall k :: 0 <= k < |component| ==> component[k] < |job.slots|
    ensures forall k :: 0 <= k < |Stuck(job, component, bottom)| ==> Stuck(job, component, bottom)[k] < |job.slots|
    ensures SlotSet(SlotsOf(job, Stuck(job, component, bottom))) == MemberSlots(job, component) * bottom
  {
    var stuck := Stuck(job, component, bottom);
    StuckIsAll(job, component, bottom);
    forall s | s in SlotSet(SlotsOf(job, stuck)) ensures s in MemberSlots(job, component) * bottom {
      var k :| 0 <= k < |stuck| && SlotsOf(job, stuck)[k] == s;
      assert stuck[k] in stuck;
      var j :| 0 <= j < |component| && component[j] == stuck[k];
    }
    forall s | s in MemberSlots(job, component) * bottom ensures s in SlotSet(SlotsOf(job, stuck)) {
      var j :| 0 <= j < |component| && job.slots[component[j]] == s;
      var k :| 0 <= k < |stuck| && stuck[k] == component[j];
      assert SlotsOf(job, stuck)[k] == s;
    }
  }

  function Members(component: seq<nat>): set<nat> {
    set m | m in component
  }

  /** What a pass guarantees of a component before it is settled. */
  ghost predicate SettleReady<T(!new), M(!new), P(!new)>(job: Job<T, M, P>, component: seq<nat>, componentOf: seq<nat>,
        id: nat, q: Lists) {
    && |job.active| == |job.slots| && IsComponent(job, Members(component), componentOf, id)
    && Tarjan.Ascending(component)
    && (forall k :: 0 <= k < |component| ==> component[k] < |job.slots|)
    && (|component| > 1 ==> forall m {:trigger m in component} :: m in component ==> Active(job, m))
  }

  ghost function Total(counts: seq<nat>): nat {
    if counts == [] then 0 else Total(counts[..|counts| - 1]) + counts[|counts| - 1]
  }

  lemma {:induction false} TotalOneMore(counts: seq<nat>, f: nat)
    requires f < |counts|
    ensures Total(counts[f := counts[f] + 1]) == Total(counts) + 1
  {
    var more := counts[f := counts[f] + 1];
    if f < |counts| - 1 {
      TotalOneMore(counts[..|counts| - 1], f);
      assert more[..|counts| - 1] == counts[..|counts| - 1][f := counts[f] + 1];
    } else {
      assert more[..|counts| - 1] == counts[..|counts| - 1];
    }
  }

  lemma MembersAreDistinct<T(!new), M(!new), P(!new)>(job: Job<T, M, P>, component: seq<nat>)
    requires JobOk(job) && Tarjan.Ascending(component) && forall m :: m in Members(component) ==> m < |job.slots|
    ensures forall k :: 0 <= k < |component| ==> component[k] < |job.slots| && job.slots[component[k]] < job.slotCount
    ensures forall i, j :: 0 <= i < j < |component| ==> job.slots[component[i]] != job.slots[component[j]]
    ensures MemberSlots(job, component) == set m | m in Members(component) :: job.slots[m]
  {
    forall k | 0 <= k < |component| ensures component[k] < |job.slots| {
      assert component[k] in Members(component);
    }
    forall i, j | 0 <= i < j < |component| ensures job.slots[component[i]] != job.slots[component[j]] {
      OtherSlot(job.slots, component[i], component[j]);
    }
    forall s ensures s in MemberSlots(job, component) <==> s in set m | m in Members(component) :: job.slots[m] {
      if s in set m | m in Members(component) :: job.slots[m] {
        var m :| m in Members(component) && job.slots[m] == s;
        var k :| 0 <= k < |component| && component[k] == m;
      }
      if s in MemberSlots(job, component) {
        var k :| 0 <= k < |component| && job.slots[component[k]] == s;
        assert component[k] in Members(component);
      }
    }
  }

  lemma WokenAllGrows(q: Lists, changed: seq<nat>, componentOf: seq<nat>, id: nat, widen: bool, members: set<nat>)
    requires InTable(changed, |q.callers|)
    requires forall s, c {:trigger c in q.callers[s]} :: 0 <= s < |q.callers| && c in q.callers[s] ==> c < |componentOf|
    requires forall m: nat {:trigger m in members} :: m in members <==> m < |componentOf| && componentOf[m] == id
    ensures q.pending <= WokenAll(q, changed, componentOf, id, widen).pending
    ensures WokenAll(q, changed, componentOf, id, widen).queue <= q.queue + members
  {
    if changed != [] {
      WokenAllGrows(q, changed[..|changed| - 1], componentOf, id, widen, members);
    }
  }

  lemma Postpone<T(!new), M(!new), P(!new)>(job: Job<T, M, P>, start: World<T, M, P>, passStart: World<T, M, P>,
        w: World<T, M, P>, q: Lists, widened: set<nat>, stuck: seq<nat>)
    requires JobOk(job) && WorldOk(job, start) && Steady(job, start, passStart, w, q, widened)
    requires forall k :: 0 <= k < |stuck| ==> stuck[k] < |job.slots| && job.slots[stuck[k]] in w.bottom
    ensures Steady(job, start, passStart, w, q.(pending := q.pending + Members(stuck)), widened)
  {
    Open(job, start, passStart, w, q, widened);
    forall m | m in stuck ensures Active(job, m) {
      assert ActiveSlot(job, job.slots[m]);
      var f: nat :| Active(job, f) && f < |job.slots| && job.slots[f] == job.slots[m];
      Owner(job.slots, f, m);
    }
  }

  ghost predicate OwnersOk<T(!new), M(!new), P(!new)>(job: Job<T, M, P>, owners: seq<seq<nat>>) {
    && |owners| == job.slotCount
    && forall s, v: nat {:trigger v in owners[s]} :: 0 <= s < |owners| ==>
      (v in owners[s] <==> v < |job.slots| && job.slots[v] == s)
  }

  ghost predicate ReadGraph<T(!new), M(!new), P(!new)>(job: Job<T, M, P>, callers: seq<set<nat>>, g: Graph)
    requires |callers| == job.slotCount && forall i :: 0 <= i < |job.slots| ==> job.slots[i] < job.slotCount
  {
    && |g| == |job.slots|
    && forall r, v: nat {:trigger v in g[r]} :: 0 <= r < |g| ==>
      (v in g[r] <==> v < |job.slots| && r in callers[job.slots[v]])
  }

  /** Nonempty ascending lists of functions with no function in two of them. */
  ghost predicate Disjoint(components: seq<seq<nat>>, n: nat) {
    && (forall k {:trigger components[k]} :: 0 <= k < |components| ==>
          && components[k] != [] && Tarjan.Ascending(components[k])
          && forall j :: 0 <= j < |components[k]| ==> components[k][j] < n)
    && (forall i, j, v: nat {:trigger v in components[i], v in components[j]} ::
          0 <= i < |components| && 0 <= j < |components| && v in components[i] && v in components[j] ==> i == j)
  }

  ghost function Sizes(components: seq<seq<nat>>): nat {
    if components == [] then 0 else Sizes(components[..|components| - 1]) + |components[|components| - 1]|
  }

  ghost function Union(components: seq<seq<nat>>): set<nat> {
    if components == [] then {} else Union(components[..|components| - 1]) + Members(components[|components| - 1])
  }

  lemma {:induction false} InUnion(components: seq<seq<nat>>, v: nat)
    ensures v in Union(components) <==> Tarjan.Listed(components, v)
  {
    if components != [] {
      var rest := components[..|components| - 1];
      InUnion(rest, v);
      if Tarjan.Listed(components, v) {
        var k :| 0 <= k < |components| && v in components[k];
        assert k < |rest| ==> rest[k] == components[k];
      }
      if Tarjan.Listed(rest, v) {
        var k :| 0 <= k < |rest| && v in rest[k];
        assert components[k] == rest[k];
      }
    }
  }

  lemma {:induction false} MembersSize(component: seq<nat>)
    requires Tarjan.Ascending(component)
    ensures |Members(component)| == |component|
  {
    if component != [] {
      var rest, last := component[..|component| - 1], component[|component| - 1];
      MembersSize(rest);
      assert component == rest + [last];
      assert Members(component) == Members(rest) + {last};
    }
  }

  lemma {:induction false} RangeSize(s: set<nat>, n: nat)
    requires forall x :: x in s ==> x < n
    ensures |s| <= n
  {
    if n > 0 {
      RangeSize(s - {n - 1}, n - 1);
    } else {
      assert s == {};
    }
  }

  /** The first `k` components have at most `n` members between them. */
  lemma {:induction false} DisjointUnion(components: seq<seq<nat>>, k: nat, n: nat)
    requires Disjoint(components, n) && k <= |components|
    ensures |Union(components[..k])| == Sizes(components[..k]) && k <= Sizes(components[..k])
    ensures forall v :: v in Union(components[..k]) ==> v < n
  {
    if k > 0 {
      DisjointUnion(components, k - 1, n);
      var rest, last := components[..k - 1], components[k - 1];
      assert components[..k][..k - 1] == rest;
      MembersSize(last);
      forall v | v in Members(last) ensures v !in Union(rest) && v < n {
        InUnion(rest, v);
        assert v in components[k - 1];
        forall j | 0 <= j < |rest| ensures v !in rest[j] {
          assert rest[j] == components[j];
        }
      }
    }
  }

  lemma DisjointSize(components: seq<seq<nat>>, k: nat, n: nat)
    requires Disjoint(components, n) && k <= |components|
    ensures k <= Sizes(components[..k]) <= n
  {
    DisjointUnion(components, k, n);
    RangeSize(Union(components[..k]), n);
  }

  // ---------------------------------------------------------------------------------------------
  // Progress through the components of a pass
  // ---------------------------------------------------------------------------------------------

  ghost predicate PassReady<T(!new), M(!new), P(!new)>(job: Job<T, M, P>, components: seq<seq<nat>>, firstPass: bool) {
    && Disjoint(components, |job.slots|)
    && (forall k {:trigger components[k]} :: 0 <= k < |components| ==>
          (firstPass ==> |components[k]| == 1) &&
          (|components[k]| > 1 ==> forall m {:trigger m in components[k]} :: m in components[k] ==> Active(job, m)))
  }

  /** `v` is in one of the first `id` components. */
  ghost predicate Before(components: seq<seq<nat>>, id: nat, v: nat) {
    exists k :: 0 <= k < id && k < |components| && v in components[k]
  }

  lemma BeforeNext(components: seq<seq<nat>>, n: nat, id: nat, v: nat)
    requires Disjoint(components, n) && id < |components|
    ensures Before(components, id + 1, v) <==> Before(components, id, v) || v in components[id]
    ensures v in components[id] ==> !Before(components, id, v)
  {
    if v in components[id] { assert Before(components, id + 1, v); }
    if Before(components, id, v) {
      var k :| 0 <= k < id && v in components[k];
      assert k < id + 1 && Before(components, id + 1, v);
    }
  }

  /** Functions of the settled components are off bottom, or the first pass has postponed them. */
  ghost predicate BottomPostponed<T(!new), M(!new), P(!new)>(job: Job<T, M, P>, components: seq<seq<nat>>, id: nat,
        bottom: set<nat>, firstPass: bool, pending: set<nat>) {
    forall v: nat {:trigger Before(components, id, v)} ::
      v < |job.slots| && Before(components, id, v) && job.slots[v] in bottom ==>
      firstPass && v in pending
  }

  ghost predicate StillPending(components: seq<seq<nat>>, id: nat, initial: set<nat>, pending: set<nat>) {
    forall v {:trigger v in pending} :: v in initial && !Before(components, id, v) ==> v in pending
  }

  lemma NextPostponed<T(!new), M(!new), P(!new)>(job: Job<T, M, P>, components: seq<seq<nat>>, id: nat,
        bottom: set<nat>, bottom': set<nat>, firstPass: bool, initial: set<nat>, pending: set<nat>, pending': set<nat>)
    requires Disjoint(components, |job.slots|) && id < |components| && bottom' <= bottom
    requires BottomPostponed(job, components, id, bottom, firstPass, pending)
    requires StillPending(components, id, initial, pending)
    requires pending - Members(components[id]) <= pending'
    requires forall k :: 0 <= k < |components[id]| && job.slots[components[id][k]] in bottom' ==>
      firstPass && components[id][k] in pending'
    ensures BottomPostponed(job, components, id + 1, bottom', firstPass, pending')
    ensures StillPending(components, id + 1, initial, pending')
  {
    forall v: nat | v < |job.slots| && Before(components, id + 1, v) && job.slots[v] in bottom'
      ensures firstPass && v in pending'
    {
      BeforeNext(components, |job.slots|, id, v);
      if v in components[id] {
        var k :| 0 <= k < |components[id]| && components[id][k] == v;
      } else {
        assert Before(components, id, v) && v in pending;
      }
    }
    forall v | v in initial && !Before(components, id + 1, v) ensures v in pending' {
      BeforeNext(components, |job.slots|, id, v);
      assert v in pending;
    }
  }

  // ---------------------------------------------------------------------------------------------
  // Fixed, acyclic reads
  // ---------------------------------------------------------------------------------------------

  /** The slots each function reads in every table, and a rank that falls along reads. */
  datatype Flat = Flat(deps: seq<set<nat>>, rank: seq<nat>)

  ghost predicate DependsOn<T(!new), M(!new), P(!new)>(job: Job<T, M, P>, flat: Flat, f: nat, v: nat) {
    f < |job.slots| && v < |job.slots| && f < |flat.deps| && job.slots[v] in flat.deps[f]
  }

  ghost predicate IsFlat<T(!new), M(!new), P(!new)>(job: Job<T, M, P>, flat: Flat) {
    && |flat.deps| == |flat.rank| == |job.slots|
    && Unattached(job)
    && (forall f: nat, w {:trigger job.refine(f, w)} :: f < |job.slots| ==>
         SlotSet(job.refine(f, w).seen) == flat.deps[f])
    && (forall f: nat, v: nat {:trigger DependsOn(job, flat, f, v)} :: DependsOn(job, flat, f, v) ==>
         flat.rank[v] < flat.rank[f])
  }

  lemma FlatSelfFree<T(!new), M(!new), P(!new)>(job: Job<T, M, P>, flat: Flat, i: nat)
    requires IsFlat(job, flat) && i < |job.slots|
    ensures SelfFree(job, i)
  {
    assert !DependsOn(job, flat, i, i);
    forall w ensures job.slots[i] !in job.refine(i, w).seen {
      assert SlotSet(job.refine(i, w).seen) == flat.deps[i];
    }
  }

  /** A first pass over every function that is in scope, with no reads known yet. */
  ghost predicate FirstFlatReady<T(!new), M(!new), P(!new)>(job: Job<T, M, P>, flat: Flat, components: seq<seq<nat>>,
        firstPass: bool, q: Lists) {
    && firstPass && IsFlat(job, flat)
    && (forall s, c {:trigger c in q.callers[s]} :: 0 <= s < |q.callers| ==> c !in q.callers[s])
    && (forall k {:trigger components[k]} :: 0 <= k < |components| ==>
         components[k] != [] && components[k][0] in q.pending)
  }

  /** Each function reached so far was refined once and its reads are recorded. */
  ghost predicate FirstFlat<T(!new), M(!new), P(!new)>(job: Job<T, M, P>, flat: Flat, components: seq<seq<nat>>,
        id: nat, q: Lists, counts0: seq<nat>, counts: seq<nat>) {
    && |flat.deps| == |counts0| == |counts| == |job.slots|
    && (forall s, c: nat {:trigger c in q.callers[s]} :: 0 <= s < |q.callers| ==>
          (c in q.callers[s] <==> c < |job.slots| && Before(components, id, c) && s in flat.deps[c]))
    && (forall f: nat {:trigger counts[f]} :: f < |job.slots| ==>
         counts[f] == counts0[f] + if Before(components, id, f) then 1 else 0)
  }

  lemma FirstFlatAlone<T(!new), M(!new), P(!new)>(job: Job<T, M, P>, flat: Flat, components: seq<seq<nat>>, id: nat,
        w: World<T, M, P>, q: Lists, counts0: seq<nat>, counts: seq<nat>, lists: Lists)
    requires JobOk(job) && WorldOk(job, w) && ListsOk(job, q) && PassReady(job, components, true) && id < |components|
    requires FirstFlatReady(job, flat, components, true, lists)
    requires FirstFlat(job, flat, components, id, q, counts0, counts)
    requires StillPending(components, id, lists.pending, q.pending)
    ensures AloneEnds(job, components[id], w, q, true) && components[id][0] in q.pending
  {
    var i := components[id][0];
    assert i in components[id];
    BeforeNext(components, |job.slots|, id, i);
    FlatSelfFree(job, flat, i);
    assert WalkOk(job, i, w);
  }

  lemma FirstFlatStep<T(!new), M(!new), P(!new)>(job: Job<T, M, P>, flat: Flat, components: seq<seq<nat>>,
        componentOf: seq<nat>, id: nat, w: World<T, M, P>, q: Lists, counts0: seq<nat>, counts: seq<nat>,
        w': World<T, M, P>, q': Lists, counts': seq<nat>)
    requires JobOk(job) && WorldOk(job, w) && ListsOk(job, q) && PassReady(job, components, true) && id < |components|
    requires Placed(job, componentOf)
    requires IsFlat(job, flat) && FirstFlat(job, flat, components, id, q, counts0, counts)
    requires AloneEnds(job, components[id], w, q, true) && components[id][0] in q.pending
    requires AloneDone(job, components[id], componentOf, id, w, q, counts, true, w', q', counts')
    ensures FirstFlat(job, flat, components, id + 1, q', counts0, counts')
  {
    var i := components[id][0];
    assert components[id] == [i];
    var seen := job.refine(i, w).seen;
    assert q'.callers == Recorded(q.callers, seen, i);
    assert SlotSet(seen) == flat.deps[i];
    forall c: nat ensures Before(components, id + 1, c) <==> Before(components, id, c) || c == i
                  ensures c == i ==> !Before(components, id, c)
    {
      BeforeNext(components, |job.slots|, id, c);
    }
    forall s, c: nat | 0 <= s < |q'.callers|
      ensures c in q'.callers[s] <==> c < |job.slots| && Before(components, id + 1, c) && s in flat.deps[c]
    {
      assert c in q.callers[s] <==> c < |job.slots| && Before(components, id, c) && s in flat.deps[c];
    }
  }

  /** Every function's reads are known. */
  ghost predicate FlatCallers<T(!new), M(!new), P(!new)>(job: Job<T, M, P>, flat: Flat, callers: seq<set<nat>>)
    requires |flat.deps| == |job.slots|
  {
    && |callers| == job.slotCount
    && forall s, c: nat {:trigger c in callers[s]} :: 0 <= s < |callers| ==>
         (c in callers[s] <==> c < |job.slots| && Active(job, c) && s in flat.deps[c])
  }

  /** One function in each component, every one after the functions it reads. */
  ghost predicate FlatOrder<T(!new), M(!new), P(!new)>(job: Job<T, M, P>, flat: Flat, components: seq<seq<nat>>) {
    && (forall k {:trigger components[k]} :: 0 <= k < |components| ==> |components[k]| == 1)
    && (forall v {:trigger Tarjan.Listed(components, v)} :: 0 <= v < |job.slots| ==> Tarjan.Listed(components, v))
    && (forall f: nat, v: nat, i, j {:trigger DependsOn(job, flat, f, v), components[i], components[j]} ::
          (Active(job, f) && DependsOn(job, flat, f, v) && 0 <= i < |components| && 0 <= j < |components| &&
           f in components[i] && v in components[j]) ==> j < i)
  }

  ghost predicate SecondFlatReady<T(!new), M(!new), P(!new)>(job: Job<T, M, P>, flat: Flat, components: seq<seq<nat>>,
        firstPass: bool, q: Lists, bottom: set<nat>) {
    && !firstPass && IsFlat(job, flat) && FlatCallers(job, flat, q.callers) && FlatOrder(job, flat, components)
    && (forall v: nat {:trigger v in q.pending} :: v < |job.slots| && job.slots[v] in bottom ==> v in q.pending)
  }

  /** Functions reached in this pass are final; the others have not been refined in it. */
  ghost predicate SecondFlat<T(!new), M(!new), P(!new)>(job: Job<T, M, P>, flat: Flat, components: seq<seq<nat>>,
        id: nat, q: Lists, bottom: set<nat>, counts0: seq<nat>, counts: seq<nat>) {
    && |flat.deps| == |counts0| == |counts| == |job.slots| && FlatCallers(job, flat, q.callers)
    && (forall v: nat {:trigger Before(components, id, v)} :: v < |job.slots| && Before(components, id, v) ==>
          v !in q.pending && job.slots[v] !in bottom && counts[v] <= counts0[v] + 1)
    && (forall v: nat {:trigger Before(components, id, v)} :: v < |job.slots| && !Before(components, id, v) ==>
          counts[v] == counts0[v] && (job.slots[v] in bottom ==> v in q.pending))
  }

  /** The functions that `i` reads are final when its component is reached. */
  lemma SecondFlatDeps<T(!new), M(!new), P(!new)>(job: Job<T, M, P>, flat: Flat, components: seq<seq<nat>>, id: nat,
        w: World<T, M, P>, q: Lists, counts0: seq<nat>, counts: seq<nat>, s: nat)
    requires JobOk(job) && IsFlat(job, flat) && FlatOrder(job, flat, components) && BottomActive(job, w)
    requires Disjoint(components, |job.slots|) && id < |components|
    requires SecondFlat(job, flat, components, id, q, w.bottom, counts0, counts)
    requires Active(job, components[id][0]) && s in flat.deps[components[id][0]]
    ensures s !in w.bottom
  {
    var i := components[id][0];
    if s in w.bottom {
      var u: nat :| Active(job, u) && u < |job.slots| && job.slots[u] == s;
      assert DependsOn(job, flat, i, u);
      assert Tarjan.Listed(components, u);
      var j :| 0 <= j < |components| && u in components[j];
      assert i in components[id];
      assert Before(components, id, u);
    }
  }

  lemma SecondFlatAlone<T(!new), M(!new), P(!new)>(job: Job<T, M, P>, flat: Flat, components: seq<seq<nat>>, id: nat,
        start: World<T, M, P>, passStart: World<T, M, P>, w: World<T, M, P>, q: Lists, widened: set<nat>,
        counts0: seq<nat>, counts: seq<nat>)
    requires JobOk(job) && WorldOk(job, start) && Steady(job, start, passStart, w, q, widened)
    requires IsFlat(job, flat) && FlatOrder(job, flat, components) && Disjoint(components, |job.slots|)
    requires id < |components|
    requires SecondFlat(job, flat, components, id, q, w.bottom, counts0, counts)
    ensures WorldOk(job, w) && ListsOk(job, q) && AloneEnds(job, components[id], w, q, false)
  {
    Open(job, start, passStart, w, q, widened);
    var i := components[id][0];
    assert i in components[id];
    BeforeNext(components, |job.slots|, id, i);
    FlatSelfFree(job, flat, i);
    assert WalkOk(job, i, w);
    assert !DependsOn(job, flat, i, i);
    if i in q.pending {
      var seen := job.refine(i, w).seen;
      assert SlotSet(seen) == flat.deps[i];
      forall s | s in seen ensures s !in w.bottom {
        SecondFlatDeps(job, flat, components, id, w, q, counts0, counts, s);
      }
    } else {
      assert !Before(components, id, i);
    }
  }

  lemma SecondFlatCallers<T(!new), M(!new), P(!new)>(job: Job<T, M, P>, flat: Flat, w: World<T, M, P>, q: Lists, i: nat)
    requires JobOk(job) && IsFlat(job, flat) && FlatCallers(job, flat, q.callers) && Active(job, i) && WalkOk(job, i, w)
    ensures Recorded(q.callers, job.refine(i, w).seen, i) == q.callers
  {
    assert SlotSet(job.refine(i, w).seen) == flat.deps[i];
    forall s | 0 <= s < |q.callers| ensures Recorded(q.callers, job.refine(i, w).seen, i)[s] == q.callers[s] {
      assert i in q.callers[s] <==> s in flat.deps[i];
    }
  }

  /** Refining `i` in the second pass wakes only functions not reached yet. */
  lemma SecondFlatPending<T(!new), M(!new), P(!new)>(job: Job<T, M, P>, flat: Flat, components: seq<seq<nat>>,
        componentOf: seq<nat>, id: nat, w: World<T, M, P>, q: Lists, counts0: seq<nat>, counts: seq<nat>, v: nat)
    requires JobOk(job) && WorldOk(job, w) && ListsOk(job, q) && Placed(job, componentOf)
    requires IsFlat(job, flat) && FlatOrder(job, flat, components) && Disjoint(components, |job.slots|)
    requires id < |components|
    requires SecondFlat(job, flat, components, id, q, w.bottom, counts0, counts)
    requires AloneEnds(job, components[id], w, q, false)
    requires v < |job.slots|
    ensures var q' := AloneLists(job, w, q, components[id][0], componentOf, id, false);
      && q'.callers == q.callers
      && (Before(components, id + 1, v) ==> v !in q'.pending)
      && (!Before(components, id + 1, v) && v in q.pending ==> v in q'.pending)
  {
    var i := components[id][0];
    assert components[id] == [i];
    BeforeNext(components, |job.slots|, id, v);
    if i in q.pending {
      SecondFlatCallers(job, flat, w, q, i);
      if v in q.callers[job.slots[i]] {
        assert DependsOn(job, flat, v, i);
        assert Tarjan.Listed(components, v);
        var k :| 0 <= k < |components| && v in components[k];
        assert i in components[id];
        assert id < k;
        NotBefore(components, |job.slots|, id + 1, k, v);
      }
    }
  }

  lemma NotBefore(components: seq<seq<nat>>, n: nat, id: nat, k: nat, v: nat)
    requires Disjoint(components, n) && id <= k < |components| && v in components[k]
    ensures !Before(components, id, v)
  {
  }

  lemma SecondFlatStep<T(!new), M(!new), P(!new)>(job: Job<T, M, P>, flat: Flat, components: seq<seq<nat>>,
        componentOf: seq<nat>, id: nat, w: World<T, M, P>, q: Lists, counts0: seq<nat>, counts: seq<nat>,
        w': World<T, M, P>, q': Lists, counts': seq<nat>)
    requires JobOk(job) && WorldOk(job, w) && ListsOk(job, q) && Placed(job, componentOf)
    requires IsFlat(job, flat) && FlatOrder(job, flat, components) && Disjoint(components, |job.slots|)
    requires id < |components|
    requires SecondFlat(job, flat, components, id, q, w.bottom, counts0, counts)
    requires AloneEnds(job, components[id], w, q, false)
    requires AloneDone(job, components[id], componentOf, id, w, q, counts, false, w', q', counts')
    ensures SecondFlat(job, flat, components, id + 1, q', w'.bottom, counts0, counts')
  {
    var i := components[id][0];
    assert components[id] == [i];
    assert i in components[id];
    forall v: nat | v < |job.slots|
      ensures Before(components, id + 1, v) ==>
        v !in q'.pending && job.slots[v] !in w'.bottom && counts'[v] <= counts0[v] + 1
      ensures !Before(components, id + 1, v) ==>
        counts'[v] == counts0[v] && (job.slots[v] in w'.bottom ==> v in q'.pending)
    {
      SecondFlatPending(job, flat, components, componentOf, id, w, q, counts0, counts, v);
      BeforeNext(components, |job.slots|, id, v);
      assert Before(components, id, v) || !Before(components, id, v);
    }
    SecondFlatPending(job, flat, components, componentOf, id, w, q, counts0, counts, i);
  }

  // ---------------------------------------------------------------------------------------------
  // The components of a pass
  // ---------------------------------------------------------------------------------------------

  /** One component for each pending function below `n`, in order. */
  function Singles(pending: set<nat>, n: nat): seq<seq<nat>> {
    if n == 0 then [] else Singles(pending, n - 1) + if n - 1 in pending then [[n - 1]] else []
  }

  lemma {:induction false} SinglesShape(pending: set<nat>, n: nat)
    ensures forall k {:trigger Singles(pending, n)[k]} :: 0 <= k < |Singles(pending, n)| ==>
              |Singles(pending, n)[k]| == 1 && Singles(pending, n)[k][0] < n
    ensures forall i, j {:trigger Singles(pending, n)[i], Singles(pending, n)[j]} ::
      0 <= i < j < |Singles(pending, n)| ==>
              Singles(pending, n)[i][0] < Singles(pending, n)[j][0]
  {
    if n > 0 { SinglesShape(pending, n - 1); }
  }

  lemma {:induction false} SinglesListed(pending: set<nat>, n: nat, v: nat)
    ensures Tarjan.Listed(Singles(pending, n), v) <==> v < n && v in pending
  {
    if n > 0 {
      SinglesListed(pending, n - 1, v);
      var all, rest := Singles(pending, n), Singles(pending, n - 1);
      if Tarjan.Listed(rest, v) {
        var k :| 0 <= k < |rest| && v in rest[k];
        assert v in all[k];
      }
      if v == n - 1 && v in pending { assert v in all[|rest|]; }
    }
  }

  lemma SinglesReady<T(!new), M(!new), P(!new)>(job: Job<T, M, P>, pending: set<nat>)
    requires forall f :: f in pending ==> f < |job.slots|
    ensures PassReady(job, Singles(pending, |job.slots|), true)
    ensures forall v: nat {:trigger Tarjan.Listed(Singles(pending, |job.slots|), v)} ::
              Tarjan.Listed(Singles(pending, |job.slots|), v) <==> v in pending
  {
    var n := |job.slots|;
    SinglesShape(pending, n);
    forall v: nat ensures Tarjan.Listed(Singles(pending, n), v) <==> v in pending {
      SinglesListed(pending, n, v);
    }
    forall i, j, v: nat | 0 <= i < |Singles(pending, n)| && 0 <= j < |Singles(pending, n)|
      && v in Singles(pending, n)[i] && v in Singles(pending, n)[j]
      ensures i == j
    {
      assert v == Singles(pending, n)[i][0] == Singles(pending, n)[j][0];
    }
  }

  /** A function that shares its component reads something, so it was refined: it is in scope. */
  lemma GraphComponentsReady<T(!new), M(!new), P(!new)>(job: Job<T, M, P>, q: Lists, g: Graph,
        components: seq<seq<nat>>)
    requires JobOk(job) && ListsOk(job, q) && ReadGraph(job, q.callers, g)
    requires Tarjan.Partition(components, |g|) && Tarjan.StronglyConnected(g, components)
    ensures PassReady(job, components, false)
  {
    forall k | 0 <= k < |components| ensures forall j :: 0 <= j < |components[k]| ==> components[k][j] < |job.slots| {
      assert forall j :: 0 <= j < |components[k]| ==> components[k][j] in components[k];
    }
    forall k, m | 0 <= k < |components| && |components[k]| > 1 && m in components[k] ensures Active(job, m) {
      var other := if components[k][0] == m then components[k][1] else components[k][0];
      assert other in components[k] && other != m;
      assert Reaches(g, m, other);
      var p :| PathBetween(g, p, m, other);
      assert Step(g, p, 0);
      assert m in q.callers[job.slots[p[1]]];
    }
  }

  /** With acyclic reads no two functions reach each other, and each component comes after what it reads. */
  lemma GraphComponentsFlat<T(!new), M(!new), P(!new)>(job: Job<T, M, P>, q: Lists, g: Graph,
        components: seq<seq<nat>>, flat: Flat)
    requires JobOk(job) && ListsOk(job, q) && ReadGraph(job, q.callers, g) && IsFlat(job, flat)
    requires FlatCallers(job, flat, q.callers)
    requires Tarjan.Partition(components, |g|) && Tarjan.StronglyConnected(g, components)
    requires Tarjan.AfterDependencies(g, components)
    ensures FlatOrder(job, flat, components)
  {
    forall k | 0 <= k < |components| ensures |components[k]| == 1 {
      if |components[k]| > 1 {
        var u, v := components[k][0], components[k][1];
        assert u in components[k] && v in components[k];
        FlatReaches(job, q, g, flat, u, v);
        FlatReaches(job, q, g, flat, v, u);
      }
    }
    forall f: nat, v: nat, i, j | Active(job, f) && DependsOn(job, flat, f, v) && 0 <= i < |components|
      && 0 <= j < |components| && f in components[i] && v in components[j]
      ensures j < i
    {
      assert f in q.callers[job.slots[v]];
      assert v in g[f];
      var e :| 0 <= e < |g[f]| && g[f][e] == v;
      ReadGraphInRange(job, q.callers, g);
      ReachesEdge(g, f, e);
      if i == j { FlatReaches(job, q, g, flat, v, f); }
    }
  }

  lemma ReadGraphInRange<T(!new), M(!new), P(!new)>(job: Job<T, M, P>, callers: seq<set<nat>>, g: Graph)
    requires JobOk(job) && |callers| == job.slotCount && ReadGraph(job, callers, g)
    ensures InRange(g)
  {
    forall v, i | 0 <= v < |g| && 0 <= i < |g[v]| ensures g[v][i] < |g| {
      assert g[v][i] in g[v];
    }
  }

  lemma FlatReaches<T(!new), M(!new), P(!new)>(job: Job<T, M, P>, q: Lists, g: Graph, flat: Flat, u: nat, v: nat)
    requires JobOk(job) && ListsOk(job, q) && ReadGraph(job, q.callers, g) && IsFlat(job, flat)
    requires FlatCallers(job, flat, q.callers)
    requires Reaches(g, u, v)
    ensures u < |job.slots| && v < |job.slots| && flat.rank[v] <= flat.rank[u]
    ensures (u != v ==> flat.rank[v] < flat.rank[u])
  {
    var p :| PathBetween(g, p, u, v);
    FlatPath(job, q, g, flat, p);
  }

  lemma {:induction false} FlatPath<T(!new), M(!new), P(!new)>(job: Job<T, M, P>, q: Lists, g: Graph, flat: Flat,
        p: seq<nat>)
    requires JobOk(job) && ListsOk(job, q) && ReadGraph(job, q.callers, g) && IsFlat(job, flat)
    requires FlatCallers(job, flat, q.callers)
    requires Path(g, p)
    ensures p[0] < |job.slots| && p[|p| - 1] < |job.slots|
    ensures flat.rank[p[|p| - 1]] <= flat.rank[p[0]] && (|p| > 1 ==> flat.rank[p[|p| - 1]] < flat.rank[p[0]])
    decreases |p|
  {
    if |p| > 1 {
      var rest := p[1..];
      assert Step(g, p, 0);
      forall i | 0 <= i < |rest| - 1 ensures Step(g, rest, i) {
        assert Step(g, p, i + 1);
      }
      FlatPath(job, q, g, flat, rest);
      assert p[0] in q.callers[job.slots[p[1]]];
      assert DependsOn(job, flat, p[0], p[1]);
    }
  }

  // ---------------------------------------------------------------------------------------------
  // Between passes
  // ---------------------------------------------------------------------------------------------

  /**
   * What must be pending once the metadata went from `w` to `w'` and packages may have been attached since `passStart`.
   */
  ghost predicate Covers<T(!new), M(!new), P(!new)>(job: Job<T, M, P>, passStart: World<T, M, P>, w: World<T, M, P>,
        q: Lists, w': World<T, M, P>, q': Lists)
    requires JobOk(job) && WorldOk(job, w) && WorldOk(job, w') && |q.callers| == job.slotCount
  {
    && q'.callers == q.callers && q'.queue == q.queue == {} && q.pending <= q'.pending
    && (forall f {:trigger f in q'.pending} :: f in q'.pending ==> Active(job, f))
    && (forall f: nat {:trigger job.slots[f]} :: Active(job, f) && w.metas[job.slots[f]] != w'.metas[job.slots[f]] ==>
         f in q'.pending)
    && (forall s, f {:trigger f in q.callers[s]} ::
          0 <= s < job.slotCount && w.metas[s] != w'.metas[s] && f in q.callers[s] ==> f in q'.pending)
    && (w.loaded != passStart.loaded || w.bare != passStart.bare ==>
          forall f: nat {:trigger f in q'.pending} :: Active(job, f) ==> f in q'.pending)
  }

  lemma NothingChanged<M>(before: seq<M>, between: seq<M>, after: seq<M>, changed: set<nat>)
    requires |before| == |between| == |after|
    requires changed == set s | 0 <= s < |before| && (between[s] != before[s] || after[s] != between[s])
    requires changed == {}
    ensures before == between == after
  {
    forall s | 0 <= s < |before| ensures between[s] == before[s] && after[s] == between[s] {
      assert s !in changed;
    }
  }

  lemma MetadataElsewhere<T(!new), M(!new), P(!new)>(job: Job<T, M, P>, w: World<T, M, P>, q: Lists,
        w': World<T, M, P>, f: nat)
    requires JobOk(job) && WorldOk(job, w) && WorldOk(job, w') && |q.callers| == job.slotCount && f < |job.slots|
    requires w' == w.(metas := w'.metas) && WalkOk(job, f, w) && Settled(job, w, q.callers, f)
    requires w.metas[job.slots[f]] == w'.metas[job.slots[f]]
    requires forall s :: 0 <= s < job.slotCount && w.metas[s] != w'.metas[s] ==> f !in q.callers[s]
    ensures WalkOk(job, f, w') && Settled(job, w', q.callers, f)
  {
    forall s | s in job.refine(f, w).seen ensures SlotSame(w, w', s) {
      assert f in q.callers[s];
    }
    assert SameView(job, f, w, w');
    assert WalkOk(job, f, w');
  }

  lemma EndPass<T(!new), M(!new), P(!new)>(job: Job<T, M, P>, start: World<T, M, P>, passStart: World<T, M, P>,
        w: World<T, M, P>, q: Lists, widened: set<nat>, w': World<T, M, P>, q': Lists)
    requires JobOk(job) && WorldOk(job, start) && Steady(job, start, passStart, w, q, widened)
    requires WorldOk(job, w) && WorldOk(job, w') && w' == w.(metas := w'.metas) && |q.callers| == job.slotCount
    requires Covers(job, passStart, w, q, w', q')
    ensures Steady(job, start, w', w', q', widened)
  {
    Open(job, start, passStart, w, q, widened);
    forall f | Active(job, f) && f !in q'.pending && f !in q'.queue && f !in widened
      ensures WalkOk(job, f, w') && Settled(job, w', q'.callers, f)
    {
      assert WalkOk(job, f, w);
      assert f !in q.pending;
      assert Settled(job, w, q.callers, f);
      MetadataElsewhere(job, w, q, w', f);
    }
    assert PassOk(job, start, w', w', q', widened);
  }

  /** What holds before and after every pass. */
  ghost predicate BetweenPasses<T(!new), M(!new), P(!new)>(job: Job<T, M, P>, leq: (T, T) -> bool,
        start: World<T, M, P>, w: World<T, M, P>, q: Lists, evaluationPending: bool, trace: Trace)
    requires JobOk(job) && WorldOk(job, start) && WorldOk(job, w)
  {
    && Steady(job, start, w, w, q, trace.widened) && q.queue == {}
    && (!evaluationPending ==> Evaluated(job, w))
    && BottomPending(job, w.bottom, q.pending)
    && LeastSoFar(job, leq, start, w, trace)
    && (trace.lifted || trace.widened == {})
  }

  ghost predicate BottomPending<T(!new), M(!new), P(!new)>(job: Job<T, M, P>, bottom: set<nat>, pending: set<nat>) {
    forall v: nat {:trigger v in pending} {:trigger job.slots[v]} :: v < |job.slots| && job.slots[v] in bottom ==>
      v in pending
  }

  /** No function was refined more than once. */
  ghost predicate OncePerPass(before: seq<nat>, after: seq<nat>) {
    |before| == |after| && forall f {:trigger after[f]} :: 0 <= f < |after| ==> after[f] <= before[f] + 1
  }

  lemma SameSize<A>(s: set<A>, t: set<A>)
    requires s <= t
    ensures |s| == |t| <==> s == t
  {
    if |s| == |t| {
      assert t == s + (t - s);
      assert |t| == |s| + |t - s|;
    }
  }

  lemma PassBottom<T(!new), M(!new), P(!new)>(job: Job<T, M, P>, start: World<T, M, P>, lists: Lists,
        components: seq<seq<nat>>, firstPass: bool, w0: World<T, M, P>, w: World<T, M, P>, settled: Lists, q: Lists,
        widened: set<nat>)
    requires JobOk(job) && WorldOk(job, start) && Steady(job, start, w0, w, settled, widened) && WorldOk(job, w)
    requires BottomPending(job, w0.bottom, lists.pending) && settled.pending <= q.pending && w.bottom <= w0.bottom
    requires forall v: nat {:trigger Tarjan.Listed(components, v)} ::
      v < |job.slots| && (firstPass ==> v in lists.pending) ==> Tarjan.Listed(components, v)
    requires BottomPostponed(job, components, |components|, w.bottom, firstPass, settled.pending)
    ensures BottomPending(job, w.bottom, q.pending)
    ensures !firstPass ==> w.bottom == {}
  {
    Open(job, start, w0, w, settled, widened);
    forall v: nat | v < |job.slots| && job.slots[v] in w.bottom ensures v in q.pending && firstPass {
      assert v in lists.pending;
      assert Tarjan.Listed(components, v);
      var k :| 0 <= k < |components| && v in components[k];
      assert Before(components, |components|, v);
    }
    forall s ensures s !in w.bottom || firstPass {
      if s in w.bottom {
        var v: nat :| Active(job, v) && v < |job.slots| && job.slots[v] == s;
      }
    }
  }

  lemma PassLeast<T(!new), M(!new), P(!new)>(job: Job<T, M, P>, leq: (T, T) -> bool, start: World<T, M, P>,
        w0: World<T, M, P>, w: World<T, M, P>, w': World<T, M, P>, trace: Trace)
    requires JobOk(job) && WorldOk(job, start) && LeastSoFar(job, leq, start, w, trace)
    requires Evaluated(job, w) && w.loaded == w0.loaded && w.bare == w0.bare ==> w' == w
    requires Unattached(job) ==> w.loaded == w0.loaded && w.bare == w0.bare
    ensures LeastSoFar(job, leq, start, w', trace)
  {
    if Monotone(job, leq) && Quiet(job, start) && !trace.lifted {
      assert Evaluated(job, w);
    }
  }

  // ---------------------------------------------------------------------------------------------
  // Two passes for fixed, acyclic reads
  // ---------------------------------------------------------------------------------------------

  /** Before the first pass: everyone in scope waits and no reads are known. */
  ghost predicate FlatStart<T(!new), M(!new), P(!new)>(job: Job<T, M, P>, flat: Flat, start: World<T, M, P>,
        w: World<T, M, P>, q: Lists)
    requires WorldOk(job, start)
  {
    && IsFlat(job, flat) && Evaluated(job, w)
    && (forall f {:trigger f in q.pending} :: f in q.pending <==> Active(job, f))
    && (forall s, c {:trigger c in q.callers[s]} :: 0 <= s < |q.callers| ==> c !in q.callers[s])
  }

  /** Between the two passes. */
  ghost predicate FlatMiddle<T(!new), M(!new), P(!new)>(job: Job<T, M, P>, flat: Flat, start: World<T, M, P>,
        w: World<T, M, P>, q: Lists, evaluationPending: bool) {
    IsFlat(job, flat) && Evaluated(job, w) && FlatCallers(job, flat, q.callers) && !evaluationPending
  }

  lemma FlatFirstPass<T(!new), M(!new), P(!new)>(job: Job<T, M, P>, flat: Flat, components: seq<seq<nat>>,
        start: World<T, M, P>, w0: World<T, M, P>, lists: Lists, w: World<T, M, P>, q: Lists, counts0: seq<nat>,
        counts: seq<nat>)
    requires JobOk(job) && WorldOk(job, start) && FlatStart(job, flat, start, w0, lists) && |q.callers| == job.slotCount
    requires PassReady(job, components, true) && |counts0| == |counts| == |job.slots|
    requires forall v: nat {:trigger Tarjan.Listed(components, v)} :: Tarjan.Listed(components, v) <==>
      v in lists.pending
    requires FirstFlatReady(job, flat, components, true, lists) ==>
      FirstFlat(job, flat, components, |components|, q, counts0, counts)
    ensures FirstFlatReady(job, flat, components, true, lists)
    ensures FlatCallers(job, flat, q.callers) && OncePerPass(counts0, counts)
  {
    forall k | 0 <= k < |components| ensures components[k][0] in lists.pending {
      assert components[k][0] in components[k];
      assert Tarjan.Listed(components, components[k][0]);
    }
    forall c: nat ensures Before(components, |components|, c) <==> Active(job, c) {
      assert Before(components, |components|, c) <==> Tarjan.Listed(components, c);
    }
    forall s, c: nat | 0 <= s < |q.callers|
      ensures c in q.callers[s] <==> c < |job.slots| && Active(job, c) && s in flat.deps[c]
    {
      assert c in q.callers[s] <==> c < |job.slots| && Before(components, |components|, c) && s in flat.deps[c];
    }
  }

  lemma FlatSecondPass<T(!new), M(!new), P(!new)>(job: Job<T, M, P>, flat: Flat, components: seq<seq<nat>>,
        start: World<T, M, P>, w0: World<T, M, P>, lists: Lists, w: World<T, M, P>, q: Lists, counts0: seq<nat>,
        counts: seq<nat>)
    requires JobOk(job) && FlatMiddle(job, flat, start, w0, lists, false) && |counts0| == |counts| == |job.slots|
    requires PassReady(job, components, false) && FlatOrder(job, flat, components)
    requires BottomPending(job, w0.bottom, lists.pending)
    requires forall f :: f in q.pending ==> f < |job.slots|
    requires SecondFlatReady(job, flat, components, false, lists, w0.bottom) ==>
               SecondFlat(job, flat, components, |components|, q, w.bottom, counts0, counts)
    ensures SecondFlatReady(job, flat, components, false, lists, w0.bottom)
    ensures q.pending == {} && OncePerPass(counts0, counts)
  {
    forall v: nat | v < |job.slots| ensures v !in q.pending && counts[v] <= counts0[v] + 1 {
      assert Tarjan.Listed(components, v);
      var k :| 0 <= k < |components| && v in components[k];
      assert Before(components, |components|, v);
    }
  }

  // ---------------------------------------------------------------------------------------------
  // A whole run
  // ---------------------------------------------------------------------------------------------

  /** The table a run starts from: every return in scope is at bottom. */
  ghost function Started<T(!new), M(!new), P(!new)>(job: Job<T, M, P>, w: World<T, M, P>): World<T, M, P>
    requires JobOk(job)
  {
    w.(bottom := set i | 0 <= i < |job.slots| && job.active[i] :: job.slots[i])
  }

  /**
   * With every return computed, `f`'s stored return is what refining it again gives, and refining it attaches nothing
   * new.
   */
  ghost predicate Stable<T(!new), M(!new), P(!new)>(job: Job<T, M, P>, w: World<T, M, P>, f: nat) {
    && f < |job.slots| && job.slots[f] < |w.rets|
    && Outcome(job.refine(f, w), {}, job.unknown) == Some(w.rets[job.slots[f]])
    && job.refine(f, w).loaded == w.loaded && job.refine(f, w).bare == w.bare
  }

  /** Every function in scope is stable, and no table that absorbs refinement holds less anywhere. */
  ghost predicate LeastSolution<T(!new), M(!new), P(!new)>(job: Job<T, M, P>, leq: (T, T) -> bool,
        start: World<T, M, P>, w: World<T, M, P>)
    requires WorldOk(job, start)
  {
    && w.bottom == {} && BelowSolutions(job, leq, start, w)
    && forall f {:trigger Stable(job, w, f)} :: Active(job, f) ==> Stable(job, w, f)
  }

  function ReadersOf<T, M, P>(job: Job<T, M, P>, q: Lists, v: nat): set<nat> {
    if v < |job.slots| && job.slots[v] < |q.callers| then q.callers[job.slots[v]] else {}
  }

  ghost predicate FlatSoFar<T(!new), M(!new), P(!new)>(job: Job<T, M, P>, flat: Flat, start: World<T, M, P>,
        w: World<T, M, P>, q: Lists, evaluationPending: bool, passes: nat, counts: seq<nat>)
    requires WorldOk(job, start)
  {
    && passes <= 2
    && (passes == 0 ==> FlatStart(job, flat, start, w, q))
    && (passes == 1 ==> FlatMiddle(job, flat, start, w, q, evaluationPending))
    && (passes == 2 ==> q.pending == {} && !evaluationPending)
    && (forall f {:trigger counts[f]} :: 0 <= f < |counts| ==> counts[f] <= passes)
  }

  lemma {:induction false} TotalZero(counts: seq<nat>)
    requires forall k :: 0 <= k < |counts| ==> counts[k] == 0
    ensures Total(counts) == 0
  {
    if counts != [] { TotalZero(counts[..|counts| - 1]); }
  }

  lemma StartOk<T(!new), M(!new), P(!new)>(job: Job<T, M, P>, leq: (T, T) -> bool, start: World<T, M, P>, q: Lists)
    requires JobOk(job) && WorldOk(job, start) && start == Started(job, start)
    requires q.queue == {} && q.callers == seq(job.slotCount, _ => {})
    requires q.pending == set i | 0 <= i < |job.slots| && job.active[i]
    ensures BetweenPasses(job, leq, start, start, q, true, NO_STEPS)
  {
    forall s | s in start.bottom ensures s < job.slotCount && ActiveSlot(job, s) {
      var i :| 0 <= i < |job.slots| && job.active[i] && job.slots[i] == s;
      assert Active(job, i);
    }
    assert PassOk(job, start, start, start, q, {});
    forall v: nat | v < |job.slots| && job.slots[v] in start.bottom ensures v in q.pending {
      var i :| 0 <= i < |job.slots| && job.active[i] && job.slots[i] == job.slots[v];
      Owner(job.slots, i, v);
    }
    if Monotone(job, leq) && Quiet(job, start) { StartBelow(job, leq, start); }
  }

  lemma StartBelow<T(!new), M(!new), P(!new)>(job: Job<T, M, P>, leq: (T, T) -> bool, start: World<T, M, P>)
    requires JobOk(job) && WorldOk(job, start) && start == Started(job, start) && Monotone(job, leq)
    requires Quiet(job, start)
    requires BottomActive(job, start)
    ensures BelowSolutions(job, leq, start, start)
  {
    forall x | PreSolution(job, leq, start, x) ensures WorldLeq(leq, start, x) {
      forall s | 0 <= s < |start.rets| ensures CellLeq(leq, CellOf(start, s), CellOf(x, s)) {
        if ActiveSlot(job, s) {
          var f: nat :| Active(job, f) && f < |job.slots| && job.slots[f] == s;
          assert s in start.bottom;
        }
      }
    }
  }

  /** With fixed, acyclic reads a run converges in two passes and refines nothing more than twice. */
  ghost predicate EndsFlat(converged: bool, passes: nat, trace: Trace, counts: seq<nat>) {
    converged && passes <= 2 && !trace.lifted && forall f {:trigger counts[f]} :: 0 <= f < |counts| ==> counts[f] <= 2
  }

  /** Each function's dependencies hold every function whose return it reads. */
  ghost predicate DependenciesOk<T(!new), M(!new), P(!new)>(job: Job<T, M, P>, w: World<T, M, P>, trace: Trace,
        dependencies: seq<set<nat>>) {
    && |dependencies| == |job.slots|
    && forall f: nat, v: nat {:trigger v in dependencies[f]} ::
         (f < |job.slots| && v < |job.slots| && Active(job, f) && f !in trace.widened
           && job.slots[v] in job.refine(f, w).seen) ==>
         v in dependencies[f]
  }

  lemma PassesTimes(passes: nat, n: nat)
    requires passes <= MAX_FIXPOINT_DEPTH
    ensures passes * (MAX_FIXPOINT_DEPTH * n) <= MAX_FIXPOINT_DEPTH * MAX_FIXPOINT_DEPTH * n
  {
  }

  lemma BottomIsPending<T(!new), M(!new), P(!new)>(job: Job<T, M, P>, w: World<T, M, P>, q: Lists, s: nat)
    requires BottomActive(job, w) && BottomPending(job, w.bottom, q.pending)
    ensures s in w.bottom ==> q.pending != {}
  {
    if s in w.bottom {
      var v: nat :| Active(job, v) && v < |job.slots| && job.slots[v] == s;
      assert v in q.pending;
    }
  }

  /** The end of a run: nothing is at bottom, and a run with nothing pending is stable. */
  lemma Finish<T(!new), M(!new), P(!new)>(job: Job<T, M, P>, leq: (T, T) -> bool, start: World<T, M, P>,
        w: World<T, M, P>, q: Lists, evaluationPending: bool, trace: Trace)
    requires JobOk(job) && WorldOk(job, start) && WorldOk(job, w)
    requires BetweenPasses(job, leq, start, w, q, evaluationPending, trace)
    requires w.bottom == {} || q.pending == {}
    ensures w.bottom == {} && ListsOk(job, q) && OffScope(job, start, w)
    ensures q.pending == {} ==> forall f {:trigger Stable(job, w, f)} :: Active(job, f) && f !in trace.widened ==>
      Stable(job, w, f)
    ensures q.pending == {} ==>
      DependenciesOk(job, w, trace, seq(|job.slots|, f => set v | 0 <= v < |job.slots| && f in ReadersOf(job, q, v)))
  {
    Open(job, start, w, w, q, trace.widened);
    forall s ensures s in w.bottom ==> q.pending != {} {
      BottomIsPending(job, w, q, s);
    }
    if q.pending == {} {
      forall f | Active(job, f) && f !in trace.widened ensures Stable(job, w, f) {
        assert Settled(job, w, q.callers, f);
        assert !ReadsBottom(job, w, f);
      }
      forall f: nat, v: nat | f < |job.slots| && v < |job.slots| && Active(job, f) && f !in trace.widened
        && job.slots[v] in job.refine(f, w).seen
        ensures f in ReadersOf(job, q, v)
      {
        assert Settled(job, w, q.callers, f);
      }
    }
  }
}
