/**
 * An incremental fixpoint restarts the affected functions at bottom and seeds all others with
 * their previous returns. It gives what a cold run over every function gives.
 */
module Restart {
  import opened Wrappers
  import opened Fixpoint
  import Closures

  ghost predicate AntiSymmetric<T(!new)>(leq: (T, T) -> bool) {
    forall a, b :: leq(a, b) && leq(b, a) ==> a == b
  }

  /** Every function is in scope. */
  ghost predicate Cold<T(!new), M(!new), P(!new)>(job: Job<T, M, P>) {
    JobOk(job) && forall f :: 0 <= f < |job.active| ==> job.active[f]
  }

  /** `s` belongs to an affected function. */
  ghost predicate AffectedSlot<T(!new), M(!new), P(!new)>(job: Job<T, M, P>, affected: seq<bool>, s: nat)
    requires |affected| == |job.slots|
  {
    exists f :: 0 <= f < |job.slots| && affected[f] && job.slots[f] == s
  }

  lemma NotAffected<T(!new), M(!new), P(!new)>(job: Job<T, M, P>, affected: seq<bool>, f: nat)
    requires OneOwner(job.slots) && |affected| == |job.slots| && f < |job.slots| && !affected[f]
    ensures !AffectedSlot(job, affected, job.slots[f])
  {
    forall g: nat | g < |job.slots| && affected[g] ensures job.slots[g] != job.slots[f] {
      OtherSlot(job.slots, g, f);
    }
  }

  /**
   * The edit: both programs have the same functions and slots, where a function only one of them defines reads nothing
   * in the other. An unaffected function has the same body in both, and reads no affected function as long as no more
   * is known than the previous solution knew.
   */
  ghost predicate EditOf<T(!new), M(!new), P(!new)>(old': Job<T, M, P>, new': Job<T, M, P>, affected: seq<bool>,
        leq: (T, T) -> bool, before: World<T, M, P>)
  {
    && SameProgram(old', new') && |affected| == |new'.slots|
    && (forall f: nat, w {:trigger new'.refine(f, w)} {:trigger old'.refine(f, w)} :: f < |affected| && !affected[f] ==>
          old'.refine(f, w) == new'.refine(f, w))
    && ShelteredBelow(new', affected, leq, before)
  }

  ghost predicate SameProgram<T(!new), M(!new), P(!new)>(old': Job<T, M, P>, new': Job<T, M, P>) {
    && Cold(old') && Cold(new') && Unattached(old') && Unattached(new')
    && old'.slots == new'.slots && old'.slotCount == new'.slotCount && old'.unknown == new'.unknown
  }

  ghost predicate ShelteredBelow<T(!new), M(!new), P(!new)>(job: Job<T, M, P>, affected: seq<bool>,
        leq: (T, T) -> bool, before: World<T, M, P>)
    requires |affected| == |job.slots|
  {
    forall f: nat, w {:trigger job.refine(f, w)} ::
      f < |affected| && !affected[f] && Comparable(job, leq, w, before) ==>
      Sheltered(job, affected, job.refine(f, w).seen)
  }

  ghost predicate Sheltered<T(!new), M(!new), P(!new)>(job: Job<T, M, P>, affected: seq<bool>, seen: seq<nat>)
    requires |affected| == |job.slots|
  {
    forall s :: s in seen ==> !AffectedSlot(job, affected, s)
  }

  /** The metadata agrees wherever no affected function owns the slot. */
  ghost predicate SameUnaffected<T(!new), M(!new), P(!new)>(job: Job<T, M, P>, affected: seq<bool>, w: World<T, M, P>,
        x: World<T, M, P>)
    requires |affected| == |job.slots| && WorldOk(job, w) && WorldOk(job, x)
  {
    && w.loaded == x.loaded && w.bare == x.bare
    && forall s :: 0 <= s < job.slotCount && !AffectedSlot(job, affected, s) ==> w.metas[s] == x.metas[s]
  }

  /** Tables that agree off the affected functions give an unaffected function the same result. */
  lemma SameResult<T(!new), M(!new), P(!new)>(job: Job<T, M, P>, affected: seq<bool>, w: World<T, M, P>,
        x: World<T, M, P>, f: nat)
    requires JobOk(job) && |affected| == |job.slots| && WorldOk(job, w) && WorldOk(job, x) && w.bottom == x.bottom == {}
    requires SameUnaffected(job, affected, w, x)
    requires forall s :: 0 <= s < job.slotCount && !AffectedSlot(job, affected, s) ==> w.rets[s] == x.rets[s]
    requires f < |job.slots| && !affected[f] && Sheltered(job, affected, job.refine(f, w).seen)
    ensures job.refine(f, w) == job.refine(f, x)
  {
    assert WalkOk(job, f, w);
    NotAffected(job, affected, f);
    assert SameView(job, f, w, x);
  }

  /** What a run over `scope` of `job` from `start` solved is `w`. */
  ghost predicate Solves<T(!new), M(!new), P(!new)>(job: Job<T, M, P>, scope: seq<bool>, leq: (T, T) -> bool,
        start: World<T, M, P>, w: World<T, M, P>) {
    && |scope| == |job.slots| && WorldOk(job, start) && WorldOk(job, w)
    && LeastSolution(job.(active := scope), leq, start, w)
    && forall s :: 0 <= s < job.slotCount && !ActiveSlot(job.(active := scope), s) ==> w.rets[s] == start.rets[s]
  }

  /** A previous solution, a run that restarts only the affected functions, and a cold run of the edited program. */
  ghost predicate Runs<T(!new), M(!new), P(!new)>(old': Job<T, M, P>, new': Job<T, M, P>, affected: seq<bool>,
        leq: (T, T) -> bool, oldStart: World<T, M, P>, before: World<T, M, P>, seeded: World<T, M, P>,
        warm: World<T, M, P>, coldStart: World<T, M, P>, cold: World<T, M, P>)
  {
    && EditOf(old', new', affected, leq, before) && AntiSymmetric(leq) && Monotone(old', leq) && Monotone(new', leq)
    && Solves(old', old'.active, leq, oldStart, before)
    && Solves(new', affected, leq, seeded, warm)
    && Solves(new', new'.active, leq, coldStart, cold)
    && SameMetadata(coldStart, seeded) && SameUnaffected(new', affected, oldStart, coldStart)
    // A slot no function owns starts the same in all three runs.
    && (forall s :: 0 <= s < new'.slotCount && !ActiveSlot(new', s) ==>
         oldStart.rets[s] == coldStart.rets[s] == seeded.rets[s])
    // The seeds: an unaffected function starts with its previous return.
    && (forall f :: 0 <= f < |affected| && !affected[f] ==> seeded.rets[new'.slots[f]] == before.rets[new'.slots[f]])
  }

  lemma AffectedIsActive<T(!new), M(!new), P(!new)>(job: Job<T, M, P>, affected: seq<bool>, s: nat)
    requires Cold(job) && |affected| == |job.slots|
    ensures ActiveSlot(job.(active := affected), s) <==> AffectedSlot(job, affected, s)
    ensures AffectedSlot(job, affected, s) ==> ActiveSlot(job, s)
  {
    if AffectedSlot(job, affected, s) {
      var f :| 0 <= f < |job.slots| && affected[f] && job.slots[f] == s;
      assert Active(job.(active := affected), f) && Active(job, f);
    }
    if ActiveSlot(job.(active := affected), s) {
      var f: nat :| Active(job.(active := affected), f) && f < |job.slots| && job.slots[f] == s;
      assert affected[f];
    }
  }

  /** The warm run left the unaffected slots at the previous solution. */
  lemma WarmKeepsSeeds<T(!new), M(!new), P(!new)>(old': Job<T, M, P>, new': Job<T, M, P>, affected: seq<bool>,
        leq: (T, T) -> bool, oldStart: World<T, M, P>, before: World<T, M, P>, seeded: World<T, M, P>,
        warm: World<T, M, P>, coldStart: World<T, M, P>, cold: World<T, M, P>, s: nat)
    requires Runs(old', new', affected, leq, oldStart, before, seeded, warm, coldStart, cold)
    requires s < new'.slotCount && !AffectedSlot(new', affected, s)
    ensures warm.rets[s] == before.rets[s]
  {
    AffectedIsActive(new', affected, s);
    if ActiveSlot(new', s) {
      var f: nat :| Active(new', f) && f < |new'.slots| && new'.slots[f] == s;
    } else {
      assert !ActiveSlot(old', s);
    }
  }

  /** The warm solution absorbs refinement of every function of the edited program. */
  lemma WarmAbsorbs<T(!new), M(!new), P(!new)>(old': Job<T, M, P>, new': Job<T, M, P>, affected: seq<bool>,
        leq: (T, T) -> bool, oldStart: World<T, M, P>, before: World<T, M, P>, seeded: World<T, M, P>,
        warm: World<T, M, P>, coldStart: World<T, M, P>, cold: World<T, M, P>)
    requires Runs(old', new', affected, leq, oldStart, before, seeded, warm, coldStart, cold)
    ensures PreSolution(new', leq, coldStart, warm)
  {
    forall s | 0 <= s < new'.slotCount && !AffectedSlot(new', affected, s) ensures warm.rets[s] == before.rets[s] {
      WarmKeepsSeeds(old', new', affected, leq, oldStart, before, seeded, warm, coldStart, cold, s);
    }
    forall f: nat | Active(new', f) && f < |new'.slots| && new'.slots[f] < new'.slotCount
      ensures CellLeq(leq, OutcomeCell(new', warm, f), CellOf(warm, new'.slots[f]))
    {
      if affected[f] {
        assert Active(new'.(active := affected), f);
        assert Stable(new'.(active := affected), warm, f);
      } else {
        assert Active(old', f) && Stable(old', before, f);
        assert old'.refine(f, before) == new'.refine(f, before);
        assert Comparable(new', leq, before, before);
        NotAffected(new', affected, f);
        SameResult(new', affected, before, warm, f);
      }
    }
    forall s | 0 <= s < new'.slotCount && !ActiveSlot(new', s) ensures CellOf(warm, s) == Val(coldStart.rets[s]) {
      AffectedIsActive(new', affected, s);
    }
  }

  /** The cold solution on unaffected slots, the previous solution on the others. */
  ghost function Patched<T(!new), M(!new), P(!new)>(job: Job<T, M, P>, affected: seq<bool>, before: World<T, M, P>,
        cold: World<T, M, P>): (r: World<T, M, P>)
    requires |affected| == |job.slots| && WorldOk(job, before) && WorldOk(job, cold)
    ensures WorldOk(job, r)
  {
    before.(rets := seq(job.slotCount, s requires 0 <= s < job.slotCount =>
                          if AffectedSlot(job, affected, s) then before.rets[s] else cold.rets[s]))
  }

  /** The patched table absorbs refinement of the previous program. */
  lemma PatchedAbsorbs<T(!new), M(!new), P(!new)>(old': Job<T, M, P>, new': Job<T, M, P>, affected: seq<bool>,
        leq: (T, T) -> bool, oldStart: World<T, M, P>, before: World<T, M, P>, seeded: World<T, M, P>,
        warm: World<T, M, P>, coldStart: World<T, M, P>, cold: World<T, M, P>)
    requires Runs(old', new', affected, leq, oldStart, before, seeded, warm, coldStart, cold)
    requires WorldLeq(leq, cold, warm)
    ensures PreSolution(old', leq, oldStart, Patched(new', affected, before, cold))
  {
    var patched := Patched(new', affected, before, cold);
    PatchedBelow(old', new', affected, leq, oldStart, before, seeded, warm, coldStart, cold);
    assert Comparable(old', leq, patched, before);
    forall f: nat | Active(old', f) && f < |old'.slots| && old'.slots[f] < old'.slotCount
      ensures CellLeq(leq, OutcomeCell(old', patched, f), CellOf(patched, old'.slots[f]))
    {
      if affected[f] {
        assert CellLeq(leq, OutcomeCell(old', patched, f), OutcomeCell(old', before, f));
        assert Stable(old', before, f);
        assert AffectedSlot(new', affected, new'.slots[f]);
      } else {
        assert Active(new', f) && Stable(new', cold, f);
        assert old'.refine(f, patched) == new'.refine(f, patched);
        assert Comparable(new', leq, patched, before);
        NotAffected(new', affected, f);
        SameResult(new', affected, patched, cold, f);
      }
    }
    forall s | 0 <= s < old'.slotCount && !ActiveSlot(old', s) ensures CellOf(patched, s) == Val(oldStart.rets[s]) {
      AffectedIsActive(new', affected, s);
      assert !ActiveSlot(new', s) by { SameOwners(old', new', affected, s); }
    }
  }

  lemma SameOwners<T(!new), M(!new), P(!new)>(old': Job<T, M, P>, new': Job<T, M, P>, affected: seq<bool>, s: nat)
    requires SameProgram(old', new') && |affected| == |new'.slots|
    ensures ActiveSlot(old', s) <==> ActiveSlot(new', s)
  {
    if ActiveSlot(new', s) {
      var f: nat :| Active(new', f) && f < |new'.slots| && new'.slots[f] == s;
      assert Active(old', f);
    }
    if ActiveSlot(old', s) {
      var f: nat :| Active(old', f) && f < |old'.slots| && old'.slots[f] == s;
      assert Active(new', f);
    }
  }

  lemma PatchedBelow<T(!new), M(!new), P(!new)>(old': Job<T, M, P>, new': Job<T, M, P>, affected: seq<bool>,
        leq: (T, T) -> bool, oldStart: World<T, M, P>, before: World<T, M, P>, seeded: World<T, M, P>,
        warm: World<T, M, P>, coldStart: World<T, M, P>, cold: World<T, M, P>)
    requires Runs(old', new', affected, leq, oldStart, before, seeded, warm, coldStart, cold)
    requires WorldLeq(leq, cold, warm)
    ensures WorldLeq(leq, Patched(new', affected, before, cold), before)
  {
    var patched := Patched(new', affected, before, cold);
    forall s | 0 <= s < |patched.rets| ensures CellLeq(leq, CellOf(patched, s), CellOf(before, s)) {
      if !AffectedSlot(new', affected, s) {
        WarmKeepsSeeds(old', new', affected, leq, oldStart, before, seeded, warm, coldStart, cold, s);
        assert CellLeq(leq, CellOf(cold, s), CellOf(warm, s));
      }
    }
  }

  /** The cold solution solves the warm run's problem: its unaffected slots are the seeds. */
  lemma ColdAbsorbs<T(!new), M(!new), P(!new)>(old': Job<T, M, P>, new': Job<T, M, P>, affected: seq<bool>,
        leq: (T, T) -> bool, oldStart: World<T, M, P>, before: World<T, M, P>, seeded: World<T, M, P>,
        warm: World<T, M, P>, coldStart: World<T, M, P>, cold: World<T, M, P>)
    requires Runs(old', new', affected, leq, oldStart, before, seeded, warm, coldStart, cold)
    requires forall s :: 0 <= s < new'.slotCount && !AffectedSlot(new', affected, s) ==> cold.rets[s] == warm.rets[s]
    ensures PreSolution(new'.(active := affected), leq, seeded, cold)
  {
    var job := new'.(active := affected);
    forall f: nat | Active(job, f) && f < |job.slots| && job.slots[f] < job.slotCount
      ensures CellLeq(leq, OutcomeCell(job, cold, f), CellOf(cold, job.slots[f]))
    {
      assert Active(new', f) && Stable(new', cold, f);
    }
    forall s | 0 <= s < job.slotCount && !ActiveSlot(job, s) ensures CellOf(cold, s) == Val(seeded.rets[s]) {
      AffectedIsActive(new', affected, s);
    }
  }

  /** Restarting the affected functions from the previous solution gives exactly the cold solution. */
  lemma RestartIsCold<T(!new), M(!new), P(!new)>(old': Job<T, M, P>, new': Job<T, M, P>, affected: seq<bool>,
        leq: (T, T) -> bool, oldStart: World<T, M, P>, before: World<T, M, P>, seeded: World<T, M, P>,
        warm: World<T, M, P>, coldStart: World<T, M, P>, cold: World<T, M, P>)
    requires Runs(old', new', affected, leq, oldStart, before, seeded, warm, coldStart, cold)
    ensures warm.rets == cold.rets
  {
    WarmAbsorbs(old', new', affected, leq, oldStart, before, seeded, warm, coldStart, cold);
    assert new'.(active := new'.active) == new' && old'.(active := old'.active) == old';
    assert WorldLeq(leq, cold, warm);
    PatchedAbsorbs(old', new', affected, leq, oldStart, before, seeded, warm, coldStart, cold);
    var patched := Patched(new', affected, before, cold);
    assert WorldLeq(leq, before, patched);
    forall s | 0 <= s < new'.slotCount && !AffectedSlot(new', affected, s) ensures cold.rets[s] == warm.rets[s] {
      WarmKeepsSeeds(old', new', affected, leq, oldStart, before, seeded, warm, coldStart, cold, s);
      assert CellLeq(leq, CellOf(cold, s), CellOf(warm, s)) && CellLeq(leq, CellOf(before, s), CellOf(patched, s));
    }
    ColdAbsorbs(old', new', affected, leq, oldStart, before, seeded, warm, coldStart, cold);
    assert WorldLeq(leq, warm, cold);
    forall s | 0 <= s < new'.slotCount ensures warm.rets[s] == cold.rets[s] {
      assert CellLeq(leq, CellOf(cold, s), CellOf(warm, s)) && CellLeq(leq, CellOf(warm, s), CellOf(cold, s));
    }
  }

  // ---------------------------------------------------------------------------------------------
  // The whole restart: closure, seeds, and the scoped run
  // ---------------------------------------------------------------------------------------------

  /** A function's reads were recorded, by the names of the functions that own the slots. */
  ghost predicate ReadsRecorded(names: seq<string>, slots: seq<nat>, rec: Closures.Recorded, f: nat, seen: seq<nat>)
    requires |names| == |slots| && f < |names|
  {
    forall g: nat :: g < |slots| && slots[g] in seen ==> Closures.DependsOn(rec, names[f], names[g])
  }

  /** The record holds what the functions read, as long as no more is known than the previous solution knew. */
  ghost predicate Records<T(!new), M(!new), P(!new)>(job: Job<T, M, P>, names: seq<string>, rec: Closures.Recorded,
        edited: set<string>, leq: (T, T) -> bool, before: World<T, M, P>)
    requires |names| == |job.slots|
  {
    forall f: nat, w {:trigger job.refine(f, w)} ::
      f < |names| && names[f] !in edited && Comparable(job, leq, w, before) ==>
      ReadsRecorded(names, job.slots, rec, f, job.refine(f, w).seen)
  }

  /** A walk that knows less reads nothing that it does not read on the solution. */
  ghost predicate ReadsLess<T(!new), M(!new), P(!new)>(job: Job<T, M, P>, leq: (T, T) -> bool, before: World<T, M, P>) {
    forall f: nat, w, s {:trigger s in job.refine(f, w).seen} ::
      f < |job.slots| && Comparable(job, leq, w, before) && s in job.refine(f, w).seen ==>
      s in job.refine(f, before).seen
  }

  /** A converged run whose dependencies are kept by name records enough. */
  lemma RunRecords<T(!new), M(!new), P(!new)>(job: Job<T, M, P>, names: seq<string>, rec: Closures.Recorded,
        edited: set<string>, leq: (T, T) -> bool, before: World<T, M, P>, trace: Trace, dependencies: seq<set<nat>>)
    requires |names| == |job.slots| && Cold(job) && ReadsLess(job, leq, before)
    requires DependenciesOk(job, before, trace, dependencies) && trace.widened == {}
    requires forall f: nat, g: nat :: f < |names| && g < |names| && g in dependencies[f] ==>
      Closures.DependsOn(rec, names[f], names[g])
    ensures Records(job, names, rec, edited, leq, before)
  {
    forall f: nat, w, g: nat | f < |names| && Comparable(job, leq, w, before) && g < |names|
      && job.slots[g] in job.refine(f, w).seen
      ensures Closures.DependsOn(rec, names[f], names[g])
    {
      assert Active(job, f) && g in dependencies[f];
    }
  }

  function Mask(names: seq<string>, affected: set<string>): (r: seq<bool>)
    ensures |r| == |names| && forall i :: 0 <= i < |r| ==> r[i] == (names[i] in affected)
  {
    seq(|names|, i requires 0 <= i < |names| => names[i] in affected)
  }

  /** The closure of the record shelters every function it leaves out. */
  lemma ClosureShelters<T(!new), M(!new), P(!new)>(job: Job<T, M, P>, names: seq<string>, rec: Closures.Recorded,
        edited: set<string>, affected: set<string>, leq: (T, T) -> bool, before: World<T, M, P>)
    requires |names| == |job.slots| && edited <= affected && Records(job, names, rec, edited, leq, before)
    requires forall f, g :: f !in affected && Closures.DependsOn(rec, f, g) ==> g !in affected
    ensures ShelteredBelow(job, Mask(names, affected), leq, before)
  {
    var mask := Mask(names, affected);
    forall f: nat, w | f < |mask| && !mask[f] && Comparable(job, leq, w, before)
      ensures Sheltered(job, mask, job.refine(f, w).seen)
    {
      var seen := job.refine(f, w).seen;
      assert ReadsRecorded(names, job.slots, rec, f, seen);
      forall g: nat | g < |job.slots| && job.slots[g] in seen ensures !mask[g] {
        assert Closures.DependsOn(rec, names[f], names[g]);
      }
    }
  }

  /** The table with the previous returns of the functions outside the scope. */
  ghost predicate Seeded<T(!new), M(!new), P(!new)>(slots: seq<nat>, names: seq<string>, seed: map<string, T>,
        scope: set<string>, before: World<T, M, P>, after: World<T, M, P>)
    requires |names| == |slots| && |before.rets| == |after.rets| && forall i :: 0 <= i < |slots| ==>
      slots[i] < |before.rets|
  {
    && after == before.(rets := after.rets)
    && (forall i :: 0 <= i < |names| && names[i] !in scope && names[i] in seed ==>
         after.rets[slots[i]] == seed[names[i]])
    && (forall s {:trigger after.rets[s]} :: 0 <= s < |before.rets| && NotSeeded(slots, names, seed, scope, s) ==>
          after.rets[s] == before.rets[s])
  }

  /** No function outside the scope with a seed owns the slot. */
  ghost predicate NotSeeded<T(!new)>(slots: seq<nat>, names: seq<string>, seed: map<string, T>, scope: set<string>,
        s: nat)
    requires |slots| <= |names|
  {
    forall i :: 0 <= i < |slots| && slots[i] == s ==> names[i] in scope || names[i] !in seed
  }

  /** Overlay the previous returns onto the slots of the functions outside the scope. */
  method SeedReturnTypes<T(==, !new), M(==, !new), P(==, !new)>(c: Checker<T, M, P>, slots: seq<nat>,
        names: seq<string>, seed: map<string, T>, scope: set<string>)
    requires |names| == |slots| && OneOwner(slots) && forall i :: 0 <= i < |slots| ==> slots[i] < |c.returnSlots|
    modifies c`returnSlots
    ensures |c.returnSlots| == |old(c.returnSlots)| && Seeded(slots, names, seed, scope, old(c.State()), c.State())
  {
    ghost var start := c.returnSlots;
    for k := 0 to |names|
      invariant |c.returnSlots| == |start|
      invariant forall i :: 0 <= i < k && names[i] !in scope && names[i] in seed ==>
        c.returnSlots[slots[i]] == seed[names[i]]
      invariant forall s {:trigger c.returnSlots[s]} ::
        0 <= s < |start| && NotSeeded(slots[..k], names, seed, scope, s) ==>
                  c.returnSlots[s] == start[s]
    {
      if names[k] !in scope && names[k] in seed {
        forall i: nat | i < k ensures slots[i] != slots[k] {
          OtherSlot(slots, i, k);
        }
        c.returnSlots := c.returnSlots[slots[k] := seed[names[k]]];
      }
    }
  }

  /** With nothing affected there is nothing to solve. */
  lemma EmptyScope<T(!new), M(!new), P(!new)>(job: Job<T, M, P>, affected: seq<bool>, leq: (T, T) -> bool,
        w: World<T, M, P>)
    requires JobOk(job) && |affected| == |job.slots| && (forall i :: 0 <= i < |affected| ==> !affected[i])
    requires WorldOk(job, w) && w.bottom == {} && Monotone(job, leq)
    ensures Solves(job, affected, leq, w, w)
  {
    var none := job.(active := affected);
    forall x | PreSolution(none, leq, w, x) ensures WorldLeq(leq, w, x) {
      forall s | 0 <= s < |w.rets| ensures CellLeq(leq, CellOf(w, s), CellOf(x, s)) {
        assert !ActiveSlot(none, s);
      }
    }
  }

  lemma ScopedMonotone<T(!new), M(!new), P(!new)>(job: Job<T, M, P>, active: seq<bool>, leq: (T, T) -> bool)
    requires Cold(job) && Monotone(job, leq) && |active| == |job.slots|
    ensures Monotone(job.(active := active), leq)
  {
    var scoped := job.(active := active);
    forall f, w, x | Active(scoped, f) && Comparable(scoped, leq, w, x)
      ensures CellLeq(leq, OutcomeCell(scoped, w, f), OutcomeCell(scoped, x, f))
    {
      assert Comparable(job, leq, w, x) && Active(job, f);
    }
  }

  /** The solutions before the edit and of a cold run, and what was recorded and kept of the first. */
  ghost predicate Edited<T(!new), M(!new), P(!new)>(old': Job<T, M, P>, new': Job<T, M, P>, names: seq<string>,
        rec: Closures.Recorded, edited: set<string>, seed: map<string, T>, leq: (T, T) -> bool,
        oldStart: World<T, M, P>, before: World<T, M, P>, coldStart: World<T, M, P>, cold: World<T, M, P>)
  {
    && SameProgram(old', new') && |names| == |new'.slots|
    && AntiSymmetric(leq) && Monotone(old', leq) && Monotone(new', leq)
    && Solves(old', old'.active, leq, oldStart, before) && Solves(new', new'.active, leq, coldStart, cold)
    && (forall f: nat, w {:trigger new'.refine(f, w)} {:trigger old'.refine(f, w)} ::
          f < |names| && names[f] !in edited ==>
          old'.refine(f, w) == new'.refine(f, w))
    && Records(new', names, rec, edited, leq, before)
    && (forall f :: 0 <= f < |names| && names[f] !in edited ==>
          names[f] in seed && seed[names[f]] == before.rets[new'.slots[f]])
    && (forall s :: 0 <= s < new'.slotCount && !ActiveSlot(new', s) ==> oldStart.rets[s] == coldStart.rets[s])
  }

  /** What was propagated for the functions that reach no edited one is still there. */
  ghost predicate KeptMetadata<T(!new), M(!new), P(!new)>(new': Job<T, M, P>, names: seq<string>,
        rec: Closures.Recorded, edited: set<string>, oldStart: World<T, M, P>, coldStart: World<T, M, P>)
    requires |names| == |new'.slots| && WorldOk(new', oldStart) && WorldOk(new', coldStart)
  {
    && oldStart.loaded == coldStart.loaded && oldStart.bare == coldStart.bare
    && forall s :: 0 <= s < new'.slotCount && Untouched(new'.slots, names, rec, edited, s) ==>
      oldStart.metas[s] == coldStart.metas[s]
  }

  /** No function that reaches an edited one owns the slot. */
  ghost predicate Untouched(slots: seq<nat>, names: seq<string>, rec: Closures.Recorded, edited: set<string>, s: nat)
    requires |names| == |slots|
  {
    forall f :: 0 <= f < |names| && slots[f] == s ==> !Closures.ReachesAny(rec, names[f], edited)
  }

  /** What the closure, the seeds and the scoped run leave is what a cold run gives. */
  lemma WarmIsCold<T(!new), M(!new), P(!new)>(old': Job<T, M, P>, new': Job<T, M, P>, names: seq<string>,
        rec: Closures.Recorded, edited: set<string>, seed: map<string, T>, leq: (T, T) -> bool,
        oldStart: World<T, M, P>, before: World<T, M, P>, coldStart: World<T, M, P>, cold: World<T, M, P>,
        affected: set<string>, collected: World<T, M, P>, overlaid: World<T, M, P>, seeded: World<T, M, P>,
        warm: World<T, M, P>)
    requires Edited(old', new', names, rec, edited, seed, leq, oldStart, before, coldStart, cold)
    requires KeptMetadata(new', names, rec, edited, oldStart, coldStart)
    requires forall f :: f in affected <==> Closures.ReachesAny(rec, f, edited)
    requires forall f, g :: f !in affected && Closures.DependsOn(rec, f, g) ==> g !in affected
    requires edited <= affected && WorldOk(new', collected) && WorldOk(new', overlaid)
    requires coldStart.rets == collected.rets && SameMetadata(coldStart, collected)
    requires Seeded(new'.slots, names, seed, affected, collected, overlaid)
    requires seeded.rets == overlaid.rets && SameMetadata(seeded, overlaid)
    requires Solves(new', Mask(names, affected), leq, seeded, warm)
    ensures warm.rets == cold.rets
  {
    var mask := Mask(names, affected);
    ClosureShelters(new', names, rec, edited, affected, leq, before);
    assert EditOf(old', new', mask, leq, before);
    forall s | 0 <= s < new'.slotCount && !AffectedSlot(new', mask, s) ensures oldStart.metas[s] == coldStart.metas[s] {
      forall f | 0 <= f < |names| && new'.slots[f] == s ensures !Closures.ReachesAny(rec, names[f], edited) {
        assert !mask[f];
      }
      assert Untouched(new'.slots, names, rec, edited, s);
    }
    forall s | 0 <= s < new'.slotCount && !ActiveSlot(new', s) ensures seeded.rets[s] == coldStart.rets[s] {
      forall i: nat | i < |names| ensures new'.slots[i] != s {
        assert Active(new', i);
      }
      assert NotSeeded(new'.slots, names, seed, affected, s);
    }
    assert Runs(old', new', mask, leq, oldStart, before, seeded, warm, coldStart, cold);
    RestartIsCold(old', new', mask, leq, oldStart, before, seeded, warm, coldStart, cold);
  }

  /** The scoped run starts from bottom on the affected functions, with nothing but returns left to solve. */
  lemma SeededQuiet<T(!new), M(!new), P(!new)>(new': Job<T, M, P>, names: seq<string>, seed: map<string, T>,
        affected: set<string>, collected: World<T, M, P>, overlaid: World<T, M, P>)
    requires Cold(new') && Unattached(new') && |names| == |new'.slots| && WorldOk(new', collected)
    requires WorldOk(new', overlaid)
    requires Evaluated(new', collected) && Seeded(new'.slots, names, seed, affected, collected, overlaid)
    requires forall f :: 0 <= f < |new'.slots| ==> collected.rets[new'.slots[f]] == new'.unknown
    ensures Scoped(new', names, Some(affected)) == new'.(active := Mask(names, affected))
    ensures Quiet(Scoped(new', names, Some(affected)), Started(Scoped(new', names, Some(affected)), overlaid))
  {
    var scoped := Scoped(new', names, Some(affected));
    assert scoped.active == Mask(names, affected);
    forall s | 0 <= s < new'.slotCount && ActiveSlot(scoped, s) ensures overlaid.rets[s] == new'.unknown {
      var f: nat :| Active(scoped, f) && f < |new'.slots| && new'.slots[f] == s;
      forall i: nat | i < |names| && new'.slots[i] == s ensures i == f {
        OtherOwner(new'.slots, i, f);
      }
      assert NotSeeded(new'.slots, names, seed, affected, s);
    }
  }

  lemma OtherOwner(slots: seq<nat>, i: nat, j: nat)
    requires OneOwner(slots) && i < |slots| && j < |slots| && slots[i] == slots[j]
    ensures i == j
  {
    if i != j {
      OtherSlot(slots, i, j);
    }
  }

  /** Where the scoped run starts; an empty scope is no run. */
  ghost function RunStart<T(!new), M(!new), P(!new)>(new': Job<T, M, P>, names: seq<string>, affected: set<string>,
        overlaid: World<T, M, P>):
    World<T, M, P>
    requires JobOk(new') && |names| == |new'.slots|
  {
    if affected == {} then overlaid else Started(Scoped(new', names, Some(affected)), overlaid)
  }

  lemma RunSolves<T(!new), M(!new), P(!new)>(new': Job<T, M, P>, names: seq<string>, affected: set<string>,
        leq: (T, T) -> bool, overlaid: World<T, M, P>, warm: World<T, M, P>)
    requires Cold(new') && |names| == |new'.slots| && Monotone(new', leq) && WorldOk(new', overlaid)
    requires WorldOk(new', warm)
    requires Scoped(new', names, Some(affected)) == new'.(active := Mask(names, affected)) && overlaid.bottom == {}
    requires affected == {} ==> warm == overlaid
    requires affected != {} ==>
      LeastSolution(Scoped(new', names, Some(affected)), leq, Started(Scoped(new', names, Some(affected)), overlaid),
                    warm)
    requires forall s :: 0 <= s < new'.slotCount && !ActiveSlot(Scoped(new', names, Some(affected)), s) ==>
      warm.rets[s] == overlaid.rets[s]
    ensures Solves(new', Mask(names, affected), leq, RunStart(new', names, affected, overlaid), warm)
  {
    if affected == {} {
      EmptyScope(new', Mask(names, affected), leq, overlaid);
    }
  }

  /** Seed the functions outside the affected set and refine the others from bottom. */
  method RunAffected<T(==, !new), M(==, !new), P(==, !new)>(c: Checker<T, M, P>, new': Job<T, M, P>,
        names: seq<string>, affected: set<string>, seed: map<string, T>, ghost leq: (T, T) -> bool, ghost flat: Flat)
      returns (converged: bool, passes: nat, dependencies: seq<set<nat>>, ghost trace: Trace,
          ghost overlaid: World<T, M, P>)
    requires Cold(new') && Unattached(new') && Monotone(new', leq) && |names| == |new'.slots|
    requires WorldOk(new', c.State()) && c.uncomputedReturns == {} && Evaluated(new', c.State())
    requires forall f :: 0 <= f < |new'.slots| ==> c.returnSlots[new'.slots[f]] == new'.unknown
    modifies c
    ensures WorldOk(new', overlaid) && WorldOk(new', c.State())
    ensures Seeded(new'.slots, names, seed, affected, old(c.State()), overlaid)
    ensures converged && !trace.lifted ==>
      Solves(new', Mask(names, affected), leq, RunStart(new', names, affected, overlaid), c.State())
  {
    ghost var collected := c.State();
    SeedReturnTypes(c, new'.slots, names, seed, affected);
    overlaid := c.State();
    SeededQuiet(new', names, seed, affected, collected, overlaid);
    ScopedMonotone(new', Mask(names, affected), leq);
    converged, passes, dependencies, trace := c.RunFixpointScoped(new', names, Some(affected), leq, flat);
    if converged && !trace.lifted {
      RunSolves(new', names, affected, leq, overlaid, c.State());
    }
  }

  /**
   * An incremental run after an edit: close the edited functions under the recorded reads, seed all others with their
   * previous returns, and refine the affected ones from bottom. It ends with the returns of a cold run.
   */
  method RestartAfterEdit<T(==, !new), M(==, !new), P(==, !new)>(c: Checker<T, M, P>, new': Job<T, M, P>,
        names: seq<string>, rec: Closures.Recorded, edited: set<string>, seed: map<string, T>,
        ghost old': Job<T, M, P>, ghost leq: (T, T) -> bool, ghost flat: Flat, ghost oldStart: World<T, M, P>,
        ghost before: World<T, M, P>, ghost coldStart: World<T, M, P>, ghost cold: World<T, M, P>)
      returns (affected: set<string>, converged: bool, passes: nat, dependencies: seq<set<nat>>, ghost trace: Trace)
    requires Edited(old', new', names, rec, edited, seed, leq, oldStart, before, coldStart, cold)
    requires KeptMetadata(new', names, rec, edited, oldStart, coldStart)
    requires WorldOk(new', c.State()) && c.uncomputedReturns == {} && coldStart == Started(new', c.State())
    requires Evaluated(new', c.State())
    requires forall f :: 0 <= f < |new'.slots| ==> c.returnSlots[new'.slots[f]] == new'.unknown
    modifies c
    ensures forall f :: f in affected <==> Closures.ReachesAny(rec, f, edited)
    ensures converged && !trace.lifted ==> c.returnSlots == cold.rets
  {
    ghost var collected := c.State();
    affected := Closures.WithRefinementCallers(rec, edited);
    ghost var overlaid;
    converged, passes, dependencies, trace, overlaid := RunAffected(c, new', names, affected, seed, leq, flat);
    if converged && !trace.lifted {
      WarmIsCold(old', new', names, rec, edited, seed, leq, oldStart, before, coldStart, cold, affected, collected,
                 overlaid, RunStart(new', names, affected, overlaid), c.State());
    }
  }
}
