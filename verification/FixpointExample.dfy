/** A small program that meets everything the scheduler's results ask for. */
module FixpointExample {
  import opened Wrappers
  import opened Fixpoint

  /** `f` returns 5; `g` returns what `f` does. */
  function TwoFunctions(f: nat, w: World<nat, bool, string>): Refinement<nat, string> {
    if f == 0 then Refinement(Some(5), [], w.loaded, w.bare)
    else Refinement(if |w.rets| == 2 && 0 !in w.bottom then Some(w.rets[0]) else None, [0], w.loaded, w.bare)
  }

  /** Anything is below the unknown type, which is 0. */
  predicate Known(a: nat, b: nat) {
    a == b || b == 0
  }

  const JOB: Job<nat, bool, string> := Job(TwoFunctions, ms => ms, (ms, loaded, bare) => ms, 0, [0, 1], [true, true], 2)

  const START: World<nat, bool, string> := World([0, 0], {0, 1}, [false, false], {}, {})

  const READS := Flat([{}, {0}], [0, 1])

  lemma AllMet()
    ensures JobOk(JOB) && Monotone(JOB, Known) && Quiet(JOB, START) && IsFlat(JOB, READS)
  {
    forall f, w ensures WalkOk(JOB, f, w) {
    }
    assert SlotSet([]) == {} && SlotSet([0]) == {0};
    forall f, w, x | Active(JOB, f) && Comparable(JOB, Known, w, x)
      ensures CellLeq(Known, OutcomeCell(JOB, w, f), OutcomeCell(JOB, x, f))
    {
      assert CellLeq(Known, CellOf(w, 0), CellOf(x, 0));
    }
  }
}
