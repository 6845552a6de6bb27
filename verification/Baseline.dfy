/** Writing and subtracting a baseline of known diagnostics. */
module Baseline {

  datatype Confidence = Low | Medium | High

  function Level(c: Confidence): nat {
    match c
    case Low => 0
    case Medium => 1
    case High => 2
  }

  function Demote(c: Confidence): Confidence {
    if c.High? then Medium else Low
  }

  datatype Diagnostic = Diagnostic(path: string, code: string, message: string, confidence: Confidence, line: nat)

  /** What a baseline matches on: the path is the one shown relative to the root. */
  datatype Key = Key(path: string, code: string, message: string)

  datatype Entry = Entry(key: Key, count: nat)

  function KeyOf(d: Diagnostic, shown: string -> string): Key {
    Key(shown(d.path), d.code, d.message)
  }

  function Occurrences(ds: seq<Diagnostic>, shown: string -> string, k: Key): nat {
    if ds == [] then 0
    else Occurrences(ds[..|ds| - 1], shown, k) + if KeyOf(ds[|ds| - 1], shown) == k then 1 else 0
  }

  /** The count a baseline holds for a key. Loading keeps the last of two entries with one key. */
  function Budget(entries: seq<Entry>, k: Key): nat {
    if entries == [] then 0
    else if entries[|entries| - 1].key == k then entries[|entries| - 1].count
    else Budget(entries[..|entries| - 1], k)
  }

  /** The diagnostics beyond their key's budget, in order. */
  function Excess(ds: seq<Diagnostic>, shown: string -> string, budget: Key -> nat): seq<Diagnostic> {
    if ds == [] then []
    else
      var before, last := ds[..|ds| - 1], ds[|ds| - 1];
      var k := KeyOf(last, shown);
      Excess(before, shown, budget) + if Occurrences(before, shown, k) < budget(k) then [] else [last]
  }

  function Above(ds: seq<Diagnostic>, least: Confidence): seq<Diagnostic> {
    if ds == [] then []
    else Above(ds[..|ds| - 1], least) + if Level(ds[|ds| - 1].confidence) >= Level(least) then [ds[|ds| - 1]] else []
  }

  function Demoted(ds: seq<Diagnostic>, nonSource: string -> bool): (r: seq<Diagnostic>)
    ensures |r| == |ds|
  {
    seq(|ds|, i requires 0 <= i < |ds| =>
      if nonSource(ds[i].path) then ds[i].(confidence := Demote(ds[i].confidence)) else ds[i])
  }

  // ---------------------------------------------------------------------------------------------
  // Multiset difference
  // ---------------------------------------------------------------------------------------------

  lemma OccurrencesAppend(ds: seq<Diagnostic>, d: Diagnostic, shown: string -> string, k: Key)
    ensures Occurrences(ds + [d], shown, k) == Occurrences(ds, shown, k) + if KeyOf(d, shown) == k then 1 else 0
  {
    assert (ds + [d])[..|ds|] == ds;
  }

  /** Per key, subtraction removes the smaller of the budget and the occurrences. */
  lemma {:induction false} ExcessCount(ds: seq<Diagnostic>, shown: string -> string, budget: Key -> nat, k: Key)
    ensures Occurrences(Excess(ds, shown, budget), shown, k) ==
      if Occurrences(ds, shown, k) <= budget(k) then 0 else Occurrences(ds, shown, k) - budget(k)
  {
    if ds != [] {
      var before, last := ds[..|ds| - 1], ds[|ds| - 1];
      ExcessCount(before, shown, budget, k);
      OccurrencesAppend(Excess(before, shown, budget), last, shown, k);
      assert Excess(before, shown, budget) + [] == Excess(before, shown, budget);
    }
  }

  /** The budget of the key at position `i` is used up before it. */
  predicate Overspent(ds: seq<Diagnostic>, shown: string -> string, budget: Key -> nat, i: nat)
    requires i < |ds|
  {
    Occurrences(ds[..i], shown, KeyOf(ds[i], shown)) >= budget(KeyOf(ds[i], shown))
  }

  lemma OverspentAppend(ds: seq<Diagnostic>, d: Diagnostic, shown: string -> string, budget: Key -> nat, i: nat)
    requires i <= |ds|
    ensures i < |ds| ==> Overspent(ds + [d], shown, budget, i) == Overspent(ds, shown, budget, i)
    ensures i == |ds| ==>
      (Overspent(ds + [d], shown, budget, i) <==> Occurrences(ds, shown, KeyOf(d, shown)) >= budget(KeyOf(d, shown)))
  {
    assert (ds + [d])[..i] == ds[..i];
    assert ds[..|ds|] == ds;
  }

  /** `at` lists, rising, exactly the positions whose key was already used up. */
  predicate KeepsAt(ds: seq<Diagnostic>, shown: string -> string, budget: Key -> nat, at: seq<nat>) {
    && (forall j, k :: 0 <= j < k < |at| ==> at[j] < at[k])
    && (forall j :: 0 <= j < |at| ==> at[j] < |ds|)
    && (forall i: nat {:trigger Overspent(ds, shown, budget, i)} :: i < |ds| ==>
          (i in at <==> Overspent(ds, shown, budget, i)))
  }

  function At(ds: seq<Diagnostic>, at: seq<nat>): (r: seq<Diagnostic>)
    requires forall j :: 0 <= j < |at| ==> at[j] < |ds|
    ensures |r| == |at| && forall j :: 0 <= j < |at| ==> r[j] == ds[at[j]]
  {
    if at == [] then [] else At(ds, at[..|at| - 1]) + [ds[at[|at| - 1]]]
  }

  lemma KeepsAtAppend(ds: seq<Diagnostic>, d: Diagnostic, shown: string -> string, budget: Key -> nat, at: seq<nat>)
    returns (longer: seq<nat>)
    requires KeepsAt(ds, shown, budget, at)
    ensures KeepsAt(ds + [d], shown, budget, longer)
    ensures At(ds + [d], longer) == At(ds, at)
      + if Occurrences(ds, shown, KeyOf(d, shown)) < budget(KeyOf(d, shown)) then [] else [d]
  {
    longer := at + if Occurrences(ds, shown, KeyOf(d, shown)) < budget(KeyOf(d, shown)) then [] else [|ds|];
    forall i: nat | i < |ds + [d]| ensures i in longer <==> Overspent(ds + [d], shown, budget, i) {
      OverspentAppend(ds, d, shown, budget, i);
      assert i < |ds| ==> (i in at <==> Overspent(ds, shown, budget, i));
    }
  }

  /** What is left keeps its order; the first occurrences of a key are the ones removed. */
  lemma {:induction false} ExcessKeepsOrder(ds: seq<Diagnostic>, shown: string -> string, budget: Key -> nat)
    returns (at: seq<nat>)
    ensures KeepsAt(ds, shown, budget, at)
    ensures Excess(ds, shown, budget) == At(ds, at)
  {
    if ds == [] {
      at := [];
    } else {
      var before := ds[..|ds| - 1];
      assert ds == before + [ds[|ds| - 1]];
      at := ExcessKeepsOrder(before, shown, budget);
      at := KeepsAtAppend(before, ds[|ds| - 1], shown, budget, at);
    }
  }

  /** The counts a baseline written from `ds` holds. */
  ghost predicate Records(entries: seq<Entry>, ds: seq<Diagnostic>, shown: string -> string) {
    forall k :: Budget(entries, k) == Occurrences(ds, shown, k)
  }

  lemma {:induction false} NothingOver(ds: seq<Diagnostic>, shown: string -> string, budget: Key -> nat)
    requires forall k :: Occurrences(ds, shown, k) <= budget(k)
    ensures Excess(ds, shown, budget) == []
  {
    if ds != [] {
      var before := ds[..|ds| - 1];
      forall k ensures Occurrences(before, shown, k) <= budget(k) {
        assert Occurrences(before, shown, k) <= Occurrences(ds, shown, k);
      }
      NothingOver(before, shown, budget);
      assert Occurrences(ds, shown, KeyOf(ds[|ds| - 1], shown)) <= budget(KeyOf(ds[|ds| - 1], shown));
    }
  }

  /** Subtracting its own baseline leaves nothing of a list, and of any other list exactly what it has more. */
  lemma OwnBaseline(entries: seq<Entry>, ds: seq<Diagnostic>, other: seq<Diagnostic>, shown: string -> string, k: Key)
    requires Records(entries, ds, shown)
    ensures Excess(ds, shown, k => Budget(entries, k)) == []
    ensures Occurrences(Excess(other, shown, k => Budget(entries, k)), shown, k) ==
      if Occurrences(other, shown, k) <= Occurrences(ds, shown, k) then 0
      else Occurrences(other, shown, k) - Occurrences(ds, shown, k)
  {
    NothingOver(ds, shown, k => Budget(entries, k));
    ExcessCount(other, shown, k => Budget(entries, k), k);
  }

  // ---------------------------------------------------------------------------------------------
  // The threshold runs last
  // ---------------------------------------------------------------------------------------------

  lemma AboveAppend(ds: seq<Diagnostic>, d: Diagnostic, least: Confidence)
    ensures Above(ds + [d], least) == Above(ds, least) + if Level(d.confidence) >= Level(least) then [d] else []
  {
    assert (ds + [d])[..|ds|] == ds;
  }

  /** A diagnostic is reported when it meets the threshold and earlier occurrences of its key, of any confidence,
      used the budget up. */
  predicate Reported(ds: seq<Diagnostic>, shown: string -> string, budget: Key -> nat, least: Confidence, i: nat)
    requires i < |ds|
  {
    Level(ds[i].confidence) >= Level(least) && Overspent(ds, shown, budget, i)
  }

  ghost predicate SomeReported(ds: seq<Diagnostic>, shown: string -> string, budget: Key -> nat, least: Confidence) {
    exists i: nat {:trigger Reported(ds, shown, budget, least, i)} :: i < |ds| && Reported(ds, shown, budget, least, i)
  }

  lemma SomeReportedAppend(ds: seq<Diagnostic>, d: Diagnostic, shown: string -> string, budget: Key -> nat,
        least: Confidence)
    ensures SomeReported(ds + [d], shown, budget, least) <==>
      SomeReported(ds, shown, budget, least) || Reported(ds + [d], shown, budget, least, |ds|)
  {
    if i: nat :| i < |ds + [d]| && Reported(ds + [d], shown, budget, least, i) {
      OverspentAppend(ds, d, shown, budget, i);
      if i < |ds| {
        assert Reported(ds, shown, budget, least, i);
      }
    }
    if i: nat :| i < |ds| && Reported(ds, shown, budget, least, i) {
      OverspentAppend(ds, d, shown, budget, i);
      assert Reported(ds + [d], shown, budget, least, i);
    }
  }

  /** A run is silent exactly when nothing in it is reported. */
  lemma {:induction false} SilentWhenNoneReported(ds: seq<Diagnostic>, shown: string -> string, budget: Key -> nat,
        least: Confidence)
    ensures Above(Excess(ds, shown, budget), least) == [] <==> !SomeReported(ds, shown, budget, least)
  {
    if ds != [] {
      var before, last := ds[..|ds| - 1], ds[|ds| - 1];
      assert ds == before + [last];
      SilentWhenNoneReported(before, shown, budget, least);
      SomeReportedAppend(before, last, shown, budget, least);
      OverspentAppend(before, last, shown, budget, |before|);
      ExcessAppend(before, last, shown, budget);
      AboveAppend(Excess(before, shown, budget), last, least);
      AddNothing(Excess(before, shown, budget));
    }
  }

  lemma ExcessAppend(ds: seq<Diagnostic>, d: Diagnostic, shown: string -> string, budget: Key -> nat)
    ensures Excess(ds + [d], shown, budget) == Excess(ds, shown, budget)
      + if Occurrences(ds, shown, KeyOf(d, shown)) < budget(KeyOf(d, shown)) then [] else [d]
  {
    assert (ds + [d])[..|ds|] == ds;
  }

  /** Per key, subtracting before the threshold reports at least as much as subtracting after it would. */
  lemma {:induction false} ThresholdLastReportsMore(ds: seq<Diagnostic>, shown: string -> string, budget: Key -> nat,
        least: Confidence, k: Key)
    ensures Occurrences(Excess(Above(ds, least), shown, budget), shown, k)
            <= Occurrences(Above(Excess(ds, shown, budget), least), shown, k)
  {
    if ds != [] {
      var n := |ds| - 1;
      var before, last := ds[..n], ds[n];
      ThresholdLastReportsMore(before, shown, budget, least, k);
      AboveOrBelow(before, shown, least, KeyOf(last, shown));
      assert ds == before + [last];
      ThresholdStep(before, last, shown, budget, least, k);
    }
  }

  lemma ThresholdStep(ds: seq<Diagnostic>, d: Diagnostic, shown: string -> string, budget: Key -> nat,
        least: Confidence, k: Key)
    requires Occurrences(Excess(Above(ds, least), shown, budget), shown, k)
             <= Occurrences(Above(Excess(ds, shown, budget), least), shown, k)
    requires Occurrences(Above(ds, least), shown, KeyOf(d, shown)) <= Occurrences(ds, shown, KeyOf(d, shown))
    ensures Occurrences(Excess(Above(ds + [d], least), shown, budget), shown, k)
            <= Occurrences(Above(Excess(ds + [d], shown, budget), least), shown, k)
  {
    ExcessAppend(ds, d, shown, budget);
    AboveAppend(ds, d, least);
    AboveAppend(Excess(ds, shown, budget), d, least);
    ExcessAppend(Above(ds, least), d, shown, budget);
    OccurrencesAppend(Above(Excess(ds, shown, budget), least), d, shown, k);
    OccurrencesAppend(Excess(Above(ds, least), shown, budget), d, shown, k);
    AddNothing(Above(ds, least));
    AddNothing(Excess(ds, shown, budget));
    AddNothing(Excess(Above(ds, least), shown, budget));
    AddNothing(Above(Excess(ds, shown, budget), least));
  }

  lemma AddNothing(ds: seq<Diagnostic>)
    ensures ds + [] == ds
  {
  }

  predicate Shadowed(ds: seq<Diagnostic>, shown: string -> string, least: Confidence, i: nat, j: nat)
    requires i < j < |ds|
  {
    && KeyOf(ds[i], shown) == KeyOf(ds[j], shown)
    && Level(ds[i].confidence) < Level(least) <= Level(ds[j].confidence)
  }

  /** Some diagnostic below the threshold stands before one at or above it with the same key. */
  ghost predicate SomeShadowed(ds: seq<Diagnostic>, shown: string -> string, least: Confidence) {
    exists i: nat, j: nat :: i < j < |ds| && Shadowed(ds, shown, least, i, j)
  }

  lemma AboveCountAppend(ds: seq<Diagnostic>, d: Diagnostic, shown: string -> string, least: Confidence, k: Key)
    ensures Occurrences(Above(ds + [d], least), shown, k) == Occurrences(Above(ds, least), shown, k)
      + if Level(d.confidence) >= Level(least) && KeyOf(d, shown) == k then 1 else 0
  {
    AboveAppend(ds, d, least);
    OccurrencesAppend(Above(ds, least), d, shown, k);
    AddNothing(Above(ds, least));
  }

  predicate IsBelow(d: Diagnostic, shown: string -> string, least: Confidence, k: Key) {
    KeyOf(d, shown) == k && Level(d.confidence) < Level(least)
  }

  ghost predicate SomeBelow(ds: seq<Diagnostic>, shown: string -> string, least: Confidence, k: Key) {
    exists i: nat :: i < |ds| && IsBelow(ds[i], shown, least, k)
  }

  lemma SomeBelowAppend(ds: seq<Diagnostic>, d: Diagnostic, shown: string -> string, least: Confidence, k: Key)
    ensures SomeBelow(ds + [d], shown, least, k) <==> SomeBelow(ds, shown, least, k) || IsBelow(d, shown, least, k)
  {
    if i: nat :| i < |ds| && IsBelow(ds[i], shown, least, k) {
      assert IsBelow((ds + [d])[i], shown, least, k);
    }
    assert (ds + [d])[|ds|] == d;
  }

  lemma {:induction false} AboveOrBelow(ds: seq<Diagnostic>, shown: string -> string, least: Confidence, k: Key)
    ensures Occurrences(Above(ds, least), shown, k) <= Occurrences(ds, shown, k)
    ensures Occurrences(Above(ds, least), shown, k) < Occurrences(ds, shown, k) <==> SomeBelow(ds, shown, least, k)
  {
    if ds != [] {
      var before, last := ds[..|ds| - 1], ds[|ds| - 1];
      assert ds == before + [last];
      AboveOrBelow(before, shown, least, k);
      AboveCountAppend(before, last, shown, least, k);
      OccurrencesAppend(before, last, shown, k);
      SomeBelowAppend(before, last, shown, least, k);
    }
  }

  /** The last diagnostic at or above the threshold with a key. */
  lemma {:induction false} LastAbove(ds: seq<Diagnostic>, shown: string -> string, least: Confidence, j: nat)
    returns (last: nat)
    requires j < |ds| && Level(ds[j].confidence) >= Level(least)
    ensures j <= last < |ds| && Level(ds[last].confidence) >= Level(least)
    ensures KeyOf(ds[last], shown) == KeyOf(ds[j], shown)
    ensures Occurrences(Above(ds[..last], least), shown, KeyOf(ds[j], shown)) + 1
            == Occurrences(Above(ds, least), shown, KeyOf(ds[j], shown))
  {
    var k := KeyOf(ds[j], shown);
    var n := |ds| - 1;
    var before := ds[..n];
    assert ds == before + [ds[n]];
    AboveCountAppend(before, ds[n], shown, least, k);
    if KeyOf(ds[n], shown) == k && Level(ds[n].confidence) >= Level(least) {
      last := n;
    } else {
      assert before[j] == ds[j];
      last := LastAbove(before, shown, least, j);
      assert before[..last] == ds[..last];
    }
  }

  lemma ShadowedIsReported(ds: seq<Diagnostic>, shown: string -> string, budget: Key -> nat, least: Confidence, i: nat,
        j: nat)
    returns (last: nat)
    requires forall k :: budget(k) == Occurrences(Above(ds, least), shown, k)
    requires i < j < |ds| && Shadowed(ds, shown, least, i, j)
    ensures last < |ds| && Reported(ds, shown, budget, least, last)
  {
    last := LastAbove(ds, shown, least, j);
    var k := KeyOf(ds[j], shown);
    AboveOrBelow(ds[..last], shown, least, k);
    assert IsBelow(ds[..last][i], shown, least, k);
  }

  lemma {:induction false} MoreAboveFromHere(ds: seq<Diagnostic>, shown: string -> string, least: Confidence, j: nat)
    requires j < |ds| && Level(ds[j].confidence) >= Level(least)
    ensures Occurrences(Above(ds[..j], least), shown, KeyOf(ds[j], shown))
            < Occurrences(Above(ds, least), shown, KeyOf(ds[j], shown))
  {
    var n := |ds| - 1;
    AboveCountAppend(ds[..n], ds[n], shown, least, KeyOf(ds[j], shown));
    assert ds == ds[..n] + [ds[n]];
    if j < n {
      MoreAboveFromHere(ds[..n], shown, least, j);
      assert ds[..n][..j] == ds[..j];
    }
  }

  lemma AllAboveBefore(ds: seq<Diagnostic>, shown: string -> string, least: Confidence, j: nat)
    requires !SomeShadowed(ds, shown, least) && j < |ds| && Level(ds[j].confidence) >= Level(least)
    ensures Occurrences(Above(ds[..j], least), shown, KeyOf(ds[j], shown)) ==
      Occurrences(ds[..j], shown, KeyOf(ds[j], shown))
  {
    AboveOrBelow(ds[..j], shown, least, KeyOf(ds[j], shown));
    if i: nat :| i < |ds[..j]| && IsBelow(ds[..j][i], shown, least, KeyOf(ds[j], shown)) {
      assert Shadowed(ds, shown, least, i, j);
    }
  }

  lemma UnshadowedIsSilent(ds: seq<Diagnostic>, shown: string -> string, budget: Key -> nat, least: Confidence, j: nat)
    requires forall k :: budget(k) == Occurrences(Above(ds, least), shown, k)
    requires !SomeShadowed(ds, shown, least) && j < |ds|
    ensures !Reported(ds, shown, budget, least, j)
  {
    if Level(ds[j].confidence) >= Level(least) {
      AllAboveBefore(ds, shown, least, j);
      MoreAboveFromHere(ds, shown, least, j);
    }
  }

  /** A baseline written after the threshold, as the command line does, silences the same run exactly when no
      diagnostic below the threshold precedes one above it with the same key. */
  lemma WrittenAboveThreshold(ds: seq<Diagnostic>, shown: string -> string, budget: Key -> nat, least: Confidence)
    requires forall k :: budget(k) == Occurrences(Above(ds, least), shown, k)
    ensures Above(Excess(ds, shown, budget), least) == [] <==> !SomeShadowed(ds, shown, least)
  {
    SilentWhenNoneReported(ds, shown, budget, least);
    if SomeShadowed(ds, shown, least) {
      var i: nat, j: nat :| i < j < |ds| && Shadowed(ds, shown, least, i, j);
      var last := ShadowedIsReported(ds, shown, budget, least, i, j);
    } else {
      forall j: nat | j < |ds|
        ensures !Reported(ds, shown, budget, least, j)
      {
        UnshadowedIsSilent(ds, shown, budget, least, j);
      }
    }
  }

  /** A run where it does not: the diagnostic the baseline recorded comes back. */
  lemma ShadowedComesBack(shown: string -> string, budget: Key -> nat)
    requires
      var low := Diagnostic("a.R", "RY010", "m", Low, 1);
      var high := Diagnostic("a.R", "RY010", "m", High, 2);
      forall k :: budget(k) == Occurrences(Above([low, high], High), shown, k)
    ensures
      var low := Diagnostic("a.R", "RY010", "m", Low, 1);
      var high := Diagnostic("a.R", "RY010", "m", High, 2);
      && Above([low, high], High) == [high]
      && Above(Excess([low, high], shown, budget), High) == [high]
  {
    var low := Diagnostic("a.R", "RY010", "m", Low, 1);
    var high := Diagnostic("a.R", "RY010", "m", High, 2);
    assert [] + [low] == [low] && [low] + [high] == [low, high];
    AboveAppend([], low, High);
    AboveAppend([low], high, High);
    assert [] + [high] == [high];
    OccurrencesAppend([], low, shown, KeyOf(high, shown));
    OccurrencesAppend([], high, shown, KeyOf(high, shown));
    ExcessAppend([], low, shown, budget);
    ExcessAppend([low], high, shown, budget);
    AboveAppend([], high, High);
  }

  // ---------------------------------------------------------------------------------------------
  // The loops
  // ---------------------------------------------------------------------------------------------

  /** Count each key. */
  method WriteBaseline(ds: seq<Diagnostic>, shown: string -> string) returns (entries: seq<Entry>)
    ensures Records(entries, ds, shown)
    ensures forall i, j :: 0 <= i < j < |entries| ==> entries[i].key != entries[j].key
    ensures forall e :: e in entries ==> e.count > 0
  {
    var counts: map<Key, nat> := map[];
    for i := 0 to |ds|
      invariant forall k :: Occurrences(ds[..i], shown, k) == if k in counts then counts[k] else 0
      invariant forall k :: k in counts ==> counts[k] > 0
    {
      assert ds[..i + 1] == ds[..i] + [ds[i]];
      var k := KeyOf(ds[i], shown);
      counts := counts[k := (if k in counts then counts[k] else 0) + 1];
      forall other {
        OccurrencesAppend(ds[..i], ds[i], shown, other);
      }
    }
    assert ds[..|ds|] == ds;
    entries := [];
    var left := counts.Keys;
    while left != {}
      invariant left <= counts.Keys
      invariant forall e :: e in entries ==> e.key in counts && e.key !in left && e.count == counts[e.key]
      invariant forall i, j :: 0 <= i < j < |entries| ==> entries[i].key != entries[j].key
      invariant forall k :: Budget(entries, k) == if k in counts && k !in left then counts[k] else 0
      decreases |left|
    {
      var k :| k in left;
      var longer := entries + [Entry(k, counts[k])];
      assert longer[..|entries|] == entries;
      entries, left := longer, left - {k};
    }
  }

  /** What is left of a key's budget after these diagnostics. */
  function Left(ds: seq<Diagnostic>, shown: string -> string, budget: nat, k: Key): nat {
    if Occurrences(ds, shown, k) <= budget then budget - Occurrences(ds, shown, k) else 0
  }

  method LoadCounts(entries: seq<Entry>) returns (remaining: map<Key, nat>)
    ensures forall k :: Budget(entries, k) == if k in remaining then remaining[k] else 0
  {
    remaining := map[];
    for i := 0 to |entries|
      invariant forall k :: Budget(entries[..i], k) == if k in remaining then remaining[k] else 0
    {
      assert entries[..i + 1][..i] == entries[..i];
      remaining := remaining[entries[i].key := entries[i].count];
    }
    assert entries[..|entries|] == entries;
  }

  /** The diagnostics of one run. */
  class Run {
    var list: seq<Diagnostic>

    constructor (ds: seq<Diagnostic>)
      ensures list == ds
    {
      list := ds;
    }

    /** Drop, per key, as many diagnostics as the baseline counts. */
    method SubtractBaseline(entries: seq<Entry>, shown: string -> string)
      modifies this
      ensures list == Excess(old(list), shown, k => Budget(entries, k))
    {
      var remaining := LoadCounts(entries);
      ghost var budget := k => Budget(entries, k);
      var kept := [];
      for i := 0 to |list|
        invariant list == old(list)
        invariant kept == Excess(list[..i], shown, budget)
        invariant forall k :: Left(list[..i], shown, budget(k), k) == if k in remaining then remaining[k] else 0
      {
        assert list[..i + 1] == list[..i] + [list[i]];
        var k := KeyOf(list[i], shown);
        ExcessAppend(list[..i], list[i], shown, budget);
        forall other {
          OccurrencesAppend(list[..i], list[i], shown, other);
        }
        assert Left(list[..i], shown, budget(k), k) == if k in remaining then remaining[k] else 0;
        if k in remaining && remaining[k] > 0 {
          remaining := remaining[k := remaining[k] - 1];
        } else {
          kept := kept + [list[i]];
        }
      }
      assert list[..|list|] == list;
      list := kept;
    }

    /** Demote what a package does not ship. */
    method DemoteNonSource(nonSource: string -> bool)
      modifies this
      ensures list == Demoted(old(list), nonSource)
    {
      for i := 0 to |list|
        invariant |list| == |old(list)|
        invariant forall j :: 0 <= j < i ==> list[j] == Demoted(old(list), nonSource)[j]
        invariant forall j :: i <= j < |list| ==> list[j] == old(list)[j]
      {
        if nonSource(list[i].path) {
          list := list[i := list[i].(confidence := Demote(list[i].confidence))];
        }
      }
    }

    method DropBelow(least: Confidence)
      modifies this
      ensures list == Above(old(list), least)
    {
      var kept := [];
      for i := 0 to |list|
        invariant list == old(list)
        invariant kept == Above(list[..i], least)
      {
        AboveAppend(list[..i], list[i], least);
        assert list[..i + 1] == list[..i] + [list[i]];
        if Level(list[i].confidence) >= Level(least) {
          kept := kept + [list[i]];
        }
      }
      assert list[..|list|] == list;
      list := kept;
    }

    /** Demote what a package does not ship, subtract the baseline, then apply the threshold. */
    method PostDemotion(nonSource: string -> bool, baseline: seq<Entry>, shown: string -> string, least: Confidence)
      modifies this
      ensures list == Above(Excess(Demoted(old(list), nonSource), shown, k => Budget(baseline, k)), least)
    {
      DemoteNonSource(nonSource);
      SubtractBaseline(baseline, shown);
      DropBelow(least);
    }
  }
}
