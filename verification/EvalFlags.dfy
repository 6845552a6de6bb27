/**
 * Evaluation flags of parameters: inherited by generics from their methods and by callers from the functions they
 * forward to.
 */
module EvalFlags {

  datatype Injection = NoInjection | Splice | Full

  function Level(i: Injection): nat {
    match i
    case NoInjection => 0
    case Splice => 1
    case Full => 2
  }

  datatype Flags = Flags(quoting: bool, defused: bool, injection: Injection)

  const NO_FLAGS := Flags(false, false, NoInjection)

  predicate Leq(a: Flags, b: Flags) {
    (a.quoting ==> b.quoting) && (a.defused ==> b.defused) && Level(a.injection) <= Level(b.injection)
  }

  /** Each function's parameters. */
  type Table = seq<seq<Flags>>

  datatype Cell = Cell(fn: nat, param: nat)

  predicate InTable(t: Table, c: Cell) {
    c.fn < |t| && c.param < |t[c.fn]|
  }

  predicate SameShape(t: Table, t': Table) {
    |t| == |t'| && forall f :: 0 <= f < |t| ==> |t[f]| == |t'[f]|
  }

  /** Every flag of `b` is at least that of `a`. */
  ghost predicate Below(a: Table, b: Table) {
    SameShape(a, b) && forall f, p :: 0 <= f < |a| && 0 <= p < |a[f]| ==> Leq(a[f][p], b[f][p])
  }

  /**
   * `Inherit`: the target takes over the source's flags; defusing passes from methods to generics, and through a
   * forwarded `...` only. `Given`: what a stub, an unresolved callee, or skipped `missing()` tests contribute.
   */
  datatype Rule = Inherit(target: Cell, source: Cell, defusing: bool) | Given(target: Cell, flags: Flags)

  predicate RuleIn(r: Rule, t: Table) {
    InTable(t, r.target) && (r.Inherit? ==> InTable(t, r.source))
  }

  function Offered(r: Rule, t: Table): Flags
    requires RuleIn(r, t)
  {
    match r
    case Inherit(_, source, defusing) =>
      var f := t[source.fn][source.param];
      Flags(f.quoting, f.defused && defusing, f.injection)
    case Given(_, flags) => flags
  }

  /** The table grants everything the rules offer. */
  ghost predicate Closed(rules: seq<Rule>, t: Table) {
    forall i {:trigger rules[i]} :: 0 <= i < |rules| && RuleIn(rules[i], t) ==>
      Leq(Offered(rules[i], t), t[rules[i].target.fn][rules[i].target.param])
  }

  /** Every closed table above `base` is above `t`. */
  ghost predicate WithinClosed(rules: seq<Rule>, base: Table, t: Table) {
    forall y {:trigger Closed(rules, y)} :: Below(base, y) && Closed(rules, y) ==> Below(t, y)
  }

  /** The least table above `base` closed under the rules. */
  ghost predicate IsLeast(rules: seq<Rule>, base: Table, t: Table) {
    Below(base, t) && Closed(rules, t) && WithinClosed(rules, base, t)
  }

  // ---------------------------------------------------------------------------------------------
  // One parameter
  // ---------------------------------------------------------------------------------------------

  function Join(a: Flags, b: Flags): Flags {
    Flags(a.quoting || b.quoting, a.defused || b.defused,
          if Level(b.injection) > Level(a.injection) then b.injection else a.injection)
  }

  lemma JoinIsLeast(a: Flags, b: Flags, c: Flags)
    ensures Leq(a, Join(a, b)) && Leq(b, Join(a, b))
    ensures Leq(a, c) && Leq(b, c) ==> Leq(Join(a, b), c)
    ensures Join(a, b) == a <==> Leq(b, a)
  {
  }

  method InheritNseFlags(parameter: Flags, quoting: bool, defused: bool, injection: Injection) returns (r: Flags,
        changed: bool)
    ensures r == Join(parameter, Flags(quoting, defused, injection))
    ensures changed <==> r != parameter
  {
    r, changed := parameter, false;
    if quoting && !r.quoting {
      r, changed := r.(quoting := true), true;
    }
    if defused && !r.defused {
      r, changed := r.(defused := true), true;
    }
    if Level(injection) > Level(r.injection) {
      r, changed := r.(injection := injection), true;
    }
  }

  // ---------------------------------------------------------------------------------------------
  // Heights
  // ---------------------------------------------------------------------------------------------

  function Height(f: Flags): (r: nat)
    ensures r <= 4
  {
    (if f.quoting then 1 else 0) + (if f.defused then 1 else 0) + Level(f.injection)
  }

  function RowHeight(row: seq<Flags>): (r: nat)
    ensures r <= 4 * |row|
  {
    if row == [] then 0 else RowHeight(row[..|row| - 1]) + Height(row[|row| - 1])
  }

  function TableHeight(t: Table): nat {
    if t == [] then 0 else TableHeight(t[..|t| - 1]) + RowHeight(t[|t| - 1])
  }

  function Cells(t: Table): nat {
    if t == [] then 0 else Cells(t[..|t| - 1]) + |t[|t| - 1]|
  }

  lemma {:induction false} HeightBound(t: Table)
    ensures TableHeight(t) <= 4 * Cells(t)
  {
    if t != [] {
      HeightBound(t[..|t| - 1]);
    }
  }

  lemma FlagsRise(a: Flags, b: Flags)
    requires Leq(a, b)
    ensures Height(a) <= Height(b) && (Height(a) == Height(b) ==> a == b)
  {
  }

  lemma {:induction false} RowRises(a: seq<Flags>, b: seq<Flags>)
    requires |a| == |b| && forall p :: 0 <= p < |a| ==> Leq(a[p], b[p])
    ensures RowHeight(a) <= RowHeight(b) && (RowHeight(a) == RowHeight(b) ==> a == b)
  {
    if a != [] {
      var n := |a| - 1;
      RowRises(a[..n], b[..n]);
      FlagsRise(a[n], b[n]);
      assert a == a[..n] + [a[n]] && b == b[..n] + [b[n]];
    }
  }

  /** A table that rises and changes gets higher. */
  lemma {:induction false} TableRises(a: Table, b: Table)
    requires Below(a, b)
    ensures TableHeight(a) <= TableHeight(b) && (TableHeight(a) == TableHeight(b) ==> a == b) && Cells(a) == Cells(b)
  {
    if a != [] {
      var n := |a| - 1;
      assert Below(a[..n], b[..n]);
      TableRises(a[..n], b[..n]);
      RowRises(a[n], b[n]);
      assert a == a[..n] + [a[n]] && b == b[..n] + [b[n]];
    }
  }

  // ---------------------------------------------------------------------------------------------
  // One round
  // ---------------------------------------------------------------------------------------------

  lemma BelowTrans(a: Table, b: Table, c: Table)
    requires Below(a, b) && Below(b, c)
    ensures Below(a, c)
  {
  }

  /** A higher table is offered at least as much. */
  lemma OfferRises(r: Rule, a: Table, b: Table)
    requires Below(a, b) && RuleIn(r, a)
    ensures RuleIn(r, b) && Leq(Offered(r, a), Offered(r, b))
  {
  }

  /** What was collected comes from the rules and the table before the round. */
  ghost predicate Collected(rules: seq<Rule>, base: Table, inherited: seq<(Cell, Flags)>) {
    && (forall k :: 0 <= k < |inherited| ==> InTable(base, inherited[k].0))
    && (forall k {:trigger inherited[k]} :: 0 <= k < |inherited| ==> FromRules(rules, base, inherited[k]))
    && (forall i {:trigger rules[i]} ::
          0 <= i < |rules| && RuleIn(rules[i], base) && Offered(rules[i], base) != NO_FLAGS ==>
          (rules[i].target, Offered(rules[i], base)) in inherited)
  }

  ghost predicate FromRules(rules: seq<Rule>, base: Table, entry: (Cell, Flags)) {
    exists r :: r in rules && Gave(r, base, entry)
  }

  ghost predicate Gave(r: Rule, base: Table, entry: (Cell, Flags)) {
    RuleIn(r, base) && entry == (r.target, Offered(r, base))
  }

  /** What a closed table above the old one already grants. */
  lemma GrantedByClosed(rules: seq<Rule>, base: Table, inherited: seq<(Cell, Flags)>, k: nat, y: Table)
    requires Collected(rules, base, inherited) && k < |inherited| && Below(base, y) && Closed(rules, y)
    ensures InTable(y, inherited[k].0) && Leq(inherited[k].1, y[inherited[k].0.fn][inherited[k].0.param])
  {
    assert FromRules(rules, base, inherited[k]);
    var r :| r in rules && Gave(r, base, inherited[k]);
    var i :| 0 <= i < |rules| && rules[i] == r;
    OfferRises(rules[i], base, y);
  }

  function Raise(t: Table, c: Cell, f: Flags): (r: Table)
    requires InTable(t, c)
  {
    t[c.fn := t[c.fn][c.param := Join(t[c.fn][c.param], f)]]
  }

  lemma RaiseRises(t: Table, c: Cell, f: Flags)
    requires InTable(t, c)
    ensures Below(t, Raise(t, c, f)) && Leq(f, Raise(t, c, f)[c.fn][c.param])
    ensures Raise(t, c, f) == t <==> Leq(f, t[c.fn][c.param])
  {
    JoinIsLeast(t[c.fn][c.param], f, f);
    if Leq(f, t[c.fn][c.param]) {
      assert t[c.fn][c.param := t[c.fn][c.param]] == t[c.fn];
    } else {
      assert Raise(t, c, f)[c.fn][c.param] != t[c.fn][c.param];
    }
  }

  lemma RaiseBelow(t: Table, c: Cell, f: Flags, y: Table)
    requires InTable(t, c) && Below(t, y) && Leq(f, y[c.fn][c.param])
    ensures Below(Raise(t, c, f), y)
  {
    JoinIsLeast(t[c.fn][c.param], f, y[c.fn][c.param]);
  }

  class Parameters {
    var flags: Table

    constructor (t: Table)
      ensures flags == t
    {
      flags := t;
    }

    /** Collect what the rules offer on the current table. */
    method Collect(rules: seq<Rule>) returns (inherited: seq<(Cell, Flags)>)
      ensures Collected(rules, flags, inherited)
    {
      inherited := [];
      for i := 0 to |rules|
        invariant Collected(rules[..i], flags, inherited)
      {
        ghost var before := inherited;
        if RuleIn(rules[i], flags) && Offered(rules[i], flags) != NO_FLAGS {
          inherited := inherited + [(rules[i].target, Offered(rules[i], flags))];
        }
        assert rules[..i + 1] == rules[..i] + [rules[i]];
        forall k | 0 <= k < |inherited| ensures FromRules(rules[..i + 1], flags, inherited[k]) {
          if k < |before| {
            assert FromRules(rules[..i], flags, before[k]);
            var r :| r in rules[..i] && Gave(r, flags, before[k]);
            assert r in rules[..i + 1] && Gave(r, flags, inherited[k]);
          } else {
            assert rules[i] in rules[..i + 1] && Gave(rules[i], flags, inherited[k]);
          }
        }
      }
      assert rules[..|rules|] == rules;
    }

    /** Raise one parameter. */
    method RaiseCell(c: Cell, f: Flags) returns (changed: bool)
      requires InTable(flags, c)
      modifies this
      ensures flags == Raise(old(flags), c, f) && (changed <==> flags != old(flags))
      ensures changed ==> flags[c.fn] != old(flags)[c.fn]
      ensures forall g :: 0 <= g < |flags| && g != c.fn ==> flags[g] == old(flags)[g]
    {
      var r: Flags;
      r, changed := InheritNseFlags(flags[c.fn][c.param], f.quoting, f.defused, f.injection);
      RaiseRises(flags, c, f);
      JoinIsLeast(flags[c.fn][c.param], f, f);
      flags := flags[c.fn := flags[c.fn][c.param := r]];
      assert changed ==> flags[c.fn][c.param] != old(flags)[c.fn][c.param];
    }

    /** One propagation: collect from the table as it is, then raise. The functions that changed are returned. */
    method Propagate(rules: seq<Rule>) returns (changed: set<nat>)
      modifies this
      ensures Below(old(flags), flags) && WithinClosed(rules, old(flags), flags)
      ensures forall f: nat :: f in changed <==> f < |flags| && flags[f] != old(flags)[f]
      ensures changed == {} ==> flags == old(flags) && Closed(rules, flags)
    {
      var inherited := Collect(rules);
      ghost var base := flags;
      changed := {};
      for k := 0 to |inherited|
        invariant Below(base, flags) && Collected(rules, base, inherited)
        invariant WithinClosed(rules, base, flags)
        invariant forall f: nat :: f in changed <==> f < |flags| && flags[f] != base[f]
        invariant flags == base ==> forall j :: 0 <= j < k ==>
          Leq(inherited[j].1, base[inherited[j].0.fn][inherited[j].0.param])
      {
        var c, f := inherited[k].0, inherited[k].1;
        ghost var before := flags;
        RaiseRises(flags, c, f);
        var grew := RaiseCell(c, f);
        BelowTrans(base, before, flags);
        forall y | Below(base, y) && Closed(rules, y) ensures Below(flags, y) {
          GrantedByClosed(rules, base, inherited, k, y);
          RaiseBelow(before, c, f, y);
        }
        if grew {
          RowGrew(base, before, flags, c.fn);
          changed := changed + {c.fn};
        }
        StillBase(base, before, flags);
      }
      if changed == {} {
        assert flags == base;
        NothingOffered(rules, base, inherited);
      }
    }

    /**
     * Rounds of both propagations, as long as one changes something, up to a limit. When it settles the flags are the
     * least ones; with a limit above four per parameter it always does.
     */
    method Rounds(methods: seq<Rule>, forwarded: seq<Rule>, limit: nat) returns (settled: bool)
      modifies this
      ensures Below(old(flags), flags) && WithinClosed(methods + forwarded, old(flags), flags)
      ensures settled ==> IsLeast(methods + forwarded, old(flags), flags)
      ensures limit > 4 * Cells(old(flags)) ==> settled
    {
      ghost var base := flags;
      var pending, passes := true, 0;
      HeightBound(base);
      BelowSelf(base);
      while passes < limit && pending
        invariant passes <= limit
        invariant Below(base, flags) && WithinClosed(methods + forwarded, base, flags)
        invariant !pending ==> Closed(methods + forwarded, flags)
        invariant pending ==> TableHeight(flags) >= passes
        decreases limit - passes
      {
        ghost var start := flags;
        var byMethods := Propagate(methods);
        ghost var between := flags;
        var byForwarding := Propagate(forwarded);
        RoundWithin(methods, forwarded, base, start, between, flags);
        TableRises(start, flags);
        pending := byMethods != {} || byForwarding != {};
        if pending {
          if byMethods != {} {
            var f :| f in byMethods;
            TableRises(start, between);
            TableRises(between, flags);
          } else {
            var f :| f in byForwarding;
          }
        } else {
          ClosedConcat(methods, forwarded, flags);
        }
        passes := passes + 1;
      }
      if pending {
        TableRises(base, flags);
        HeightBound(flags);
      }
      settled := !pending;
    }
  }

  lemma BelowSelf(t: Table)
    ensures Below(t, t)
  {
  }

  lemma ClosedConcat(a: seq<Rule>, b: seq<Rule>, t: Table)
    ensures Closed(a + b, t) <==> Closed(a, t) && Closed(b, t)
  {
    if Closed(a + b, t) {
      forall i | 0 <= i < |a| && RuleIn(a[i], t) ensures Leq(Offered(a[i], t), t[a[i].target.fn][a[i].target.param]) {
        assert (a + b)[i] == a[i];
      }
      forall i | 0 <= i < |b| && RuleIn(b[i], t) ensures Leq(Offered(b[i], t), t[b[i].target.fn][b[i].target.param]) {
        assert (a + b)[|a| + i] == b[i];
      }
    }
  }

  lemma RoundWithin(methods: seq<Rule>, forwarded: seq<Rule>, base: Table, start: Table, between: Table, end: Table)
    requires Below(base, start) && WithinClosed(methods + forwarded, base, start)
    requires Below(start, between) && WithinClosed(methods, start, between)
    requires Below(between, end) && WithinClosed(forwarded, between, end)
    ensures Below(base, end) && Below(start, end) && WithinClosed(methods + forwarded, base, end)
  {
    BelowTrans(base, start, between);
    BelowTrans(start, between, end);
    BelowTrans(base, start, end);
    forall y | Below(base, y) && Closed(methods + forwarded, y) ensures Below(end, y) {
      ClosedConcat(methods, forwarded, y);
    }
  }

  lemma RowGrew(base: Table, before: Table, after: Table, f: nat)
    requires Below(base, before) && Below(before, after) && f < |base| && after[f] != before[f]
    ensures after[f] != base[f]
  {
    RowRises(base[f], before[f]);
    RowRises(before[f], after[f]);
  }

  lemma StillBase(base: Table, before: Table, after: Table)
    requires Below(base, before) && Below(before, after)
    ensures after == base ==> before == base
  {
    TableRises(base, before);
    TableRises(before, after);
  }

  lemma NothingOffered(rules: seq<Rule>, base: Table, inherited: seq<(Cell, Flags)>)
    requires Collected(rules, base, inherited)
    requires forall j :: 0 <= j < |inherited| ==> Leq(inherited[j].1, base[inherited[j].0.fn][inherited[j].0.param])
    ensures Closed(rules, base)
  {
    forall i | 0 <= i < |rules| && RuleIn(rules[i], base)
      ensures Leq(Offered(rules[i], base), base[rules[i].target.fn][rules[i].target.param])
    {
      if Offered(rules[i], base) != NO_FLAGS {
        var j :| 0 <= j < |inherited| && inherited[j] == (rules[i].target, Offered(rules[i], base));
      }
    }
  }
}
