/** Which adopted declaration a function is checked against, and whether it fits the function's formals. */
module Declarations {
  import opened Wrappers

  // ---------------------------------------------------------------------------------------------
  // Selecting a contract
  // ---------------------------------------------------------------------------------------------

  /** An adopted declaration's translation, as far as the selection looks at it. */
  datatype Translation =
    | Exact(canonical: Option<string>, entryOnly: bool, quotedConstraint: bool)
    | Partial
    | Unsupported
    | InvalidSyntax
    | AmbiguousAttachment

  datatype Record = Record(adopted: bool, translation: Translation)

  datatype Kind = ReportUnsupported | ReportInvalidSyntax | ReportPartial | ReportAmbiguousAttachment | ReportConflict

  /** The record states a whole signature that entry checking can use. */
  predicate Usable(t: Translation) {
    t.Exact? && t.canonical.Some? && t.entryOnly && !t.quotedConstraint
  }

  function ReportOf(t: Translation): Kind
    requires !Usable(t)
  {
    match t
    case Exact(canonical, _, _) => if canonical.None? then ReportInvalidSyntax else ReportUnsupported
    case Partial => ReportPartial
    case Unsupported => ReportUnsupported
    case InvalidSyntax => ReportInvalidSyntax
    case AmbiguousAttachment => ReportAmbiguousAttachment
  }

  /** The canonical spellings of the usable adopted records. */
  function Spellings(records: seq<Record>): set<string> {
    set r | r in records && r.adopted && Usable(r.translation) :: r.translation.canonical.value
  }

  predicate Blocked(records: seq<Record>) {
    exists r :: r in records && r.adopted && !Usable(r.translation)
  }

  method DecideTarget(records: seq<Record>) returns (signature: Option<string>, reports: seq<Kind>)
    ensures forall x :: signature == Some(x) <==> !Blocked(records) && Spellings(records) == {x}
    ensures ReportConflict in reports <==> |Spellings(records)| > 1 || (Blocked(records) && Spellings(records) != {})
    ensures reports == [] <==> !Blocked(records) && |Spellings(records)| <= 1
    ensures (forall r :: r in records && r.adopted && !Usable(r.translation) ==> ReportOf(r.translation) in reports)
  {
    var exact: set<string> := {};
    reports := [];
    for i := 0 to |records|
      invariant exact == Spellings(records[..i])
      invariant reports == [] <==> !Blocked(records[..i])
      invariant ReportConflict !in reports
      invariant forall r :: r in records[..i] && r.adopted && !Usable(r.translation) ==>
        ReportOf(r.translation) in reports
    {
      var record := records[i];
      assert records[..i + 1] == records[..i] + [record];
      if record.adopted {
        match record.translation {
          case Exact(canonical, entryOnly, quotedConstraint) =>
            if canonical.None? {
              reports := reports + [ReportInvalidSyntax];
            } else if !entryOnly {
              reports := reports + [ReportUnsupported];
            } else if quotedConstraint {
              reports := reports + [ReportUnsupported];
            } else {
              exact := exact + {canonical.value};
            }
          case Partial => reports := reports + [ReportPartial];
          case Unsupported => reports := reports + [ReportUnsupported];
          case InvalidSyntax => reports := reports + [ReportInvalidSyntax];
          case AmbiguousAttachment => reports := reports + [ReportAmbiguousAttachment];
        }
      }
    }
    assert records[..|records|] == records;
    var blocked := reports != [];
    if |exact| > 1 || (blocked && exact != {}) {
      reports := reports + [ReportConflict];
    }
    signature := None;
    if !blocked && |exact| == 1 {
      var only :| only in exact;
      OnlyElement(exact, only);
      signature := Some(only);
    }
  }

  lemma OnlyElement<T>(s: set<T>, x: T)
    requires |s| == 1 && x in s
    ensures s == {x}
  {
    assert |s - {x}| == 0;
  }

  // ---------------------------------------------------------------------------------------------
  // Fitting a signature to the formals
  // ---------------------------------------------------------------------------------------------

  datatype Supply = Required | Defaulted | DefaultedSuppliedOnly | SupplyUnknown

  datatype Parameter = Parameter(name: string, variadic: bool, supplied: Supply)

  datatype Formal = Formal(name: string, defaulted: bool)

  datatype Fit =
    | Fitting
    | Absent(parameter: nat)
    | Misordered(parameter: nat)
    | WrongForm(parameter: nat)
    | WrongSupply(parameter: nat)

  predicate FormOk(p: Parameter) {
    p.variadic <==> p.name == "..."
  }

  predicate SupplyOk(p: Parameter, f: Formal) {
    && (p.supplied.Defaulted? || p.supplied.DefaultedSuppliedOnly? ==> f.defaulted)
    && (p.supplied.Required? ==> !f.defaulted)
  }

  /** The parameters are, in order, the formals at these rising positions. */
  predicate Embedding(ps: seq<Parameter>, fs: seq<Formal>, at: seq<nat>) {
    && |at| == |ps|
    && (forall k :: 0 <= k < |at| ==> at[k] < |fs| && fs[at[k]].name == ps[k].name)
    && (forall j, k :: 0 <= j < k < |at| ==> at[j] < at[k])
  }

  predicate FitsAt(ps: seq<Parameter>, fs: seq<Formal>, at: seq<nat>) {
    && Embedding(ps, fs, at)
    && (forall k :: 0 <= k < |ps| ==> FormOk(ps[k]) && SupplyOk(ps[k], fs[at[k]]))
  }

  ghost predicate Fits(ps: seq<Parameter>, fs: seq<Formal>) {
    exists at :: FitsAt(ps, fs, at)
  }

  ghost predicate Embeds(ps: seq<Parameter>, fs: seq<Formal>) {
    exists at :: Embedding(ps, fs, at)
  }

  predicate Named(fs: seq<Formal>, name: string) {
    exists i :: 0 <= i < |fs| && fs[i].name == name
  }

  /** R refuses repeated formals. */
  predicate DistinctNames(fs: seq<Formal>) {
    forall i, j :: 0 <= i < j < |fs| ==> fs[i].name != fs[j].name
  }

  /** No embedding of these parameters ends before position `next`. */
  ghost predicate Earliest(ps: seq<Parameter>, fs: seq<Formal>, next: nat) {
    forall at {:trigger Embedding(ps, fs, at)} :: Embedding(ps, fs, at) && at != [] ==> at[|at| - 1] >= next - 1
  }

  /** The first match at or after the earliest position is again the earliest. */
  lemma EarliestStep(ps: seq<Parameter>, fs: seq<Formal>, next: nat, p: Parameter, stop: nat)
    requires next <= stop <= |fs| && Earliest(ps, fs, next) && (ps == [] ==> next == 0)
    requires forall i :: next <= i < stop ==> fs[i].name != p.name
    ensures Earliest(ps + [p], fs, stop + 1)
    ensures stop == |fs| ==> !Embeds(ps + [p], fs)
  {
    forall at | Embedding(ps + [p], fs, at) ensures at[|at| - 1] >= stop {
      var before := at[..|ps|];
      assert Embedding(ps, fs, before) by {
        forall k | 0 <= k < |before| ensures fs[before[k]].name == ps[k].name {
          assert (ps + [p])[k] == ps[k];
        }
      }
      assert (ps + [p])[|ps|] == p;
      if ps != [] {
        assert before[|before| - 1] >= next - 1;
      }
    }
  }

  lemma PrefixEmbeds(ps: seq<Parameter>, fs: seq<Formal>, k: nat)
    requires k <= |ps| && Embeds(ps, fs)
    ensures Embeds(ps[..k], fs)
  {
    var at :| Embedding(ps, fs, at);
    assert Embedding(ps[..k], fs, at[..k]);
  }

  /** With distinct formals there is only one way to embed. */
  lemma OnlyEmbedding(ps: seq<Parameter>, fs: seq<Formal>, k: nat, j: nat)
    requires DistinctNames(fs) && k < |ps| && j < |fs| && fs[j].name == ps[k].name && !SupplyOk(ps[k], fs[j])
    ensures !Fits(ps, fs)
  {
    forall at | Embedding(ps, fs, at) ensures !FitsAt(ps, fs, at) {
      assert fs[at[k]].name == fs[j].name;
    }
  }

  /** A declared signature constrains an ordered subset of the formals. */
  method MatchesFormals(ps: seq<Parameter>, fs: seq<Formal>) returns (r: Fit)
    ensures r.Fitting? ==> Fits(ps, fs)
    ensures !r.Fitting? && DistinctNames(fs) ==> !Fits(ps, fs)
    ensures !r.Fitting? ==> r.parameter < |ps|
    ensures r.Absent? ==> !Named(fs, ps[r.parameter].name)
    ensures r.Misordered? ==> Named(fs, ps[r.parameter].name) && !Embeds(ps[..r.parameter + 1], fs)
    ensures r.Absent? || r.Misordered? ==> !Embeds(ps, fs)
    ensures r.WrongForm? ==> !FormOk(ps[r.parameter])
    ensures r.WrongForm? || r.WrongSupply? ==> Embeds(ps[..r.parameter + 1], fs)
  {
    var next := 0;
    ghost var at: seq<nat> := [];
    for k := 0 to |ps|
      invariant next <= |fs| && (k == 0 ==> next == 0) && |at| == k && (k > 0 ==> at[k - 1] == next - 1)
      invariant FitsAt(ps[..k], fs, at)
      invariant Earliest(ps[..k], fs, next)
    {
      var p := ps[k];
      assert ps[..k + 1] == ps[..k] + [p];
      var stop := next;
      while stop < |fs| && fs[stop].name != p.name
        invariant next <= stop <= |fs|
        invariant forall i :: next <= i < stop ==> fs[i].name != p.name
      {
        stop := stop + 1;
      }
      EarliestStep(ps[..k], fs, next, p, stop);
      if stop == |fs| {
        if Embeds(ps, fs) {
          PrefixEmbeds(ps, fs, k + 1);
        }
        if Fits(ps, fs) {
          assert Embeds(ps, fs);
        }
        var named := exists i :: 0 <= i < |fs| && fs[i].name == p.name;
        return if named then Misordered(k) else Absent(k);
      }
      at := at + [stop];
      next := stop + 1;
      assert Embedding(ps[..k + 1], fs, at);
      if p.variadic != (p.name == "...") {
        return WrongForm(k);
      }
      var defaulted := fs[stop].defaulted;
      if ((p.supplied.Defaulted? || p.supplied.DefaultedSuppliedOnly?) && !defaulted)
        || (p.supplied.Required? && defaulted) {
        if DistinctNames(fs) {
          OnlyEmbedding(ps, fs, k, stop);
        }
        return WrongSupply(k);
      }
    }
    assert ps[..|ps|] == ps;
    return Fitting;
  }
}
