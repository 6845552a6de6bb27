/**
 * Matching the arguments of a call to formals in three passes: exact names, unambiguous partial names before `...`, and
 * unnamed arguments in order (section 4.3.2 of the R Language Definition).
 */
module ArgumentMatching {
  import opened Wrappers

  /** The formal of each argument, which formals are taken, the named arguments without one, and where `...` stands. */
  datatype ArgumentMatch = ArgumentMatch(
    paramForArg: seq<Option<nat>>,
    boundParams: seq<bool>,
    unmatchedNamed: seq<nat>,
    dots: Option<nat>)

  function First(params: seq<string>, name: string): (r: Option<nat>)
    ensures r.Some? ==> r.value < |params| && params[r.value] == name && name !in params[..r.value]
    ensures r.None? <==> name !in params
  {
    if params == [] then None
    else if params[0] == name then Some(0)
    else
      match First(params[1..], name)
      case Some(k) => Some(k + 1)
      case None => None
  }

  /** Partial and positional matching stop at `...`. */
  function PartialEnd(params: seq<string>): (r: nat)
    ensures r <= |params|
  {
    match First(params, "...")
    case Some(k) => k
    case None => |params|
  }

  function Exact(params: seq<string>, name: Option<string>): (r: Option<nat>)
    ensures r.Some? ==> r.value < |params| && name == Some(params[r.value]) && params[r.value] != "..."
  {
    if name.Some? && name.value != "..." then First(params, name.value) else None
  }

  type Bindings = seq<Option<nat>>

  function ByName(params: seq<string>, names: seq<Option<string>>): (r: Bindings)
    ensures |r| == |names| && forall i :: 0 <= i < |r| ==> r[i] == Exact(params, names[i])
  {
    seq(|names|, i requires 0 <= i < |names| => Exact(params, names[i]))
  }

  /** A free formal that the name abbreviates. */
  predicate Candidate(params: seq<string>, m: Bindings, name: string, p: nat) {
    p < PartialEnd(params) && Some(p) !in m && name <= params[p]
  }

  /** The formals from `k` on that the name can still abbreviate. */
  function Candidates(params: seq<string>, m: Bindings, name: string, k: nat): (r: seq<nat>)
    ensures forall p: nat :: p in r <==> k <= p && Candidate(params, m, name, p)
    ensures forall i :: 0 <= i < |r| ==> k <= r[i]
    ensures forall i, j :: 0 <= i < j < |r| ==> r[i] < r[j]
    decreases PartialEnd(params) - k
  {
    if k >= PartialEnd(params) then []
    else (if Candidate(params, m, name, k) then [k] else []) + Candidates(params, m, name, k + 1)
  }

  /** What the second pass gives argument `i`. */
  function PartialAt(params: seq<string>, names: seq<Option<string>>, m: Bindings, i: nat): Option<nat>
    requires i < |names| == |m|
  {
    if m[i].Some? || names[i].None? then m[i]
    else
      var found := Candidates(params, m, names[i].value, 0);
      if |found| == 1 then Some(found[0]) else None
  }

  /** After the second pass over the first `n` arguments. */
  function ByPrefix(params: seq<string>, names: seq<Option<string>>, n: nat): (r: Bindings)
    requires n <= |names|
    ensures |r| == |names|
  {
    if n == 0 then ByName(params, names)
    else
      var m := ByPrefix(params, names, n - 1);
      m[n - 1 := PartialAt(params, names, m, n - 1)]
  }

  /** The first free formal before `...`, from `k` on. */
  function Free(params: seq<string>, m: Bindings, k: nat): (r: Option<nat>)
    ensures r.Some? ==> k <= r.value < PartialEnd(params) && Some(r.value) !in m
    ensures forall p :: k <= p < PartialEnd(params) && (r.Some? ==> p < r.value) ==> Some(p) in m
    decreases PartialEnd(params) - k
  {
    if k >= PartialEnd(params) then None
    else if Some(k) !in m then Some(k)
    else Free(params, m, k + 1)
  }

  /** After the third pass over the first `n` arguments. */
  function ByPosition(params: seq<string>, names: seq<Option<string>>, n: nat): (r: Bindings)
    requires n <= |names|
    ensures |r| == |names|
  {
    if n == 0 then ByPrefix(params, names, |names|)
    else
      var m := ByPosition(params, names, n - 1);
      if names[n - 1].Some? then m else m[n - 1 := Free(params, m, 0)]
  }

  function Match(params: seq<string>, names: seq<Option<string>>): (r: Bindings)
    ensures |r| == |names|
  {
    ByPosition(params, names, |names|)
  }

  // ---------------------------------------------------------------------------------------------
  // What the passes keep
  // ---------------------------------------------------------------------------------------------

  /** The argument was matched by its exact name. */
  predicate IsExact(params: seq<string>, names: seq<Option<string>>, i: nat)
    requires i < |names|
  {
    Exact(params, names[i]).Some?
  }

  /**
   * Exact names keep their formal, others have formals of their own before `...`, abbreviated by the name if there is
   * one.
   */
  ghost predicate MatchOk(params: seq<string>, names: seq<Option<string>>, m: Bindings)
    requires |m| == |names|
  {
    && (forall i: nat {:trigger m[i]} :: i < |m| && IsExact(params, names, i) ==> m[i] == Exact(params, names[i]))
    && (forall i: nat {:trigger m[i]} :: i < |m| && m[i].Some? && !IsExact(params, names, i) ==>
          m[i].value < PartialEnd(params) && (names[i].Some? ==> names[i].value <= params[m[i].value]))
    && (forall i: nat, j: nat {:trigger m[i], m[j]} :: i < |m| && j < |m| && i != j && m[i].Some? && m[i] == m[j] ==>
          IsExact(params, names, i) && IsExact(params, names, j))
  }

  lemma ByNameOk(params: seq<string>, names: seq<Option<string>>)
    ensures MatchOk(params, names, ByName(params, names))
  {
  }

  /** A free formal goes to one more argument. */
  lemma BindOk(params: seq<string>, names: seq<Option<string>>, m: Bindings, i: nat, p: nat)
    requires |m| == |names| && MatchOk(params, names, m) && i < |m| && !IsExact(params, names, i)
    requires p < PartialEnd(params) && Some(p) !in m && (names[i].Some? ==> names[i].value <= params[p])
    ensures MatchOk(params, names, m[i := Some(p)])
  {
  }

  lemma PartialOk(params: seq<string>, names: seq<Option<string>>, m: Bindings, i: nat)
    requires i < |names| == |m| && MatchOk(params, names, m)
    ensures MatchOk(params, names, m[i := PartialAt(params, names, m, i)])
  {
    if m[i].None? && names[i].Some? {
      var found := Candidates(params, m, names[i].value, 0);
      if |found| == 1 {
        assert found[0] in found;
        BindOk(params, names, m, i, found[0]);
      }
    } else {
      assert m[i := m[i]] == m;
    }
  }

  lemma {:induction false} ByPrefixOk(params: seq<string>, names: seq<Option<string>>, n: nat)
    requires n <= |names|
    ensures MatchOk(params, names, ByPrefix(params, names, n))
  {
    if n == 0 {
      ByNameOk(params, names);
    } else {
      ByPrefixOk(params, names, n - 1);
      PartialOk(params, names, ByPrefix(params, names, n - 1), n - 1);
    }
  }

  lemma {:induction false} UnnamedStay(params: seq<string>, names: seq<Option<string>>, n: nat)
    requires n <= |names|
    ensures forall i :: 0 <= i < |names| && names[i].None? ==> ByPrefix(params, names, n)[i].None?
  {
    if n > 0 {
      UnnamedStay(params, names, n - 1);
    }
  }

  /** An unnamed argument left without a formal, or with a later one, means the formal is taken. */
  predicate Passed(params: seq<string>, m: Bindings, i: nat, p: nat)
    requires i < |m|
  {
    p < PartialEnd(params) && (m[i].Some? ==> p < m[i].value) ==> Some(p) in m
  }

  /** The unnamed arguments among the first `n` take the free formals in order; the others wait. */
  ghost predicate InOrder(params: seq<string>, names: seq<Option<string>>, m: Bindings, n: nat)
    requires n <= |names| == |m|
  {
    && (forall j: nat {:trigger m[j]} :: n <= j < |m| && names[j].None? ==> m[j].None?)
    && (forall i: nat, j: nat {:trigger m[i], m[j]} :: i < j < n && names[i].None? && names[j].None? && m[j].Some? ==>
          m[i].Some? && m[i].value < m[j].value)
    && (forall i: nat, p: nat {:trigger Passed(params, m, i, p)} :: i < n && names[i].None? ==> Passed(params, m, i, p))
  }

  lemma StillIn(m: Bindings, i: nat, b: Option<nat>, p: nat)
    requires i < |m| && m[i].None? && Some(p) in m
    ensures Some(p) in m[i := b]
  {
    var k :| 0 <= k < |m| && m[k] == Some(p);
    assert m[i := b][k] == Some(p);
  }

  lemma InOrderStep(params: seq<string>, names: seq<Option<string>>, m: Bindings, i: nat)
    requires i < |names| == |m| && InOrder(params, names, m, i) && names[i].None?
    ensures InOrder(params, names, m[i := Free(params, m, 0)], i + 1)
  {
    var free := Free(params, m, 0);
    var m' := m[i := free];
    forall k: nat, p: nat | k < i + 1 && names[k].None? ensures Passed(params, m', k, p) {
      if p < PartialEnd(params) && (m'[k].Some? ==> p < m'[k].value) {
        if k < i {
          assert Passed(params, m, k, p);
        }
        StillIn(m, i, free, p);
      }
    }
    forall k: nat | k < i && names[k].None? && free.Some? ensures m[k].Some? && m[k].value < free.value {
      assert Passed(params, m, k, free.value);
      assert m[k].Some? ==> Some(m[k].value) in m;
    }
  }

  lemma {:induction false} ByPositionOk(params: seq<string>, names: seq<Option<string>>, n: nat)
    requires n <= |names|
    ensures MatchOk(params, names, ByPosition(params, names, n))
  {
    if n == 0 {
      ByPrefixOk(params, names, |names|);
    } else {
      ByPositionOk(params, names, n - 1);
      var m := ByPosition(params, names, n - 1);
      if names[n - 1].None? {
        FreeOk(params, names, m, n - 1);
      }
    }
  }

  lemma FreeOk(params: seq<string>, names: seq<Option<string>>, m: Bindings, i: nat)
    requires i < |names| == |m| && MatchOk(params, names, m) && names[i].None?
    ensures MatchOk(params, names, m[i := Free(params, m, 0)])
  {
    var free := Free(params, m, 0);
    if free.Some? {
      BindOk(params, names, m, i, free.value);
    }
  }

  lemma {:induction false} ByPositionInOrder(params: seq<string>, names: seq<Option<string>>, n: nat)
    requires n <= |names|
    ensures InOrder(params, names, ByPosition(params, names, n), n)
  {
    if n == 0 {
      UnnamedStay(params, names, |names|);
    } else {
      ByPositionInOrder(params, names, n - 1);
      var m := ByPosition(params, names, n - 1);
      if names[n - 1].None? {
        InOrderStep(params, names, m, n - 1);
      } else {
        StaysInOrder(params, names, m, n - 1);
      }
    }
  }

  lemma StaysInOrder(params: seq<string>, names: seq<Option<string>>, m: Bindings, i: nat)
    requires i < |names| == |m| && InOrder(params, names, m, i) && names[i].Some?
    ensures InOrder(params, names, m, i + 1)
  {
  }

  // ---------------------------------------------------------------------------------------------
  // Which names find their formal, and which formals unnamed arguments reach
  // ---------------------------------------------------------------------------------------------

  /** When it is the turn of argument `i`, exact names and earlier abbreviations have taken their formals. */
  ghost predicate TakenAtTurn(params: seq<string>, names: seq<Option<string>>, m: Bindings, i: nat, p: nat)
    requires |m| == |names|
  {
    exists j: nat :: j < |m| && m[j] == Some(p) && (IsExact(params, names, j) || (j < i && names[j].Some?))
  }

  /** A formal before `...`, free at the argument's turn, that its name abbreviates. */
  ghost predicate Abbreviates(params: seq<string>, names: seq<Option<string>>, m: Bindings, i: nat, p: nat)
    requires i < |m| == |names| && names[i].Some?
  {
    p < PartialEnd(params) && names[i].value <= params[p] && !TakenAtTurn(params, names, m, i, p)
  }

  /** A name that is no formal's gets the one formal it abbreviates at its turn, and none if there are none or more. */
  ghost predicate OnlyAbbreviation(params: seq<string>, names: seq<Option<string>>, m: Bindings, i: nat)
    requires i < |m| == |names| && names[i].Some?
  {
    forall p: nat {:trigger Abbreviates(params, names, m, i, p)} ::
      m[i] == Some(p) <==>
        && Abbreviates(params, names, m, i, p)
        && forall q: nat {:trigger Abbreviates(params, names, m, i, q)} :: Abbreviates(params, names, m, i, q) ==>
          q == p
  }

  /** What a named argument gets at its turn it keeps. */
  lemma {:induction false} NamedKept(params: seq<string>, names: seq<Option<string>>, n: nat, i: nat)
    requires n <= |names| && i < |names| && names[i].Some?
    ensures ByPosition(params, names, n)[i] == ByPrefix(params, names, |names|)[i]
  {
    if n > 0 {
      NamedKept(params, names, n - 1, i);
    }
  }

  /** The second pass has not reached argument `i`, or has left it. */
  lemma {:induction false} TurnKept(params: seq<string>, names: seq<Option<string>>, n: nat, k: nat, i: nat)
    requires n <= k <= |names| && i < |names| && (i < n || k <= i)
    ensures ByPrefix(params, names, k)[i] == ByPrefix(params, names, n)[i]
  {
    if n < k {
      TurnKept(params, names, n, k - 1, i);
    }
  }

  lemma {:induction false} ExactKept(params: seq<string>, names: seq<Option<string>>, n: nat, i: nat)
    requires n <= |names| && i < |names| && IsExact(params, names, i)
    ensures ByPrefix(params, names, n)[i] == Exact(params, names[i])
  {
    if n > 0 {
      ExactKept(params, names, n - 1, i);
    }
  }

  /** Before argument `i`'s turn exactly the formals taken then have an argument. */
  lemma TakenIsBound(params: seq<string>, names: seq<Option<string>>, i: nat, p: nat)
    requires i < |names|
    ensures Some(p) in ByPrefix(params, names, i) <==> TakenAtTurn(params, names, Match(params, names), i, p)
  {
    var before, m := ByPrefix(params, names, i), Match(params, names);
    forall j: nat | j < |names|
      ensures names[j].Some? && (IsExact(params, names, j) || j < i) ==> m[j] == before[j]
      ensures !(IsExact(params, names, j) || (j < i && names[j].Some?)) ==> before[j].None?
    {
      TurnAt(params, names, i, j);
    }
    if Some(p) in before {
      var j: nat :| j < |before| && before[j] == Some(p);
      assert m[j] == Some(p);
    }
    if TakenAtTurn(params, names, m, i, p) {
      var j: nat :| j < |m| && m[j] == Some(p) && (IsExact(params, names, j) || (j < i && names[j].Some?));
      assert before[j] == Some(p);
    }
  }

  lemma TurnAt(params: seq<string>, names: seq<Option<string>>, i: nat, j: nat)
    requires i < |names| && j < |names|
    ensures names[j].Some? && (IsExact(params, names, j) || j < i) ==>
      Match(params, names)[j] == ByPrefix(params, names, i)[j]
    ensures !(IsExact(params, names, j) || (j < i && names[j].Some?)) ==> ByPrefix(params, names, i)[j].None?
  {
    if names[j].Some? {
      NamedKept(params, names, |names|, j);
      if IsExact(params, names, j) {
        ExactKept(params, names, i, j);
        ExactKept(params, names, |names|, j);
      } else if j < i {
        TurnKept(params, names, i, |names|, j);
      } else {
        TurnKept(params, names, 0, i, j);
      }
    } else {
      UnnamedStay(params, names, i);
    }
  }

  lemma Abbreviated(params: seq<string>, names: seq<Option<string>>, i: nat)
    requires i < |names| && names[i].Some? && !IsExact(params, names, i)
    ensures OnlyAbbreviation(params, names, Match(params, names), i)
  {
    var before, m := ByPrefix(params, names, i), Match(params, names);
    NamedKept(params, names, |names|, i);
    TurnKept(params, names, i + 1, |names|, i);
    TurnKept(params, names, 0, i, i);
    assert m[i] == PartialAt(params, names, before, i);
    var found := Candidates(params, before, names[i].value, 0);
    forall p: nat ensures p in found <==> Abbreviates(params, names, m, i, p) {
      TakenIsBound(params, names, i, p);
    }
    forall p: nat
      ensures m[i] == Some(p) <==>
        && Abbreviates(params, names, m, i, p)
        && forall q: nat {:trigger Abbreviates(params, names, m, i, q)} :: Abbreviates(params, names, m, i, q) ==>
          q == p
    {
      OnlyOne(found, p);
      assert p in found <==> Abbreviates(params, names, m, i, p);
    }
  }

  /** A rising list holds one element alone exactly when it is that list. */
  lemma OnlyOne(found: seq<nat>, p: nat)
    requires forall i, j :: 0 <= i < j < |found| ==> found[i] < found[j]
    ensures (|found| == 1 && found[0] == p) <==> p in found && forall q :: q in found ==> q == p
  {
    if |found| > 1 {
      assert found[0] in found && found[1] in found;
    }
  }

  function Unnamed(names: seq<Option<string>>): (r: nat)
    ensures r <= |names|
  {
    if names == [] then 0
    else Unnamed(names[..|names| - 1]) + if names[|names| - 1].None? then 1 else 0
  }

  /** The formals before `q` that no named argument took. */
  function FreeBefore(m: Bindings, q: nat): (r: nat)
    ensures r <= q
  {
    if q == 0 then 0 else FreeBefore(m, q - 1) + if Some(q - 1) in m then 0 else 1
  }

  lemma {:induction false} FreeRises(m: Bindings, p: nat, q: nat)
    requires p < q
    ensures FreeBefore(m, p) <= FreeBefore(m, q)
    ensures Some(p) !in m ==> FreeBefore(m, p) < FreeBefore(m, q)
  {
    if p < q - 1 {
      FreeRises(m, p, q - 1);
    }
  }

  lemma {:induction false} FreeAt(m: Bindings, q: nat, c: nat) returns (p: nat)
    requires c < FreeBefore(m, q)
    ensures p < q && Some(p) !in m && FreeBefore(m, p) == c
  {
    if c < FreeBefore(m, q - 1) {
      p := FreeAt(m, q - 1, c);
    } else {
      p := q - 1;
    }
  }

  /** The formal has an argument exactly when a name took it or `c` unnamed arguments get as far. */
  ghost predicate Filled(first: Bindings, m: Bindings, c: nat, q: nat) {
    Some(q) in m <==> Some(q) in first || c > FreeBefore(first, q)
  }

  ghost predicate AllFilled(params: seq<string>, first: Bindings, m: Bindings, c: nat) {
    forall q: nat {:trigger Filled(first, m, c, q)} :: q < PartialEnd(params) ==> Filled(first, m, c, q)
  }

  lemma FreeBelow(params: seq<string>, first: Bindings, m: Bindings, c: nat, q: nat) returns (p: nat)
    requires AllFilled(params, first, m, c) && q < PartialEnd(params) && FreeBefore(first, q) > c
    ensures p < q && Some(p) !in m
  {
    p := FreeAt(first, q, c);
    assert Filled(first, m, c, p);
  }

  lemma FreeIsNext(params: seq<string>, first: Bindings, m: Bindings, c: nat)
    requires AllFilled(params, first, m, c) && Free(params, m, 0).Some?
    ensures FreeBefore(first, Free(params, m, 0).value) == c
  {
    var free := Free(params, m, 0);
    assert Filled(first, m, c, free.value);
    if FreeBefore(first, free.value) > c {
      var p := FreeBelow(params, first, m, c, free.value);
    }
  }

  /** One more unnamed argument takes the first free formal. */
  lemma FillsNext(params: seq<string>, first: Bindings, m: Bindings, i: nat, c: nat, q: nat)
    requires i < |m| && m[i].None? && q < PartialEnd(params) && AllFilled(params, first, m, c)
    ensures Filled(first, m[i := Free(params, m, 0)], c + 1, q)
  {
    var free := Free(params, m, 0);
    assert Filled(first, m, c, q);
    if Some(q) in m {
      StillIn(m, i, free, q);
    } else {
      FreeIsNext(params, first, m, c);
      assert Filled(first, m, c, free.value);
      assert m[i := free][i] == free;
      if free.value < q {
        FreeRises(first, free.value, q);
      }
    }
  }

  /**
   * Unnamed arguments reach a formal that no name took exactly when there are more of them than such formals before it.
   */
  lemma {:induction false} FilledSoFar(params: seq<string>, names: seq<Option<string>>, n: nat)
    requires n <= |names|
    ensures AllFilled(params, ByPrefix(params, names, |names|), ByPosition(params, names, n), Unnamed(names[..n]))
  {
    if n > 0 {
      var first, m, c := ByPrefix(params, names, |names|), ByPosition(params, names, n - 1), Unnamed(names[..n - 1]);
      assert names[..n][..n - 1] == names[..n - 1];
      FilledSoFar(params, names, n - 1);
      if names[n - 1].None? {
        UnnamedWaits(params, names, n - 1);
        var m' := m[n - 1 := Free(params, m, 0)];
        forall q: nat {:trigger Filled(first, m', c + 1, q)} | q < PartialEnd(params)
          ensures Filled(first, m', c + 1, q)
        {
          FillsNext(params, first, m, n - 1, c, q);
        }
        assert AllFilled(params, first, m', c + 1);
      }
    }
  }

  // ---------------------------------------------------------------------------------------------
  // The loops
  // ---------------------------------------------------------------------------------------------

  /** A formal is marked exactly when an argument has it. */
  predicate Marked(params: seq<string>, m: Bindings, bound: seq<bool>) {
    |bound| == |params| && forall p: nat :: p < |params| ==> (bound[p] <==> Some(p) in m)
  }

  lemma MarkOne(params: seq<string>, m: Bindings, bound: seq<bool>, i: nat, p: nat)
    requires Marked(params, m, bound) && i < |m| && m[i].None? && p < |params|
    ensures Marked(params, m[i := Some(p)], bound[p := true])
  {
    var m' := m[i := Some(p)];
    assert m'[i] == Some(p);
    forall q: nat | q < |params| ensures bound[p := true][q] <==> Some(q) in m' {
      if Some(q) in m {
        var k :| 0 <= k < |m| && m[k] == Some(q);
        assert m'[k] == Some(q);
      }
    }
  }

  /**
   * The unnamed arguments of the first `n` are all that pass three has changed; the named ones without a formal are
   * noted.
   */
  function Unmatched(names: seq<Option<string>>, m: Bindings, n: nat): (r: seq<nat>)
    requires n <= |names| == |m|
    ensures forall i: nat :: i in r <==> i < n && names[i].Some? && m[i].None?
  {
    if n == 0 then []
    else Unmatched(names, m, n - 1) + if names[n - 1].Some? && m[n - 1].None? then [n - 1] else []
  }

  /**
   * Exact names first, then unambiguous abbreviations, then the unnamed arguments in order: exact names always get
   * their formal, any other name the one free formal it abbreviates and only then, no two such arguments share one, and
   * unnamed arguments fill the formals before `...` from left to right.
   */
  lemma MatchIsOrdered(params: seq<string>, names: seq<Option<string>>)
    ensures MatchOk(params, names, Match(params, names)) && InOrder(params, names, Match(params, names), |names|)
    ensures forall i: nat :: i < |names| && names[i].Some? && !IsExact(params, names, i) ==>
      OnlyAbbreviation(params, names, Match(params, names), i)
  {
    ByPositionOk(params, names, |names|);
    ByPositionInOrder(params, names, |names|);
    forall i: nat | i < |names| && names[i].Some? && !IsExact(params, names, i)
      ensures OnlyAbbreviation(params, names, Match(params, names), i)
    {
      Abbreviated(params, names, i);
    }
  }

  /** A formal before `...` has an argument exactly when a name took it, or the unnamed arguments get as far. */
  lemma SuppliedExactly(params: seq<string>, names: seq<Option<string>>, p: nat)
    requires p < PartialEnd(params)
    ensures Some(p) in Match(params, names) <==>
      || Some(p) in ByPrefix(params, names, |names|)
      || Unnamed(names) > FreeBefore(ByPrefix(params, names, |names|), p)
  {
    FilledSoFar(params, names, |names|);
    assert names[..|names|] == names;
    assert Filled(ByPrefix(params, names, |names|), Match(params, names), Unnamed(names), p);
  }

  /** Match the arguments of a call, given their names. */
  method MatchArgumentNames(params: seq<string>, names: seq<Option<string>>) returns (r: ArgumentMatch)
    ensures r.paramForArg == Match(params, names) && Marked(params, r.paramForArg, r.boundParams)
    ensures r.unmatchedNamed == Unmatched(names, r.paramForArg, |names|) && r.dots == First(params, "...")
  {
    var bindings, bound := MatchNames(params, names);
    var unmatched: seq<nat>;
    bindings, bound, unmatched := MatchUnnamed(params, names, bindings, bound);
    r := ArgumentMatch(bindings, bound, unmatched, First(params, "..."));
  }

  /** The first two passes. */
  method MatchNames(params: seq<string>, names: seq<Option<string>>) returns (m: Bindings, bound: seq<bool>)
    ensures m == ByPrefix(params, names, |names|) && Marked(params, m, bound)
  {
    m, bound := seq(|names|, _ => None), seq(|params|, _ => false);
    for i := 0 to |names|
      invariant |m| == |names|
      invariant forall j :: 0 <= j < |m| ==> m[j] == if j < i then Exact(params, names[j]) else None
      invariant Marked(params, m, bound)
    {
      var found := Exact(params, names[i]);
      if found.Some? {
        MarkOne(params, m, bound, i, found.value);
        m, bound := m[i := found], bound[found.value := true];
      }
    }
    assert m == ByName(params, names);
    for i := 0 to |names|
      invariant m == ByPrefix(params, names, i) && Marked(params, m, bound)
    {
      if m[i].None? && names[i].Some? {
        var found := Candidates(params, m, names[i].value, 0);
        if |found| == 1 {
          assert found[0] in found;
          MarkOne(params, m, bound, i, found[0]);
          m, bound := m[i := Some(found[0])], bound[found[0] := true];
        } else {
          assert m[i := None] == m;
        }
      } else {
        assert m[i := m[i]] == m;
      }
    }
  }

  lemma UnnamedWaits(params: seq<string>, names: seq<Option<string>>, i: nat)
    requires i < |names| && names[i].None?
    ensures ByPosition(params, names, i)[i].None?
  {
    ByPositionInOrder(params, names, i);
  }

  /** Everything before the cursor is taken. */
  predicate TakenBefore(params: seq<string>, bound: seq<bool>, next: nat) {
    next <= PartialEnd(params) <= |bound| && forall p: nat :: p < next ==> bound[p]
  }

  /** Give the next unnamed argument the first free formal, if there is one. */
  method PlaceNext(params: seq<string>, m: Bindings, bound: seq<bool>, i: nat, cursor: nat)
    returns (m': Bindings, bound': seq<bool>, next: nat)
    requires i < |m| && m[i].None? && Marked(params, m, bound) && TakenBefore(params, bound, cursor)
    ensures m' == m[i := Free(params, m, 0)] && Marked(params, m', bound') && TakenBefore(params, bound', next)
  {
    m', bound', next := m, bound, cursor;
    while next < PartialEnd(params) && bound[next]
      invariant TakenBefore(params, bound, next)
    {
      next := next + 1;
    }
    FreeIs(params, m, 0, next);
    if next < PartialEnd(params) {
      MarkOne(params, m, bound, i, next);
      m', bound' := m[i := Some(next)], bound[next := true];
      next := next + 1;
    }
  }

  /** The third pass: a cursor moves over the formals that are taken. */
  method MatchUnnamed(params: seq<string>, names: seq<Option<string>>, start: Bindings, taken: seq<bool>)
    returns (m: Bindings, bound: seq<bool>, unmatched: seq<nat>)
    requires start == ByPrefix(params, names, |names|) && Marked(params, start, taken)
    ensures m == Match(params, names) && Marked(params, m, bound) && unmatched == Unmatched(names, m, |names|)
  {
    m, bound, unmatched := start, taken, [];
    var next := 0;
    for i := 0 to |names|
      invariant m == ByPosition(params, names, i) && Marked(params, m, bound) && TakenBefore(params, bound, next)
      invariant unmatched == Unmatched(names, m, i)
    {
      assert Unmatched(names, m, i + 1) == unmatched + if names[i].Some? && m[i].None? then [i] else [];
      if names[i].Some? {
        if m[i].None? {
          unmatched := unmatched + [i];
        }
      } else {
        ghost var before := m;
        UnnamedWaits(params, names, i);
        m, bound, next := PlaceNext(params, m, bound, i, next);
        SameUnmatched(names, before, m, i);
      }
    }
  }

  /** The first free formal is where the cursor stops. */
  lemma {:induction false} FreeIs(params: seq<string>, m: Bindings, k: nat, next: nat)
    requires k <= next <= PartialEnd(params)
    requires forall p: nat :: k <= p < next ==> Some(p) in m
    requires next < PartialEnd(params) ==> Some(next) !in m
    ensures Free(params, m, k) == if next < PartialEnd(params) then Some(next) else None
    decreases next - k
  {
    if k < next {
      FreeIs(params, m, k + 1, next);
    }
  }

  lemma {:induction false} SameUnmatched(names: seq<Option<string>>, m: Bindings, m': Bindings, n: nat)
    requires n <= |names| == |m| == |m'| && forall i :: 0 <= i < n ==> m[i] == m'[i]
    ensures Unmatched(names, m, n) == Unmatched(names, m', n)
  {
    if n > 0 {
      SameUnmatched(names, m, m', n - 1);
    }
  }
}
