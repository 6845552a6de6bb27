/** Where the rules for passing on evaluation flags come from: methods and their generics, and forwarded formals. */
module EvalRules {
  import opened Wrappers
  import opened ArgumentMatching
  import opened EvalFlags

  /** A function's formals, and those that may be read before it dispatches to a method. */
  datatype Function = Function(params: seq<string>, read: set<string>)

  /** What a call selects: a function of the project, a stub with the flags of its formals, or nothing known. */
  datatype Callee = Project(fn: nat) | Stub(params: seq<string>, flags: seq<Flags>) | Unresolved

  /** A call in a function's body; an argument has a name, if any, and the formal it forwards, if it is one. */
  datatype Call = Call(caller: nat, callee: Callee, arguments: seq<(Option<string>, Option<string>)>, start: nat)

  /**
   * `methods` lists the methods of each generic. `missingOnly` says which formals are only probed with `missing()`, and
   * `defusedBut` whether a formal is defused when the calls that start at these places are passed over.
   */
  datatype Program = Program(
    functions: seq<Function>,
    methods: seq<(nat, seq<nat>)>,
    calls: seq<Call>,
    missingOnly: (nat, nat) -> bool,
    defusedBut: (nat, string, set<nat>) -> bool)

  predicate CallOk(p: Program, c: Call) {
    && c.caller < |p.functions|
    && (c.callee.Project? ==> c.callee.fn < |p.functions|)
    && (c.callee.Stub? ==> |c.callee.flags| == |c.callee.params|)
  }

  predicate ProgramOk(p: Program) {
    && (forall i :: 0 <= i < |p.methods| ==> p.methods[i].0 < |p.functions|)
    && (forall i, j :: 0 <= i < |p.methods| && 0 <= j < |p.methods[i].1| ==> p.methods[i].1[j] < |p.functions|)
    && (forall i :: 0 <= i < |p.calls| ==> CallOk(p, p.calls[i]))
  }

  /** One row of flags for each function, one for each formal. */
  predicate Fits(p: Program, t: Table) {
    |t| == |p.functions| && forall f :: 0 <= f < |t| ==> |t[f]| == |p.functions[f].params|
  }

  // ---------------------------------------------------------------------------------------------
  // From methods to generics
  // ---------------------------------------------------------------------------------------------

  /** The generic's formal that a method's formal is supplied through: the one of the same name, else `...`. */
  function Through(generic: seq<string>, name: string): (r: Option<nat>)
    ensures r.Some? ==> r.value < |generic|
  {
    if First(generic, name).Some? then First(generic, name) else First(generic, "...")
  }

  /** What formal `q` of method `m` gives to generic `g`. */
  function MethodRule(p: Program, g: nat, m: nat, q: nat): (r: Option<Rule>)
    requires g < |p.functions| && m < |p.functions| && q < |p.functions[m].params|
  {
    match Through(p.functions[g].params, p.functions[m].params[q])
    case Some(t) =>
      if p.functions[g].params[t] in p.functions[g].read then None
      else Some(Inherit(Cell(g, t), Cell(m, q), true))
    case None => None
  }

  ghost predicate PairGives(p: Program, g: nat, m: nat, r: Rule)
    requires g < |p.functions| && m < |p.functions|
  {
    exists q: nat :: q < |p.functions[m].params| && MethodRule(p, g, m, q) == Some(r)
  }

  ghost predicate GenericGives(p: Program, i: nat, r: Rule)
    requires ProgramOk(p) && i < |p.methods|
  {
    exists j: nat :: j < |p.methods[i].1| && PairGives(p, p.methods[i].0, p.methods[i].1[j], r)
  }

  /** Some formal of some method gives the rule. */
  ghost predicate FromMethods(p: Program, r: Rule)
    requires ProgramOk(p)
  {
    exists i: nat :: i < |p.methods| && GenericGives(p, i, r)
  }

  method MethodRules(p: Program) returns (rules: seq<Rule>)
    requires ProgramOk(p)
    ensures forall r :: r in rules <==> FromMethods(p, r)
  {
    rules := [];
    for i := 0 to |p.methods|
      invariant forall r :: r in rules <==> exists k: nat :: k < i && GenericGives(p, k, r)
    {
      var more := GenericRules(p, i);
      rules := rules + more;
    }
  }

  method GenericRules(p: Program, i: nat) returns (rules: seq<Rule>)
    requires ProgramOk(p) && i < |p.methods|
    ensures forall r :: r in rules <==> GenericGives(p, i, r)
  {
    rules := [];
    var g, ms := p.methods[i].0, p.methods[i].1;
    for j := 0 to |ms|
      invariant forall r :: r in rules <==> exists k: nat :: k < j && PairGives(p, g, ms[k], r)
    {
      var more := PairRules(p, g, ms[j]);
      rules := rules + more;
    }
  }

  method PairRules(p: Program, g: nat, m: nat) returns (rules: seq<Rule>)
    requires g < |p.functions| && m < |p.functions|
    ensures forall r :: r in rules <==> PairGives(p, g, m, r)
  {
    rules := [];
    for q := 0 to |p.functions[m].params|
      invariant forall r :: r in rules <==> exists k: nat :: k < q && MethodRule(p, g, m, k) == Some(r)
    {
      var rule := MethodRule(p, g, m, q);
      if rule.Some? {
        rules := rules + [rule.value];
      }
    }
  }

  // ---------------------------------------------------------------------------------------------
  // From callees to callers
  // ---------------------------------------------------------------------------------------------

  function ArgumentNames(c: Call): (r: seq<Option<string>>)
    ensures |r| == |c.arguments|
  {
    seq(|c.arguments|, k requires 0 <= k < |c.arguments| => c.arguments[k].0)
  }

  function CalleeParams(p: Program, c: Call): seq<string>
    requires CallOk(p, c)
  {
    match c.callee
    case Project(fn) => p.functions[fn].params
    case Stub(params, _) => params
    case Unresolved => []
  }

  /** The callee's formal that argument `k` reaches: `...` reaches `...`, and so does what no formal takes. */
  function Reaches(params: seq<string>, bindings: Bindings, k: nat, source: string): (r: Option<nat>)
    requires k < |bindings|
    ensures r.Some? && (bindings[k].Some? ==> bindings[k].value < |params|) ==> r.value < |params|
  {
    if source != "..." && bindings[k].Some? then bindings[k] else First(params, "...")
  }

  function Matched(p: Program, c: Call): (r: Bindings)
    requires CallOk(p, c)
    ensures |r| == |c.arguments|
  {
    Match(CalleeParams(p, c), ArgumentNames(c))
  }

  /** What argument `k` of a call gives to the caller's formal that it forwards. */
  function ArgumentRule(p: Program, c: Call, bindings: Bindings, k: nat): (r: Option<Rule>)
    requires CallOk(p, c) && k < |c.arguments| == |bindings|
  {
    if c.arguments[k].1.None? then None
    else
      var source := c.arguments[k].1.value;
      match First(p.functions[c.caller].params, source)
      case None => None
      case Some(s) =>
        if c.callee.Unresolved? then Some(Given(Cell(c.caller, s), Flags(false, false, Full)))
        else
          match Reaches(CalleeParams(p, c), bindings, k, source)
          case None => None
          case Some(t) =>
            if c.callee.Project? then Some(Inherit(Cell(c.caller, s), Cell(c.callee.fn, t), source == "..."))
            else if t >= |c.callee.flags| then None
            else
              var f := c.callee.flags[t];
              Some(Given(Cell(c.caller, s), Flags(f.quoting, f.defused && source == "...", f.injection)))
  }

  ghost predicate CallGives(p: Program, c: Call, r: Rule)
    requires CallOk(p, c)
  {
    exists k: nat :: k < |c.arguments| && ArgumentRule(p, c, Matched(p, c), k) == Some(r)
  }

  /**
   * Whether argument `k` of the call forwards the formal to a formal of a project function, and if so whether that one
   * is only probed.
   */
  function Probe(p: Program, c: Call, k: nat, f: nat, name: string): Option<bool>
    requires CallOk(p, c) && k < |c.arguments|
  {
    if c.caller == f && c.callee.Project? && c.arguments[k].1 == Some(name) && name != "..." then
      match Reaches(CalleeParams(p, c), Matched(p, c), k, name)
      case Some(t) => Some(p.missingOnly(c.callee.fn, t))
      case None => None
    else None
  }

  ghost predicate Probes(p: Program, c: Call, f: nat, name: string, only: bool)
    requires CallOk(p, c)
  {
    exists k: nat :: k < |c.arguments| && Probe(p, c, k, f, name) == Some(only)
  }

  /** One of the first `n` calls, at this place, does. */
  ghost predicate ProbedAmong(p: Program, n: nat, start: nat, f: nat, name: string, only: bool)
    requires ProgramOk(p) && n <= |p.calls|
  {
    exists i: nat :: i < n && p.calls[i].start == start && Probes(p, p.calls[i], f, name, only)
  }

  ghost predicate ProbeAt(p: Program, start: nat, f: nat, name: string, only: bool)
    requires ProgramOk(p)
  {
    ProbedAmong(p, |p.calls|, start, f, name, only)
  }

  lemma ProbedNext(p: Program, n: nat, start: nat, f: nat, name: string, only: bool)
    requires ProgramOk(p) && n < |p.calls|
    ensures ProbedAmong(p, n + 1, start, f, name, only) <==>
      ProbedAmong(p, n, start, f, name, only) || (p.calls[n].start == start && Probes(p, p.calls[n], f, name, only))
  {
    if i: nat :| i < n && p.calls[i].start == start && Probes(p, p.calls[i], f, name, only) {
      assert i < n + 1;
    }
  }

  /** The calls that only probe the formal, wherever it stands among their arguments. */
  ghost predicate Skips(p: Program, skipped: set<nat>, f: nat, name: string)
    requires ProgramOk(p)
  {
    forall start :: start in skipped <==> ProbeAt(p, start, f, name, true) && !ProbeAt(p, start, f, name, false)
  }

  /** Formal `s` is defused once the calls that only probe it are passed over. */
  ghost predicate SkippingGives(p: Program, f: nat, s: nat, r: Rule)
    requires ProgramOk(p) && f < |p.functions| && s < |p.functions[f].params|
  {
    var name := p.functions[f].params[s];
    && First(p.functions[f].params, name) == Some(s) && r == Given(Cell(f, s), Flags(false, true, NoInjection))
    && exists skipped :: Skips(p, skipped, f, name) && skipped != {} && p.defusedBut(f, name, skipped)
  }

  ghost predicate FunctionSkips(p: Program, f: nat, r: Rule)
    requires ProgramOk(p) && f < |p.functions|
  {
    exists s: nat :: s < |p.functions[f].params| && SkippingGives(p, f, s, r)
  }

  /** Some forwarded argument gives the rule, or passing over the calls that only probe a formal does. */
  ghost predicate FromCalls(p: Program, r: Rule)
    requires ProgramOk(p)
  {
    || (exists i: nat :: i < |p.calls| && CallGives(p, p.calls[i], r))
    || (exists f: nat :: f < |p.functions| && FunctionSkips(p, f, r))
  }

  method CallRules(p: Program, c: Call) returns (rules: seq<Rule>)
    requires CallOk(p, c)
    ensures forall r :: r in rules <==> CallGives(p, c, r)
  {
    rules := [];
    var matched := MatchArgumentNames(CalleeParams(p, c), ArgumentNames(c));
    for k := 0 to |c.arguments|
      invariant forall r :: r in rules <==> exists j: nat :: j < k && ArgumentRule(p, c, Matched(p, c), j) == Some(r)
    {
      assert matched.paramForArg == Matched(p, c);
      var rule := ArgumentRule(p, c, matched.paramForArg, k);
      if rule.Some? {
        rules := rules + [rule.value];
      }
    }
  }

  /** Whether the call forwards the formal to one that is only probed, and to one that is not. */
  method ProbedBy(p: Program, c: Call, f: nat, name: string) returns (probed: bool, used: bool)
    requires CallOk(p, c)
    ensures probed == Probes(p, c, f, name, true) && used == Probes(p, c, f, name, false)
  {
    probed, used := false, false;
    for k := 0 to |c.arguments|
      invariant probed == exists j: nat :: j < k && Probe(p, c, j, f, name) == Some(true)
      invariant used == exists j: nat :: j < k && Probe(p, c, j, f, name) == Some(false)
    {
      match Probe(p, c, k, f, name)
      case Some(only) =>
        probed, used := probed || only, used || !only;
      case None =>
    }
  }

  method SkippedCalls(p: Program, f: nat, name: string) returns (skipped: set<nat>)
    requires ProgramOk(p)
    ensures Skips(p, skipped, f, name)
  {
    var probed: set<nat>, used: set<nat> := {}, {};
    for i := 0 to |p.calls|
      invariant forall s: nat :: s in probed <==> ProbedAmong(p, i, s, f, name, true)
      invariant forall s: nat :: s in used <==> ProbedAmong(p, i, s, f, name, false)
    {
      forall s: nat, only: bool {
        ProbedNext(p, i, s, f, name, only);
      }
      var t, u := ProbedBy(p, p.calls[i], f, name);
      if t {
        probed := probed + {p.calls[i].start};
      }
      if u {
        used := used + {p.calls[i].start};
      }
    }
    skipped := probed - used;
  }

  lemma OneSkips(p: Program, a: set<nat>, b: set<nat>, f: nat, name: string)
    requires ProgramOk(p) && Skips(p, a, f, name) && Skips(p, b, f, name)
    ensures a == b
  {
  }

  method SkippedRules(p: Program, f: nat) returns (rules: seq<Rule>)
    requires ProgramOk(p) && f < |p.functions|
    ensures forall r :: r in rules <==> FunctionSkips(p, f, r)
  {
    rules := [];
    for s := 0 to |p.functions[f].params|
      invariant forall r :: r in rules <==> exists k: nat :: k < s && SkippingGives(p, f, k, r)
    {
      var name := p.functions[f].params[s];
      var skipped := SkippedCalls(p, f, name);
      forall other | Skips(p, other, f, name) ensures other == skipped {
        OneSkips(p, other, skipped, f, name);
      }
      if First(p.functions[f].params, name) == Some(s) && skipped != {} && p.defusedBut(f, name, skipped) {
        assert SkippingGives(p, f, s, Given(Cell(f, s), Flags(false, true, NoInjection)));
        rules := rules + [Given(Cell(f, s), Flags(false, true, NoInjection))];
      }
    }
  }

  method ForwardedRules(p: Program) returns (rules: seq<Rule>)
    requires ProgramOk(p)
    ensures forall r :: r in rules <==> FromCalls(p, r)
  {
    var forwarded, skipped: seq<Rule> := [], [];
    for i := 0 to |p.calls|
      invariant forall r :: r in forwarded <==> exists k: nat :: k < i && CallGives(p, p.calls[k], r)
    {
      var more := CallRules(p, p.calls[i]);
      forwarded := forwarded + more;
    }
    for f := 0 to |p.functions|
      invariant forall r :: r in skipped <==> exists g: nat :: g < f && FunctionSkips(p, g, r)
    {
      var more := SkippedRules(p, f);
      skipped := skipped + more;
    }
    rules := forwarded + skipped;
  }

  // ---------------------------------------------------------------------------------------------
  // The whole propagation
  // ---------------------------------------------------------------------------------------------

  /** The table grants what every method and every forwarded formal of the program asks for. */
  ghost predicate Grants(p: Program, t: Table)
    requires ProgramOk(p)
  {
    forall r {:trigger Asks(p, r)} :: Asks(p, r) && RuleIn(r, t) ==> Leq(Offered(r, t), t[r.target.fn][r.target.param])
  }

  ghost predicate Asks(p: Program, r: Rule)
    requires ProgramOk(p)
  {
    FromMethods(p, r) || FromCalls(p, r)
  }

  /** Every rule of the program is about formals that its functions have. */
  lemma AskedFits(p: Program, t: Table, r: Rule)
    requires ProgramOk(p) && Fits(p, t) && Asks(p, r)
    ensures RuleIn(r, t)
  {
    if FromMethods(p, r) {
      var i: nat :| i < |p.methods| && GenericGives(p, i, r);
    } else if i: nat :| i < |p.calls| && CallGives(p, p.calls[i], r) {
      CallFits(p, t, p.calls[i], r);
    }
  }

  lemma CallFits(p: Program, t: Table, c: Call, r: Rule)
    requires ProgramOk(p) && Fits(p, t) && CallOk(p, c) && CallGives(p, c, r)
    ensures RuleIn(r, t)
  {
    MatchIsOrdered(CalleeParams(p, c), ArgumentNames(c));
    var k: nat :| k < |c.arguments| && ArgumentRule(p, c, Matched(p, c), k) == Some(r);
    assert Matched(p, c)[k].Some? ==> Matched(p, c)[k].value < |CalleeParams(p, c)|;
  }

  lemma ClosedGrants(p: Program, rules: seq<Rule>, t: Table)
    requires ProgramOk(p) && forall r :: r in rules <==> Asks(p, r)
    ensures Closed(rules, t) <==> Grants(p, t)
  {
    if Closed(rules, t) {
      forall r | Asks(p, r) && RuleIn(r, t) ensures Leq(Offered(r, t), t[r.target.fn][r.target.param]) {
        var i :| 0 <= i < |rules| && rules[i] == r;
      }
    }
    if Grants(p, t) {
      forall i | 0 <= i < |rules| && RuleIn(rules[i], t)
        ensures Leq(Offered(rules[i], t), t[rules[i].target.fn][rules[i].target.param])
      {
        assert Asks(p, rules[i]);
      }
    }
  }

  /** The least flags above the collected ones that grant everything asked for. */
  ghost predicate LeastGranting(p: Program, base: Table, t: Table)
    requires ProgramOk(p)
  {
    Below(base, t) && Grants(p, t) && forall y {:trigger Grants(p, y)} :: Below(base, y) && Grants(p, y) ==> Below(t, y)
  }

  /**
   * Pass the collected flags on, from methods to generics and from callees to callers, until nothing changes or the
   * limit is reached. When it settles the flags are the least that grant everything asked for.
   */
  method PassOn(p: Program, collected: Table, limit: nat) returns (flags: Table, settled: bool)
    requires ProgramOk(p) && Fits(p, collected)
    ensures Below(collected, flags) && Fits(p, flags)
    ensures forall y {:trigger Grants(p, y)} :: Below(collected, y) && Grants(p, y) ==> Below(flags, y)
    ensures settled ==> LeastGranting(p, collected, flags)
    ensures limit > 4 * Cells(collected) ==> settled
  {
    var methods := MethodRules(p);
    var forwarded := ForwardedRules(p);
    var parameters := new Parameters(collected);
    settled := parameters.Rounds(methods, forwarded, limit);
    flags := parameters.flags;
    forall y ensures Closed(methods + forwarded, y) <==> Grants(p, y) {
      ClosedGrants(p, methods + forwarded, y);
    }
  }
}
