/**
 * Three-valued comparison of an inferred type with an adopted contract, over nested unions. A
 * definite answer holds for every value of the type.
 */
module Contracts {
  import opened RTypes
  import opened Wrappers

  const MAX_UNION_MEMBERS: nat := 4

  /** The explicit class attribute, as far as it is known. */
  datatype ClassVector = ClassVector(names: seq<string>, known: bool, guarded: bool)

  const UNKNOWN_CLASS := ClassVector([], false, false)
  const NO_CLASS := ClassVector([], true, false)

  datatype RType = RType(mode: Mode, length: Length, class_: ClassVector, members: Members)

  datatype Members = NoMembers | Members(list: seq<RType>)

  const UNKNOWN_TYPE := RType(Opaque, Length.Unknown, UNKNOWN_CLASS, NoMembers)

  datatype DeclaredLength = ExactCount(count: nat) | AtLeastOne

  datatype AtomicMode = ALogical | AInteger | ADouble | AComplex | ACharacter | ARaw | AList | ANull

  datatype TypeExpr =
    | NoClaim
    | ExactClass(name: string)
    | Atomic(mode: AtomicMode, length: Option<DeclaredLength>)
    | AnyOf(alternatives: seq<TypeExpr>)

  function AtomicModeOf(mode: AtomicMode): Mode {
    match mode
    case ALogical => Logical
    case AInteger => Integer
    case ADouble => Double
    case AComplex => Complex
    case ACharacter => Character
    case ARaw => Raw
    case AList => List
    case ANull => Null
  }

  // ---------------------------------------------------------------------------------------------
  // What types and constraints mean
  // ---------------------------------------------------------------------------------------------

  /** An R value: storage mode, length, class attribute, and the class R implies when there is no attribute. */
  datatype Value = Value(mode: Mode, length: nat, classAttribute: seq<string>, impliedClass: seq<string>)

  predicate ValueOk(v: Value) {
    !v.mode.Opaque? && !v.mode.Union? && (v.mode.Null? ==> v.length == 0)
  }

  /** R's `class(v)`. */
  function EffectiveClass(v: Value): seq<string> {
    if v.classAttribute != [] then v.classAttribute else v.impliedClass
  }

  /** Four names may be a cut-off vector; a class test proves only that it passed. */
  predicate HasClass(c: ClassVector, v: Value) {
    c.known && !c.guarded ==> if |c.names| < 4 then v.classAttribute == c.names else c.names <= v.classAttribute
  }

  /** The values of a type. */
  predicate HasType(ty: RType, v: Value) {
    if ty.mode.Union? then ty.members.Members? ==>
      exists i :: 0 <= i < |ty.members.list| && HasType(ty.members.list[i], v)
    else if ty.mode.Opaque? then HasClass(ty.class_, v)
    else v.mode == ty.mode && HasLength(ty.length, v.length) && HasClass(ty.class_, v)
  }

  /** A lower bound is at least one, in the type and in its members. */
  predicate TypeOk(ty: RType) {
    && (ty.length.AtLeast? ==> ty.length.n >= 1)
    && (ty.members.Members? ==> forall i :: 0 <= i < |ty.members.list| ==> TypeOk(ty.members.list[i]))
  }

  predicate LengthMeets(length: Option<DeclaredLength>, n: nat) {
    match length
    case None => true
    case Some(ExactCount(k)) => n == k
    case Some(AtLeastOne) => n >= 1
  }

  /** Whether a value satisfies a constraint. A part without a claim may mean anything: `open` says what it means. */
  predicate Satisfies(v: Value, c: TypeExpr, open: Value -> bool) {
    match c
    case NoClaim => open(v)
    case ExactClass(name) => EffectiveClass(v) == [name]
    case Atomic(mode, length) => v.mode == AtomicModeOf(mode) && LengthMeets(length, v.length)
    case AnyOf(alternatives) => exists i :: 0 <= i < |alternatives| && Satisfies(v, alternatives[i], open)
  }

  // ---------------------------------------------------------------------------------------------
  // Comparison
  // ---------------------------------------------------------------------------------------------

  datatype Evidence = Compatible | Incompatible | Insufficient

  /** Some result is compatible, or all of them (at least one) are incompatible. */
  function Any(results: seq<Evidence>): Evidence {
    if Compatible in results then Compatible
    else if results != [] && forall i :: 0 <= i < |results| ==> results[i] == Incompatible then Incompatible
    else Insufficient
  }

  /** All results agree on a definite answer. */
  function All(results: seq<Evidence>): Evidence {
    if results != [] && forall i :: 0 <= i < |results| ==> results[i] == Compatible then Compatible
    else if results != [] && forall i :: 0 <= i < |results| ==> results[i] == Incompatible then Incompatible
    else Insufficient
  }

  method CombineAny(results: seq<Evidence>) returns (r: Evidence)
    ensures r == Any(results)
  {
    var any, allIncompatible := false, true;
    for i := 0 to |results|
      invariant any <==> i > 0
      invariant allIncompatible <==> forall k :: 0 <= k < i ==> results[k] == Incompatible
      invariant forall k :: 0 <= k < i ==> results[k] != Compatible
    {
      if results[i] == Compatible {
        return Compatible;
      }
      any := true;
      allIncompatible := allIncompatible && results[i] == Incompatible;
    }
    return if any && allIncompatible then Incompatible else Insufficient;
  }

  method CombineAll(results: seq<Evidence>) returns (r: Evidence)
    ensures r == All(results)
  {
    var any, allCompatible, allIncompatible := false, true, true;
    for i := 0 to |results|
      invariant any <==> i > 0
      invariant allCompatible <==> forall k :: 0 <= k < i ==> results[k] == Compatible
      invariant allIncompatible <==> forall k :: 0 <= k < i ==> results[k] == Incompatible
    {
      any := true;
      allCompatible := allCompatible && results[i] == Compatible;
      allIncompatible := allIncompatible && results[i] == Incompatible;
    }
    return if !any then Insufficient else if allCompatible then Compatible else if allIncompatible then Incompatible
           else Insufficient;
  }

  function CompareLength(length: Length, declared: DeclaredLength): Evidence {
    match declared
    case ExactCount(expected) =>
      (match length
       case Zero => if expected == 0 then Compatible else Incompatible
       case One => if expected == 1 then Compatible else Incompatible
       case Known(actual) => if actual == expected then Compatible else Incompatible
       case Nonempty => if expected == 0 then Incompatible else Insufficient
       case AtLeast(actual) => if expected < actual then Incompatible else Insufficient
       case Unknown => Insufficient)
    case AtLeastOne =>
      (match length
       case Zero => Incompatible
       case Known(n) => if n == 0 then Incompatible else Compatible
       case One => Compatible
       case Nonempty => Compatible
       case AtLeast(_) => Compatible
       case Unknown => Insufficient)
  }

  /** Compare an inferred type with a constraint. */
  function Compare(ty: RType, c: TypeExpr): Evidence
    decreases ty, c, 0
  {
    if ty.mode.Union? then
      if ty.members.NoMembers? then Insufficient else All(CompareMembers(ty.members.list, c))
    else
      match c
      case ExactClass(expected) =>
        if !ty.class_.known || ty.class_.guarded || ty.class_.names == [] || |ty.class_.names| >= 4 then Insufficient
        else if |ty.class_.names| == 1 && ty.class_.names[0] == expected then Compatible
        else Incompatible
      case NoClaim => Insufficient
      case AnyOf(alternatives) =>
        if UnknownOrNonVector(ty.mode) then Insufficient else Any(CompareAlternatives(ty, alternatives))
      case Atomic(mode, length) =>
        if UnknownOrNonVector(ty.mode) then Insufficient
        else if ty.mode != AtomicModeOf(mode) then Incompatible
        else if length.None? then Compatible
        else CompareLength(ty.length, length.value)
  }

  function CompareMembers(members: seq<RType>, c: TypeExpr): (r: seq<Evidence>)
    ensures |r| == |members| && forall i :: 0 <= i < |r| ==> r[i] == Compare(members[i], c)
    decreases members, c, 1
  {
    if members == [] then [] else [Compare(members[0], c)] + CompareMembers(members[1..], c)
  }

  function CompareAlternatives(ty: RType, alternatives: seq<TypeExpr>): (r: seq<Evidence>)
    ensures |r| == |alternatives| && forall i :: 0 <= i < |r| ==> r[i] == Compare(ty, alternatives[i])
    decreases ty, alternatives, 1
  {
    if alternatives == [] then [] else [Compare(ty, alternatives[0])] + CompareAlternatives(ty, alternatives[1..])
  }

  /** The answer for this constraint holds for this value. */
  predicate Sound(answer: Evidence, c: TypeExpr, v: Value, open: Value -> bool) {
    (answer.Compatible? ==> Satisfies(v, c, open)) && (answer.Incompatible? ==> !Satisfies(v, c, open))
  }

  /** A definite answer holds for every value of the type, whatever the parts without a claim mean. */
  lemma {:induction false} CompareSound(ty: RType, c: TypeExpr, v: Value, open: Value -> bool)
    requires TypeOk(ty) && HasType(ty, v)
    ensures Sound(Compare(ty, c), c, v, open)
    decreases ty, c
  {
    if ty.mode.Union? {
      if ty.members.Members? {
        var i: nat :| i < |ty.members.list| && HasType(ty.members.list[i], v);
        CompareSound(ty.members.list[i], c, v, open);
      }
    } else if c.AnyOf? {
      forall i | 0 <= i < |c.alternatives|
        ensures Sound(Compare(ty, c.alternatives[i]), c.alternatives[i], v, open)
      {
        CompareSound(ty, c.alternatives[i], v, open);
      }
    } else {
    }
  }

  /** Compare one actual argument; `literal` is the class its own syntax proves, if any. */
  function CompareActual(ty: RType, literal: Option<string>, c: TypeExpr): Evidence
    decreases c, 0
  {
    match c
    case ExactClass(expected) =>
      var known := Compare(ty, c);
      if !known.Insufficient? || literal.None? then known
      else if literal.value == expected then Compatible
      else Incompatible
    case AnyOf(alternatives) => Any(ActualAlternatives(ty, literal, alternatives))
    case _ => Compare(ty, c)
  }

  function ActualAlternatives(ty: RType, literal: Option<string>, alternatives: seq<TypeExpr>): (r: seq<Evidence>)
    ensures |r| == |alternatives| && forall i :: 0 <= i < |r| ==> r[i] == CompareActual(ty, literal, alternatives[i])
    decreases alternatives, 1
  {
    if alternatives == [] then []
    else [CompareActual(ty, literal, alternatives[0])] + ActualAlternatives(ty, literal, alternatives[1..])
  }

  /** The same for an actual argument, when a literal's value has no class attribute of its own. */
  lemma {:induction false} CompareActualSound(ty: RType, literal: Option<string>, c: TypeExpr, v: Value,
        open: Value -> bool)
    requires TypeOk(ty) && HasType(ty, v)
    requires literal.Some? ==> EffectiveClass(v) == [literal.value]
    ensures Sound(CompareActual(ty, literal, c), c, v, open)
    decreases c
  {
    if c.AnyOf? {
      forall i | 0 <= i < |c.alternatives|
        ensures Sound(CompareActual(ty, literal, c.alternatives[i]), c.alternatives[i], v, open)
      {
        CompareActualSound(ty, literal, c.alternatives[i], v, open);
      }
    } else {
      CompareSound(ty, c, v, open);
    }
  }

  // ---------------------------------------------------------------------------------------------
  // The type a body may assume
  // ---------------------------------------------------------------------------------------------

  function DeclaredToLength(mode: AtomicMode, length: Option<DeclaredLength>): Length {
    match length
    case Some(ExactCount(n)) => if n == 0 then Zero else if n == 1 then One else Known(n)
    case Some(AtLeastOne) => Nonempty
    case None => if mode.ANull? then Zero else Length.Unknown
  }

  function JoinAll(members: seq<RType>): Length
    requires members != []
  {
    if |members| == 1 then members[0].length
    else Join(JoinAll(members[..|members| - 1]), members[|members| - 1].length)
  }

  /** The union of the members: a single member stands for itself. */
  function UnionOf(members: seq<RType>): RType
    requires members != []
  {
    if |members| == 1 then members[0]
    else RType(Mode.Union, JoinAll(members), NO_CLASS, Members(members))
  }

  /** The type a body may assume of a parameter with this constraint, if inference can represent it. */
  function BodyEntryType(c: TypeExpr): Option<RType> {
    match c
    case NoClaim => Some(UNKNOWN_TYPE)
    case ExactClass(_) => None
    case Atomic(mode, length) => Some(RType(AtomicModeOf(mode), DeclaredToLength(mode, length), UNKNOWN_CLASS,
                                            NoMembers))
    case AnyOf(alternatives) =>
      if alternatives == [] || |alternatives| > MAX_UNION_MEMBERS then None
      else
        var parts := seq(|alternatives|, i requires 0 <= i < |alternatives| => BodyEntryType(alternatives[i]));
        if None in parts then None
        else Some(UnionOf(Values(parts)).(class_ := UNKNOWN_CLASS))
  }

  function Values<T>(parts: seq<Option<T>>): (r: seq<T>)
    requires None !in parts
    ensures |r| == |parts| && forall i :: 0 <= i < |r| ==> Some(r[i]) == parts[i]
  {
    if parts == [] then []
    else assert parts[0] in parts; [parts[0].value] + Values(parts[1..])
  }

  /** What the entry type of a union is made of. */
  lemma BodyEntryParts(alternatives: seq<TypeExpr>) returns (members: seq<RType>)
    requires BodyEntryType(AnyOf(alternatives)).Some?
    ensures |members| == |alternatives| > 0
    ensures forall i :: 0 <= i < |alternatives| ==> BodyEntryType(alternatives[i]) == Some(members[i])
    ensures BodyEntryType(AnyOf(alternatives)).value == UnionOf(members).(class_ := UNKNOWN_CLASS)
  {
    var parts := seq(|alternatives|, i requires 0 <= i < |alternatives| => BodyEntryType(alternatives[i]));
    assert None !in parts;
    members := Values(parts);
    forall i | 0 <= i < |alternatives| ensures BodyEntryType(alternatives[i]) == Some(members[i]) {
      assert parts[i] == BodyEntryType(alternatives[i]);
    }
  }

  /** Every value that satisfies the constraint has the entry type. */
  lemma {:induction false} BodyEntryCovers(c: TypeExpr, v: Value, open: Value -> bool)
    requires ValueOk(v) && BodyEntryType(c).Some? && Satisfies(v, c, open)
    ensures HasType(BodyEntryType(c).value, v)
    decreases c
  {
    if c.AnyOf? {
      var members := BodyEntryParts(c.alternatives);
      var i :| 0 <= i < |c.alternatives| && Satisfies(v, c.alternatives[i], open);
      BodyEntryCovers(c.alternatives[i], v, open);
      assert HasType(members[i], v);
      if |members| == 1 {
      }
    }
  }

  /** An entry type is well formed and says nothing about the class. */
  lemma {:induction false} BodyEntryWellFormed(c: TypeExpr)
    requires BodyEntryType(c).Some?
    ensures TypeOk(BodyEntryType(c).value) && BodyEntryType(c).value.class_ == UNKNOWN_CLASS
    decreases c
  {
    if c.AnyOf? {
      var members := BodyEntryParts(c.alternatives);
      forall i | 0 <= i < |members| ensures TypeOk(members[i]) {
        BodyEntryWellFormed(c.alternatives[i]);
      }
    }
  }

  /** An alternative that is not a proven violation keeps the whole union from being one. */
  lemma {:induction false} NotIncompatibleInUnion(ty: RType, alternatives: seq<TypeExpr>, i: nat)
    requires i < |alternatives| && !Compare(ty, alternatives[i]).Incompatible?
    ensures !Compare(ty, AnyOf(alternatives)).Incompatible?
    decreases ty
  {
    if ty.mode.Union? {
      if ty.members.Members? && ty.members.list != [] {
        var own := CompareMembers(ty.members.list, alternatives[i]);
        var k :| 0 <= k < |own| && !own[k].Incompatible?;
        NotIncompatibleInUnion(ty.members.list[k], alternatives, i);
        assert !CompareMembers(ty.members.list, AnyOf(alternatives))[k].Incompatible?;
      }
    } else if !UnknownOrNonVector(ty.mode) {
      assert !CompareAlternatives(ty, alternatives)[i].Incompatible?;
    }
  }

  /** The entry type is never a proven violation of its own constraint. */
  lemma {:induction false} BodyEntryNeverIncompatible(c: TypeExpr)
    requires BodyEntryType(c).Some?
    ensures !Compare(BodyEntryType(c).value, c).Incompatible?
    decreases c
  {
    if c.AnyOf? {
      var members := BodyEntryParts(c.alternatives);
      BodyEntryNeverIncompatible(c.alternatives[0]);
      BodyEntryWellFormed(c.alternatives[0]);
      NotIncompatibleInUnion(members[0], c.alternatives, 0);
      if |members| > 1 {
      }
    }
  }
}
