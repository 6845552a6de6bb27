/**
 * The abstract length and names of a class-less value after one replacement write, against what R
 * computes on concrete values.
 */
module SubAssign {
  import opened RTypes
  import opened RVectors
  import opened Wrappers

  // ---------------------------------------------------------------------------------------------
  // Abstract side
  // ---------------------------------------------------------------------------------------------

  /**
   * The names recorded for a value; a complete schema lists every name the value has. The constructor of lists records
   * an element without a name under its position, as `[[1]]`.
   */
  datatype Schema = Schema(names: seq<string>, complete: bool)

  datatype VecType = VecType(mode: Mode, length: Length, columns: Option<Schema>)

  const UNKNOWN_VALUE := VecType(Opaque, Length.Unknown, None)

  /** The replacement's mode, and the modes of its members when it is a union. */
  datatype ValueType = ValueType(mode: Mode, members: Option<seq<Mode>>)

  datatype Presence = Present | Absent | MaybePresent

  datatype Extent = Within | Reaches(position: nat) | NewName | MaybeNewName | DeleteName | NoExtent

  predicate IsAtomic(mode: Mode) {
    mode.Logical? || mode.Integer? || mode.Double? || mode.Complex? || mode.Character? || mode.Raw?
  }

  function NamePresence(ty: VecType, name: string): Presence {
    if ty.columns.Some? && name in ty.columns.value.names then Present
    else if RTypes.Exact(ty.length) == Some(0) || (ty.columns.Some? && ty.columns.value.complete) then Absent
    else MaybePresent
  }

  predicate MayDelete(v: ValueType) {
    || v.mode.Null?
    || v.mode.Opaque?
    || (v.members.Some?
        && exists i :: 0 <= i < |v.members.value| && (v.members.value[i].Opaque? || v.members.value[i].Null?))
  }

  function PositionExtent(position: int): Extent {
    if 0 < position <= MAX_INDEX then Reaches(position)
    else if position > 0 then NoExtent
    else Within
  }

  function ExtentOf(ty: VecType, w: Write, v: ValueType): Extent {
    match w.subscript
    case Name(name) =>
      if MayDelete(v) then if w.kind.Dollar? then DeleteName else NoExtent
      else (match NamePresence(ty, name)
            case Present => Within
            case Absent => NewName
            case MaybePresent => MaybeNewName)
    case Position(position) => if MayDelete(v) || w.kind.Dollar? then NoExtent else PositionExtent(position)
    case Computed => NoExtent
  }

  function Less(n: nat): nat {
    if n == 0 then 0 else n - 1
  }

  function LengthAfter(before: Length, extent: Extent, presence: Presence, definitelyNull: bool): Length {
    match extent
    case Within => before
    case NoExtent => Length.Unknown
    case MaybeNewName => LowerBound(MinPossible(before))
    case DeleteName =>
      if definitelyNull then
        (match presence
         case Present =>
           if RTypes.Exact(before).Some? then ExactLength(Less(RTypes.Exact(before).value))
           else LowerBound(Less(MinPossible(before)))
         case Absent => before
         case MaybePresent => LowerBound(Less(MinPossible(before))))
      else LowerBound(if presence.Absent? then MinPossible(before) else Less(MinPossible(before)))
    case Reaches(position) =>
      if RTypes.Exact(before).Some? then ExactLength(Larger(RTypes.Exact(before).value, position))
      else LowerBound(Larger(MinPossible(before), position))
    case NewName =>
      if RTypes.Exact(before).Some? then ExactLength(RTypes.Exact(before).value + 1)
      else LowerBound(MinPossible(before) + 1)
  }

  function Larger(a: nat, b: nat): nat {
    if a < b then b else a
  }

  function ModeAfter(base: Mode, kind: Kind, v: ValueType): Mode {
    if (kind.Dollar? || kind.Double?) && base.Null? then
      if v.mode.Null? then Null else if MayDelete(v) then Opaque else List
    else
      match kind
      case Double =>
        if v.mode.List? || v.mode.Function? || v.mode.Environment? || v.mode.Language? then List
        else CombineResult(base, v.mode)
      case Single => CombineResult(base, v.mode)
      case Dollar => List
  }

  function WithName(columns: Option<Schema>, name: string): Schema {
    var schema := if columns.Some? then columns.value else Schema([], false);
    if name in schema.names then schema else schema.(names := schema.names + [name])
  }

  function Remove(names: seq<string>, name: string): (r: seq<string>)
    ensures forall s :: s in r <==> s in names && s != name
  {
    if names == [] then []
    else if names[0] == name then Remove(names[1..], name)
    else [names[0]] + Remove(names[1..], name)
  }

  function ColumnsAfter(ty: VecType, w: Write, v: ValueType, mode: Mode): Option<Schema> {
    match w.subscript
    case Name(name) =>
      if w.kind.Dollar? && MayDelete(v) then
        if ty.columns.None? then None
        else Some(Schema(Remove(ty.columns.value.names, name), ty.columns.value.complete && v.mode.Null?))
      else
        var schema := WithName(ty.columns, name);
        Some(if MayDelete(v) then schema.(complete := false) else schema)
    case _ => if mode != ty.mode then None else ty.columns
  }

  /** The type after a write into an atomic vector or NULL. */
  function AfterWrite(ty: VecType, w: Write, v: ValueType): VecType {
    var definitelyNull := v.mode.Null?;
    if definitelyNull && !w.kind.Dollar? && !ty.mode.Null? then UNKNOWN_VALUE
    else
      var mode := ModeAfter(ty.mode, w.kind, v);
      if mode.Null? && definitelyNull then VecType(mode, Zero, ty.columns)
      else
        var presence := if w.subscript.Name? then NamePresence(ty, w.subscript.name) else MaybePresent;
        VecType(
          mode,
          LengthAfter(ty.length, ExtentOf(ty, w, v), presence, definitelyNull),
          ColumnsAfter(ty, w, v, mode))
  }

  /** The type after a named `$` or `[[` write into a list. */
  function AfterListNamed(ty: VecType, name: string, v: ValueType): VecType {
    var presence := NamePresence(ty, name);
    if v.mode.Null? then
      VecType(
        ty.mode,
        LengthAfter(ty.length, DeleteName, presence, true),
        if ty.columns.None? then None
        else Some(Schema(Remove(ty.columns.value.names, name), ty.columns.value.complete)))
    else if MayDelete(v) then
      VecType(ty.mode, LengthAfter(ty.length, DeleteName, presence, false), Some(WithName(ty.columns, name)))
    else
      var extent := match presence case Present => Within case Absent => NewName case MaybePresent => MaybeNewName;
      VecType(ty.mode, LengthAfter(ty.length, extent, presence, false), Some(WithName(ty.columns, name)))
  }

  /** The type after a positional or computed write into a list. */
  function AfterListPosition(ty: VecType, kind: Kind, v: ValueType): VecType {
    VecType(
      ty.mode,
      if kind.Single? && MayDelete(v) then Length.Unknown
      else LowerBound(if MayDelete(v) then Less(MinPossible(ty.length)) else MinPossible(ty.length)),
      Some(Schema([], false)))
  }

  function Digits(n: nat): string {
    if n < 10 then ["0123456789"[n]] else Digits(n / 10) + ["0123456789"[n % 10]]
  }

  /** The key of an element recorded by position. */
  function Key(position: int): string {
    "[[" + (if position < 0 then "-" + Digits(-position) else Digits(position)) + "]]"
  }

  predicate KeyLike(name: string) {
    "[[" <= name
  }

  /** `x[[N]] <- v` replaces the recorded element `N` when the list has no other kind of key. */
  predicate Recorded(ty: VecType, w: Write, v: ValueType) {
    && w.kind.Double? && w.subscript.Position?
    && ty.columns.Some? && Key(w.subscript.position) in ty.columns.value.names
    && (forall i :: 0 <= i < |ty.columns.value.names| ==> KeyLike(ty.columns.value.names[i]))
    && !v.mode.Opaque? && !v.mode.Null? && !v.mode.Union?
  }

  /** How far `x[c("a", "b")] <- v` has come: the names so far, how many were new, and whether that count is certain. */
  datatype Tally = Tally(columns: Option<Schema>, added: nat, certain: bool)

  function TallyName(ty: VecType, t: Tally, name: string): Tally {
    Tally(
      Some(WithName(t.columns, name)),
      if name == "" || NamePresence(ty.(columns := t.columns), name).Absent? then t.added + 1 else t.added,
      t.certain && (name == "" || !NamePresence(ty.(columns := t.columns), name).MaybePresent?))
  }

  function TallyNames(ty: VecType, names: seq<string>): Tally {
    if names == [] then Tally(ty.columns, 0, true)
    else TallyName(ty, TallyNames(ty, names[..|names| - 1]), names[|names| - 1])
  }

  /** The type after a `[` write of listed names into a list. */
  function AfterListNames(ty: VecType, names: seq<string>): VecType {
    var t := TallyNames(ty, names);
    VecType(
      ty.mode,
      if t.added == 0 && t.certain then ty.length
      else if t.certain && RTypes.Exact(ty.length).Some? then ExactLength(RTypes.Exact(ty.length).value + t.added)
      else LowerBound(MinPossible(ty.length) + t.added),
      t.columns)
  }

  method WriteListNames(ty: VecType, names: seq<string>) returns (r: VecType)
    ensures r == AfterListNames(ty, names)
  {
    var columns, added, certain := ty.columns, 0, true;
    for i := 0 to |names|
      invariant Tally(columns, added, certain) == TallyNames(ty, names[..i])
    {
      assert names[..i + 1][..i] == names[..i];
      var name := names[i];
      if name == "" {
        added := added + 1;
      } else {
        match NamePresence(ty.(columns := columns), name)
        case Absent => added := added + 1;
        case MaybePresent => certain := false;
        case Present =>
      }
      columns := Some(WithName(columns, name));
    }
    assert names[..|names|] == names;
    r := ty.(columns := columns);
    if added > 0 || !certain {
      var floor := MinPossible(r.length) + added;
      var exact := RTypes.Exact(r.length);
      r := r.(length :=
        if certain then if exact.Some? then ExactLength(exact.value + added) else LowerBound(floor)
        else LowerBound(floor));
    }
  }

  /** The type after a write. Other receivers are unknown afterwards. */
  function After(ty: VecType, w: Write, v: ValueType): VecType {
    if IsAtomic(ty.mode) || ty.mode.Null? then AfterWrite(ty, w, v)
    else if !ty.mode.List? then UNKNOWN_VALUE
    else if Recorded(ty, w, v) then ty.(columns := Some(WithName(ty.columns, Key(w.subscript.position))))
    else if !w.subscript.Name? then AfterListPosition(ty, w.kind, v)
    else if w.kind.Single? then AfterListNames(ty, [w.subscript.name])
    else AfterListNamed(ty, w.subscript.name, v)
  }

  // ---------------------------------------------------------------------------------------------
  // Covering
  // ---------------------------------------------------------------------------------------------

  /** The mode fits, and the type of NULL has length zero. */
  predicate ShapeOk(ty: VecType, x: Vec) {
    && (ty.mode.Null? ==> x.shape.NullShape? && RTypes.Exact(ty.length) == Some(0))
    && (IsAtomic(ty.mode) ==> x.shape.AtomicShape?)
    && (ty.mode.List? ==> x.shape.ListShape?)
    && (x.shape.NullShape? ==> x.names == [])
  }

  predicate LengthOk(ty: VecType, x: Vec) {
    HasLength(ty.length, |x.names|)
  }

  /**
   * A complete schema lists every name; with an exact length, every listed name is there, unless it may be a position.
   */
  predicate NamesOk(ty: VecType, x: Vec) {
    ty.columns.Some? ==>
      && (ty.columns.value.complete ==> forall s :: s in x.names && s != "" ==> s in ty.columns.value.names)
      && (RTypes.Exact(ty.length).Some? ==>
            forall s :: s in ty.columns.value.names && s != "" && !KeyLike(s) ==> s in x.names)
  }

  predicate Covers(ty: VecType, x: Vec) {
    ShapeOk(ty, x) && LengthOk(ty, x) && NamesOk(ty, x)
  }

  /** Members are those of a union. */
  predicate CoversValue(ty: ValueType, v: Value) {
    && (ty.members.Some? ==> ty.mode.Union?)
    && (ty.mode.Null? ==> v.NullValue?)
    && (v.NullValue? ==> MayDelete(ty))
    && (IsAtomic(ty.mode) ==> v.AtomicValue?)
    && (ty.mode.List? || ty.mode.Function? || ty.mode.Environment? || ty.mode.Language? ==> v.ListValue?)
  }

  // ---------------------------------------------------------------------------------------------
  // Lists as they are constructed
  // ---------------------------------------------------------------------------------------------

  /** The keys of `list(...)`: the names, and a running number for the arguments without one. */
  function ListKeys(names: seq<string>): seq<string> {
    if names == [] then []
    else
      var before, last := names[..|names| - 1], names[|names| - 1];
      ListKeys(before) + [if last != "" then last else Key(Unnamed(before) + 1)]
  }

  function Unnamed(names: seq<string>): nat {
    if names == [] then 0 else Unnamed(names[..|names| - 1]) + if names[|names| - 1] == "" then 1 else 0
  }

  lemma {:induction false} ListKeysCover(names: seq<string>)
    ensures forall s :: s in names && s != "" ==> s in ListKeys(names)
    ensures forall s :: s in ListKeys(names) ==> s in names || KeyLike(s)
  {
    if names != [] {
      var before, last := names[..|names| - 1], names[|names| - 1];
      assert names == before + [last];
      ListKeysCover(before);
    }
  }

  /** The type of `list(...)` covers the list, whichever arguments have names. */
  lemma ListCovered(names: seq<string>)
    ensures Covers(VecType(List, Known(|names|), Some(Schema(ListKeys(names), true))), Vec(ListShape, names))
  {
    ListKeysCover(names);
  }

  // ---------------------------------------------------------------------------------------------
  // A write to one name
  // ---------------------------------------------------------------------------------------------

  /** No element has the name; R never matches the empty one. */
  predicate Unmatched(x: Vec, name: string) {
    name == "" || name !in x.names
  }

  /** The schema lists the name, as the empty name or as a position, but no element has it. */
  predicate OnlyRecorded(ty: VecType, x: Vec, name: string) {
    NamePresence(ty, name).Present? && Unmatched(x, name) && RTypes.Exact(ty.length).Some?
  }

  function Stored(presence: Presence): Extent {
    match presence case Present => Within case Absent => NewName case MaybePresent => MaybeNewName
  }

  lemma AbsentUnmatched(ty: VecType, x: Vec, name: string)
    requires Covers(ty, x) && NamePresence(ty, name).Absent?
    ensures Unmatched(x, name)
  {
  }

  /** Storing under a name: it is replaced, or appended. */
  lemma StoredLength(ty: VecType, x: Vec, name: string)
    requires Covers(ty, x)
    ensures
      var presence := NamePresence(ty, name);
      HasLength(LengthAfter(ty.length, Stored(presence), presence, false), |With(x.names, name)|) <==>
        !OnlyRecorded(ty, x, name)
  {
    if NamePresence(ty, name).Absent? {
      AbsentUnmatched(ty, x, name);
    }
  }

  /** Deleting a name. */
  lemma DeletedLength(ty: VecType, x: Vec, name: string)
    requires Covers(ty, x)
    ensures
      var presence := NamePresence(ty, name);
      HasLength(LengthAfter(ty.length, DeleteName, presence, true), |Without(x.names, name)|) <==>
        !(OnlyRecorded(ty, x, name) && RTypes.Exact(ty.length).value > 0)
  {
    WithoutNames(x.names, name);
    if NamePresence(ty, name).Absent? {
      AbsentUnmatched(ty, x, name);
    }
  }

  /** One of the two. */
  lemma EitherLength(ty: VecType, x: Vec, name: string)
    requires Covers(ty, x)
    ensures
      var length := LengthAfter(ty.length, DeleteName, NamePresence(ty, name), false);
      HasLength(length, |With(x.names, name)|) && HasLength(length, |Without(x.names, name)|)
  {
    WithoutNames(x.names, name);
    if NamePresence(ty, name).Absent? {
      AbsentUnmatched(ty, x, name);
    }
  }

  /** A schema with the name covers what R has after storing under it, and so does an open one after deleting it. */
  lemma StoredNames(ty: VecType, x: Vec, name: string, t: VecType, y: Vec)
    requires NamesOk(ty, x) && t.columns.Some? && t.columns.value.names == WithName(ty.columns, name).names
    requires t.columns.value.complete ==> ty.columns.Some? && ty.columns.value.complete
    requires RTypes.Exact(t.length).Some? ==> RTypes.Exact(ty.length).Some? && y.names == With(x.names, name)
    requires y.names == With(x.names, name) || (y.names == Without(x.names, name) && !t.columns.value.complete)
    ensures NamesOk(t, y)
  {
  }

  /** Removing a name from the schema, when R drops the first element that has it. */
  lemma RemovedNames(columns: Schema, x: Vec, name: string)
    requires columns.complete ==> forall s :: s in x.names && s != "" ==> s in columns.names
    ensures
      (columns.complete ==> forall s :: s in Without(x.names, name) && s != "" ==> s in Remove(columns.names, name))
      <==> !(columns.complete && name != "" && Repeated(x.names, name))
  {
    WithoutNames(x.names, name);
    if name != "" {
      WithoutRepeated(x.names, name);
    }
  }

  /** The schema without the name, after NULL or after either. */
  lemma DeletedNames(ty: VecType, x: Vec, name: string, t: VecType, y: Vec)
    requires NamesOk(ty, x) && ty.columns.Some? && t.columns.Some?
    requires t.columns.value.names == Remove(ty.columns.value.names, name)
    requires t.columns.value.complete ==> ty.columns.value.complete && y.names == Without(x.names, name)
    requires RTypes.Exact(t.length).Some? ==> RTypes.Exact(ty.length).Some? && y.names == Without(x.names, name)
    ensures NamesOk(t, y) <==> !(t.columns.value.complete && name != "" && Repeated(x.names, name))
  {
    WithoutNames(x.names, name);
    if t.columns.value.complete {
      RemovedNames(ty.columns.value, x, name);
    }
  }

  // ---------------------------------------------------------------------------------------------
  // One write into an atomic vector or NULL
  // ---------------------------------------------------------------------------------------------

  predicate NameTaken(ty: VecType, x: Vec, w: Write, v: ValueType) {
    && w.subscript.Name? && OnlyRecorded(ty, x, w.subscript.name)
    && (!MayDelete(v) || (w.kind.Dollar? && v.mode.Null? && RTypes.Exact(ty.length).value > 0))
  }

  /** A complete schema loses a name that the value held twice and one deletion leaves behind. */
  predicate RepeatedNameLost(ty: VecType, x: Vec, w: Write, v: ValueType) {
    && w.kind.Dollar? && w.subscript.Name? && v.mode.Null?
    && ty.columns.Some? && ty.columns.value.complete
    && w.subscript.name != "" && Repeated(x.names, w.subscript.name)
  }

  /** The names a computed subscript selects; `[[` selects one. */
  function SelectedNames(w: Write): seq<string> {
    if w.subscript.Computed? && w.subscript.selected.Named? && (w.kind.Single? || |w.subscript.selected.names| == 1)
    then w.subscript.selected.names
    else []
  }

  /** A complete schema stays complete although a computed subscript selects a name outside it. */
  predicate ComputedNameMissed(ty: VecType, w: Write, v: ValueType) {
    && !v.mode.Null?
    && ty.columns.Some? && ty.columns.value.complete
    && ModeAfter(ty.mode, w.kind, v) == ty.mode
    && exists s :: s in SelectedNames(w) && s != "" && s !in ty.columns.value.names
  }

  /** The computed length holds the length R gives, for every write except one to a name that is only recorded. */
  lemma WriteLengthSound(ty: VecType, x: Vec, w: Write, vt: ValueType, v: Value, y: Vec)
    requires Covers(ty, x) && (IsAtomic(ty.mode) || ty.mode.Null?)
    requires CoversValue(vt, v) && Gives(x, w, v, y)
    ensures LengthOk(AfterWrite(ty, w, vt), y) <==> !NameTaken(ty, x, w, vt)
  {
    match w.subscript
    case Name(_) =>
      NamedWriteLength(ty, x, w, vt, v, y);
    case Position(position) =>
      SelectReaches(position, |x.names|);
    case Computed(_) =>
  }

  lemma NamedWriteLength(ty: VecType, x: Vec, w: Write, vt: ValueType, v: Value, y: Vec)
    requires Covers(ty, x) && (IsAtomic(ty.mode) || ty.mode.Null?)
    requires CoversValue(vt, v) && Gives(x, w, v, y) && w.subscript.Name?
    ensures LengthOk(AfterWrite(ty, w, vt), y) <==> !NameTaken(ty, x, w, vt)
  {
    var name := w.subscript.name;
    OneName(x.names, name);
    if !MayDelete(vt) {
      StoredLength(ty, x, name);
    } else if w.kind.Dollar? && vt.mode.Null? {
      DeletedLength(ty, x, name);
    } else if w.kind.Dollar? {
      EitherLength(ty, x, name);
    }
  }

  /** The names stay covered, except in the two cases above. */
  lemma WriteNamesSound(ty: VecType, x: Vec, w: Write, vt: ValueType, v: Value, y: Vec)
    requires Covers(ty, x) && (IsAtomic(ty.mode) || ty.mode.Null?)
    requires CoversValue(vt, v) && Gives(x, w, v, y)
    ensures NamesOk(AfterWrite(ty, w, vt), y) <==> !RepeatedNameLost(ty, x, w, vt) && !ComputedNameMissed(ty, w, vt)
  {
    match w.subscript
    case Name(_) =>
      NamedWriteNames(ty, x, w, vt, v, y);
    case Position(_) =>
    case Computed(_) =>
      ComputedWriteNames(ty, x, w, vt, v, y);
  }

  /** A completed computed write into an atomic vector adds the names it selects, and unnamed elements. */
  lemma ComputedAdds(x: Vec, w: Write, v: Value, y: Vec)
    requires !x.shape.ListShape? && Gives(x, w, v, y) && w.subscript.Computed? && !(x.shape.NullShape? && v.NullValue?)
    ensures forall s :: s != "" ==> (s in y.names <==> s in x.names || s in SelectedNames(w))
  {
    match w.subscript.selected
    case Named(ns) =>
      WithAllNames(x.names, ns);
      if |ns| == 1 {
        assert ns == [ns[0]];
        OneName(x.names, ns[0]);
      }
    case At(ps) =>
  }

  lemma ComputedWriteNames(ty: VecType, x: Vec, w: Write, vt: ValueType, v: Value, y: Vec)
    requires Covers(ty, x) && (IsAtomic(ty.mode) || ty.mode.Null?)
    requires CoversValue(vt, v) && Gives(x, w, v, y) && w.subscript.Computed?
    ensures NamesOk(AfterWrite(ty, w, vt), y) <==> !ComputedNameMissed(ty, w, vt)
  {
    if !(x.shape.NullShape? && v.NullValue?) {
      ComputedAdds(x, w, v, y);
    }
  }

  lemma NamedWriteNames(ty: VecType, x: Vec, w: Write, vt: ValueType, v: Value, y: Vec)
    requires Covers(ty, x) && (IsAtomic(ty.mode) || ty.mode.Null?)
    requires CoversValue(vt, v) && Gives(x, w, v, y) && w.subscript.Name?
    ensures NamesOk(AfterWrite(ty, w, vt), y) <==> !RepeatedNameLost(ty, x, w, vt)
  {
    var name, t := w.subscript.name, AfterWrite(ty, w, vt);
    OneName(x.names, name);
    if ty.mode.Null? && vt.mode.Null? {
      assert x.names == [] && y.names == [];
    } else if w.kind.Dollar? && MayDelete(vt) {
      if ty.columns.Some? {
        DeletedNames(ty, x, name, t, y);
      }
    } else {
      StoredNames(ty, x, name, t, y);
    }
  }

  lemma WriteShapeSound(ty: VecType, x: Vec, w: Write, vt: ValueType, v: Value, y: Vec)
    requires Covers(ty, x) && (IsAtomic(ty.mode) || ty.mode.Null?)
    requires CoversValue(vt, v) && Gives(x, w, v, y)
    ensures ShapeOk(AfterWrite(ty, w, vt), y)
  {
  }

  /** `x[[""]] <- v` twice: R appends each time, the second write is counted as a replacement. */
  lemma EmptyNameWrittenTwice()
    ensures
      var ty := VecType(Integer, One, Some(Schema(["a"], true)));
      var x := Vec(AtomicShape, ["a"]);
      var w, vt := Write(Kind.Double, Name("")), ValueType(Integer, None);
      var once, twice := Vec(AtomicShape, ["a", ""]), Vec(AtomicShape, ["a", "", ""]);
      && Covers(ty, x) && Gives(x, w, AtomicValue, once) && Gives(once, w, AtomicValue, twice)
      && Covers(AfterWrite(ty, w, vt), once)
      && !LengthOk(AfterWrite(AfterWrite(ty, w, vt), w, vt), twice)
  {
    assert ["a"] + [""] == ["a", ""] && ["a", ""] + [""] == ["a", "", ""];
  }

  /** A computed subscript adds `b` behind a complete schema; two literal writes later the length is wrong. */
  lemma ComputedNameCountedTwice()
    ensures
      var ty := VecType(Integer, One, Some(Schema(["a"], true)));
      var vt := ValueType(Integer, None);
      var y0, y1 := Vec(AtomicShape, ["a"]), Vec(AtomicShape, ["a", "b"]);
      var w1, w2 := Write(Single, Computed(Named(["b"]))), Write(Single, Position(2));
      var w3 := Write(Kind.Double, Name("b"));
      && Covers(ty, y0) && Gives(y0, w1, AtomicValue, y1) && ComputedNameMissed(ty, w1, vt)
      && Gives(y1, w2, AtomicValue, y1) && Gives(y1, w3, AtomicValue, y1)
      && !LengthOk(AfterWrite(AfterWrite(AfterWrite(ty, w1, vt), w2, vt), w3, vt), y1)
  {
    OneName(["a"], "b");
    SelectReaches(2, 2);
    assert "b" in ["b"] && "b" !in ["a"] && "b" in ["a", "b"];
    assert ["a"] + ["b"] == ["a", "b"] && ["a", "b"] + [] == ["a", "b"];
  }

  // ---------------------------------------------------------------------------------------------
  // One write into a list
  // ---------------------------------------------------------------------------------------------

  predicate ListNameTaken(ty: VecType, x: Vec, name: string, v: ValueType) {
    OnlyRecorded(ty, x, name) && (!MayDelete(v) || (v.mode.Null? && RTypes.Exact(ty.length).value > 0))
  }

  predicate ListRepeatedNameLost(ty: VecType, x: Vec, name: string, v: ValueType) {
    && v.mode.Null? && ty.columns.Some? && ty.columns.value.complete && name != "" && Repeated(x.names, name)
  }

  /** A named `$` or `[[` write into a list. */
  lemma ListNamedSound(ty: VecType, x: Vec, kind: Kind, name: string, vt: ValueType, v: Value, y: Vec)
    requires Covers(ty, x) && ty.mode.List? && !kind.Single?
    requires CoversValue(vt, v) && Gives(x, Write(kind, Name(name)), v, y)
    ensures ShapeOk(AfterListNamed(ty, name, vt), y)
    ensures LengthOk(AfterListNamed(ty, name, vt), y) <==> !ListNameTaken(ty, x, name, vt)
    ensures NamesOk(AfterListNamed(ty, name, vt), y) <==> !ListRepeatedNameLost(ty, x, name, vt)
  {
    var t := AfterListNamed(ty, name, vt);
    if vt.mode.Null? {
      DeletedLength(ty, x, name);
      if ty.columns.Some? {
        DeletedNames(ty, x, name, t, y);
      }
    } else if MayDelete(vt) {
      EitherLength(ty, x, name);
      EitherNames(ty, x, name, t, y);
    } else {
      StoredLength(ty, x, name);
      StoredNames(ty, x, name, t, y);
    }
  }

  /** A value that may be NULL leaves the name recorded, and only a least length. */
  lemma EitherNames(ty: VecType, x: Vec, name: string, t: VecType, y: Vec)
    requires NamesOk(ty, x) && t.columns == Some(WithName(ty.columns, name)) && RTypes.Exact(t.length).None?
    requires y.names == With(x.names, name) || y.names == Without(x.names, name)
    ensures NamesOk(t, y)
  {
    WithoutNames(x.names, name);
  }

  /** `x <- list(a = 1, a = 2); x$a <- NULL; x$a <- 3`: the second `a` is forgotten, and counted again. */
  lemma RepeatedNameCountedTwice()
    ensures
      var ty := VecType(List, Known(2), Some(Schema(["a", "a"], true)));
      var x, y := Vec(ListShape, ["a", "a"]), Vec(ListShape, ["a"]);
      var gone, one := ValueType(Null, None), ValueType(Mode.Double, None);
      var w := Write(Dollar, Name("a"));
      && Covers(ty, x) && Gives(x, w, NullValue, y) && Gives(y, w, AtomicValue, y)
      && LengthOk(AfterListNamed(ty, "a", gone), y)
      && !LengthOk(AfterListNamed(AfterListNamed(ty, "a", gone), "a", one), y)
  {
    assert Without(["a", "a"], "a") == ["a"];
    assert "a" in ["a"];
  }

  /** `x <- list(1); x[["[[1]]"]] <- 2`: R appends an element with that name, which is taken for the recorded one. */
  lemma PositionTakenForName()
    ensures
      var key := Key(1);
      var ty := VecType(List, Known(1), Some(Schema(ListKeys([""]), true)));
      var x, y := Vec(ListShape, [""]), Vec(ListShape, ["", key]);
      var w, vt := Write(Kind.Double, Name(key)), ValueType(Mode.Double, None);
      && Covers(ty, x) && Gives(x, w, AtomicValue, y) && ListNameTaken(ty, x, key, vt)
      && !LengthOk(After(ty, w, vt), y)
  {
    var key := Key(1);
    ListCovered([""]);
    OneKey();
    assert key != "" && key !in [""];
    assert [""] + [key] == ["", key];
  }

  lemma OneKey()
    ensures ListKeys([""]) == [Key(1)] && Key(1) in ListKeys([""])
  {
    assert [""][..0] == [];
  }

  /** A positional or computed write into a list. */
  lemma ListPositionSound(ty: VecType, x: Vec, w: Write, vt: ValueType, v: Value, y: Vec)
    requires Covers(ty, x) && ty.mode.List? && !w.kind.Dollar? && !w.subscript.Name?
    requires CoversValue(vt, v) && Gives(x, w, v, y)
    ensures Covers(AfterListPosition(ty, w.kind, vt), y)
  {
    match SelectedBy(w.subscript, |x.names|)
    case Named(ns) =>
      WithAllNames(x.names, ns);
      if |ns| == 1 {
        WithoutNames(x.names, ns[0]);
      }
    case At(ps) =>
      if |ps| == 1 {
        assert ps == [ps[0]];
        DroppedOne(x.names, ps[0]);
      }
  }

  /** `x[[N]] <- v` to a recorded element keeps the type; the length is wrong exactly when no element stands there. */
  lemma RecordedSound(ty: VecType, x: Vec, w: Write, vt: ValueType, v: Value, y: Vec)
    requires Covers(ty, x) && ty.mode.List? && Recorded(ty, w, vt)
    requires CoversValue(vt, v) && Gives(x, w, v, y)
    ensures After(ty, w, vt) == ty && ShapeOk(ty, y) && NamesOk(ty, y)
    ensures LengthOk(ty, y) <==> !(RTypes.Exact(ty.length).Some? && w.subscript.position > |x.names|)
  {
    SelectReaches(w.subscript.position, |x.names|);
  }

  /** `x <- list("[[5]]" = 1); x[[5]] <- 2` has five elements, and keeps its length of one. */
  lemma NameTakenForPosition()
    ensures
      var key := Key(5);
      var ty := VecType(List, Known(1), Some(Schema(ListKeys([key]), true)));
      var x, y := Vec(ListShape, [key]), Vec(ListShape, [key] + Blanks(4));
      var w, vt := Write(Kind.Double, Position(5)), ValueType(Mode.Double, None);
      && Covers(ty, x) && Recorded(ty, w, vt) && Gives(x, w, AtomicValue, y) && !LengthOk(After(ty, w, vt), y)
  {
    var key := Key(5);
    ListCovered([key]);
    assert key != "" && KeyLike(key);
    assert [key][..0] == [] && ListKeys([key]) == [key];
    SelectReaches(5, 1);
  }

  // ---------------------------------------------------------------------------------------------
  // A write of listed names into a list
  // ---------------------------------------------------------------------------------------------

  /** Every listed name is proven present or proven absent. */
  predicate Certain(ty: VecType, names: seq<string>) {
    forall s :: s in names && s != "" ==> !NamePresence(ty, s).MaybePresent?
  }

  /** A listed name that is only recorded. */
  predicate ListedTaken(ty: VecType, x: Vec, names: seq<string>) {
    exists s :: s in names && s != "" && NamePresence(ty, s).Present? && s !in x.names
  }

  predicate Lists(columns: Option<Schema>, name: string) {
    columns.Some? && name in columns.value.names
  }

  /** The tally's schema has the listed names besides the recorded ones, and is as complete as before. */
  ghost predicate SchemaOk(ty: VecType, names: seq<string>, columns: Option<Schema>) {
    && (forall s {:trigger Lists(columns, s)} :: Lists(columns, s) <==> Lists(ty.columns, s) || s in names)
    && (columns.Some? && columns.value.complete <==> ty.columns.Some? && ty.columns.value.complete)
  }

  lemma SchemaStep(ty: VecType, before: seq<string>, columns: Option<Schema>, name: string)
    requires SchemaOk(ty, before, columns)
    ensures SchemaOk(ty, before + [name], Some(WithName(columns, name)))
    ensures NamePresence(ty.(columns := columns), name) ==
      if Lists(ty.columns, name) || name in before then Present else NamePresence(ty, name)
  {
    assert Lists(columns, name) <==> Lists(ty.columns, name) || name in before;
    forall s ensures Lists(Some(WithName(columns, name)), s) <==> Lists(ty.columns, s) || s in before + [name] {
      assert Lists(columns, s) <==> Lists(ty.columns, s) || s in before;
    }
  }

  /** What the counts say, when R holds `now`. */
  predicate CountOk(ty: VecType, x: Vec, names: seq<string>, t: Tally, now: nat) {
    && t.certain == Certain(ty, names)
    && (t.added == 0 ==> forall s :: s in names ==> s != "" && !NamePresence(ty, s).Absent?)
    && now >= |x.names| + t.added
    && (t.certain && RTypes.Exact(ty.length).Some? ==> (now == |x.names| + t.added <==> !ListedTaken(ty, x, names)))
  }

  ghost predicate TallyOk(ty: VecType, x: Vec, names: seq<string>, t: Tally, now: seq<string>) {
    SchemaOk(ty, names, t.columns) && CountOk(ty, x, names, t, |now|)
  }

  lemma CertainStep(ty: VecType, x: Vec, before: seq<string>, name: string)
    ensures Certain(ty, before + [name]) <==>
      Certain(ty, before) && (name != "" ==> !NamePresence(ty, name).MaybePresent?)
    ensures ListedTaken(ty, x, before + [name]) <==>
      ListedTaken(ty, x, before) || (name != "" && NamePresence(ty, name).Present? && name !in x.names)
  {
    forall s ensures s in before + [name] <==> s in before || s == name {
    }
    if s :| s in before && s != "" && NamePresence(ty, s).Present? && s !in x.names {
      assert s in before + [name];
    }
    assert name in before + [name];
  }

  /** A name listed before is there by now; otherwise R has it exactly when the value had it. */
  lemma CountStep(ty: VecType, x: Vec, before: seq<string>, t: Tally, name: string)
    requires Covers(ty, x) && TallyOk(ty, x, before, t, WithAll(x.names, before))
    ensures CountOk(ty, x, before + [name], TallyName(ty, t, name), |With(WithAll(x.names, before), name)|)
  {
    WithAllNames(x.names, before);
    SchemaStep(ty, before, t.columns, name);
    CertainStep(ty, x, before, name);
    if name != "" && name !in before && NamePresence(ty, name).Absent? {
      assert name !in x.names;
    }
  }

  lemma TallyStep(ty: VecType, x: Vec, before: seq<string>, t: Tally, name: string)
    requires Covers(ty, x) && TallyOk(ty, x, before, t, WithAll(x.names, before))
    ensures TallyOk(ty, x, before + [name], TallyName(ty, t, name), With(WithAll(x.names, before), name))
  {
    SchemaStep(ty, before, t.columns, name);
    CountStep(ty, x, before, t, name);
  }

  lemma {:induction false} TallyCovers(ty: VecType, x: Vec, names: seq<string>)
    requires Covers(ty, x)
    ensures TallyOk(ty, x, names, TallyNames(ty, names), WithAll(x.names, names))
  {
    if names != [] {
      var before, last := names[..|names| - 1], names[|names| - 1];
      assert names == before + [last];
      TallyCovers(ty, x, before);
      TallyStep(ty, x, before, TallyNames(ty, before), last);
    }
  }

  /** A `[` write of listed names covers the result, except when a name that is only recorded is counted as there. */
  lemma ListNamesSound(ty: VecType, x: Vec, names: seq<string>)
    requires Covers(ty, x) && ty.mode.List?
    ensures ShapeOk(AfterListNames(ty, names), Vec(ListShape, WithAll(x.names, names)))
    ensures NamesOk(AfterListNames(ty, names), Vec(ListShape, WithAll(x.names, names)))
    ensures LengthOk(AfterListNames(ty, names), Vec(ListShape, WithAll(x.names, names))) <==>
      !(RTypes.Exact(ty.length).Some? && Certain(ty, names) && ListedTaken(ty, x, names))
  {
    TallyCovers(ty, x, names);
    WithAllNames(x.names, names);
    ListsOf(TallyNames(ty, names).columns);
    ListsOf(ty.columns);
  }

  lemma ListsOf(columns: Option<Schema>)
    ensures columns.Some? ==> forall s :: s in columns.value.names <==> Lists(columns, s)
  {
  }

  /**
   * NULL deletes the listed names, but they are counted as if they were stored: that is right exactly when the value
   * exceeds its least length by as many elements as match and as many names as are counted as new.
   */
  lemma ListNamesNull(ty: VecType, x: Vec, names: seq<string>)
    requires Covers(ty, x) && ty.mode.List?
    ensures
      var t, y := AfterListNames(ty, names), Vec(ListShape, WithoutAll(x.names, names));
      && (LengthOk(t, y) <==>
            |Matched(x.names, names)| + TallyNames(ty, names).added <= |x.names| - MinPossible(ty.length))
      && (LengthOk(t, y) ==> NamesOk(t, y))
  {
    TallyCovers(ty, x, names);
    WithoutAllCounts(x.names, names);
    ListsOf(TallyNames(ty, names).columns);
    ListsOf(ty.columns);
  }

  /** `x <- list(a = 1); x["a"] <- NULL` leaves nothing, and keeps its length of one. */
  lemma ListNamesNullKeepsLength()
    ensures
      var ty := VecType(List, One, Some(Schema(["a"], true)));
      var x, w := Vec(ListShape, ["a"]), Write(Single, Name("a"));
      && Covers(ty, x) && Gives(x, w, NullValue, Vec(ListShape, []))
      && After(ty, w, ValueType(Null, None)).length == One
      && !LengthOk(After(ty, w, ValueType(Null, None)), Vec(ListShape, []))
  {
    OneName(["a"], "a");
    assert ["a"][..0] == [];
    assert Without(["a"], "a") == [];
    assert "a" in ["a"];
  }

  // ---------------------------------------------------------------------------------------------
  // Runs of writes
  // ---------------------------------------------------------------------------------------------

  datatype Step = Step(write: Write, valueType: ValueType, value: Value, result: Vec)

  /**
   * The subscript is spelled out, a name is not one that is only recorded, a recorded position is there, and NULL does
   * not go through `[` with a name into a list.
   */
  predicate Literal(ty: VecType, x: Vec, s: Step) {
    match s.write.subscript
    case Name(name) =>
      && !OnlyRecorded(ty, x, name)
      && !(ty.mode.List? && s.write.kind.Single? && s.value.NullValue?)
    case Position(position) =>
      !(ty.mode.List? && Recorded(ty, s.write, s.valueType) && RTypes.Exact(ty.length).Some? && position > |x.names|)
    case Computed(_) => false
  }

  predicate Supported(mode: Mode) {
    IsAtomic(mode) || mode.Null? || mode.List?
  }

  /** The types and values of a run of literal writes; it ends where the receiver's mode is lost. */
  predicate Run(ty: VecType, x: Vec, steps: seq<Step>)
    decreases |steps|
  {
    steps != [] ==>
      && Supported(ty.mode) && Literal(ty, x, steps[0])
      && CoversValue(steps[0].valueType, steps[0].value)
      && Gives(x, steps[0].write, steps[0].value, steps[0].result)
      && Run(After(ty, steps[0].write, steps[0].valueType), steps[0].result, steps[1..])
  }

  function LastType(ty: VecType, steps: seq<Step>): VecType
    decreases |steps|
  {
    if steps == [] then ty else LastType(After(ty, steps[0].write, steps[0].valueType), steps[1..])
  }

  function LastValue(x: Vec, steps: seq<Step>): Vec {
    if steps == [] then x else steps[|steps| - 1].result
  }

  /** What a run keeps: no non-empty name is repeated, unless the schema is open. */
  predicate RunOk(ty: VecType, x: Vec) {
    Covers(ty, x) && (ty.columns.Some? && ty.columns.value.complete ==> Distinct(x.names))
  }

  lemma DistinctNotRepeated(names: seq<string>, name: string)
    requires Distinct(names) && name != ""
    ensures !Repeated(names, name)
  {
  }

  /** Writes by name, and writes that extend, repeat no name. */
  lemma KeepsDistinct(names: seq<string>, name: string, positions: seq<int>)
    requires Distinct(names)
    ensures Distinct(With(names, name)) && Distinct(Without(names, name)) && Distinct(Enlarged(names, positions))
  {
    WithoutDistinct(names, name);
  }

  lemma AtomicStep(ty: VecType, x: Vec, s: Step)
    requires RunOk(ty, x) && (IsAtomic(ty.mode) || ty.mode.Null?) && Literal(ty, x, s)
    requires CoversValue(s.valueType, s.value) && Gives(x, s.write, s.value, s.result)
    ensures RunOk(AfterWrite(ty, s.write, s.valueType), s.result)
  {
    WriteLengthSound(ty, x, s.write, s.valueType, s.value, s.result);
    WriteNamesSound(ty, x, s.write, s.valueType, s.value, s.result);
    WriteShapeSound(ty, x, s.write, s.valueType, s.value, s.result);
    if ty.columns.Some? && ty.columns.value.complete {
      AtomicDistinct(x, s);
      if s.write.subscript.Name? && s.write.subscript.name != "" {
        DistinctNotRepeated(x.names, s.write.subscript.name);
      }
    }
  }

  lemma AtomicDistinct(x: Vec, s: Step)
    requires Distinct(x.names) && !x.shape.ListShape? && !s.write.subscript.Computed?
    requires Gives(x, s.write, s.value, s.result)
    ensures Distinct(s.result.names)
  {
    match s.write.subscript
    case Name(name) =>
      OneName(x.names, name);
      KeepsDistinct(x.names, name, []);
    case Position(position) =>
      KeepsDistinct(x.names, "", Select(position, |x.names|));
  }

  lemma ListStep(ty: VecType, x: Vec, s: Step)
    requires RunOk(ty, x) && ty.mode.List? && Literal(ty, x, s)
    requires CoversValue(s.valueType, s.value) && Gives(x, s.write, s.value, s.result)
    ensures RunOk(After(ty, s.write, s.valueType), s.result)
  {
    match s.write.subscript
    case Name(name) =>
      OneName(x.names, name);
      if ty.columns.Some? && ty.columns.value.complete {
        KeepsDistinct(x.names, name, []);
        if name != "" {
          DistinctNotRepeated(x.names, name);
        }
      }
      if s.write.kind.Single? {
        ListNamesSound(ty, x, [name]);
        assert [name][..0] == [] && [name][0] == name;
        assert TallyNames(ty, [name]) == TallyName(ty, Tally(ty.columns, 0, true), name);
      } else {
        ListNamedSound(ty, x, s.write.kind, name, s.valueType, s.value, s.result);
      }
    case Position(position) =>
      if Recorded(ty, s.write, s.valueType) {
        RecordedSound(ty, x, s.write, s.valueType, s.value, s.result);
        if ty.columns.value.complete {
          KeepsDistinct(x.names, "", Select(position, |x.names|));
        }
      } else {
        ListPositionSound(ty, x, s.write, s.valueType, s.value, s.result);
      }
  }

  /**
   * Along any run of literal writes, from a value whose names are not repeated, the computed type covers the value R
   * has.
   */
  lemma {:induction false} RunSound(ty: VecType, x: Vec, steps: seq<Step>)
    requires RunOk(ty, x) && Run(ty, x, steps)
    ensures Covers(LastType(ty, steps), LastValue(x, steps))
    decreases |steps|
  {
    if steps != [] {
      if ty.mode.List? {
        ListStep(ty, x, steps[0]);
      } else {
        AtomicStep(ty, x, steps[0]);
      }
      RunSound(After(ty, steps[0].write, steps[0].valueType), steps[0].result, steps[1..]);
    }
  }

  /** In particular from a list as it is constructed. */
  lemma ListRunSound(names: seq<string>, steps: seq<Step>)
    requires Distinct(names)
    requires Run(VecType(List, Known(|names|), Some(Schema(ListKeys(names), true))), Vec(ListShape, names), steps)
    ensures
      Covers(LastType(VecType(List, Known(|names|), Some(Schema(ListKeys(names), true))), steps),
             LastValue(Vec(ListShape, names), steps))
  {
    ListCovered(names);
    RunSound(VecType(List, Known(|names|), Some(Schema(ListKeys(names), true))), Vec(ListShape, names), steps);
  }
}
