/** What a replacement write leaves of a class-less R value: section 3.4.4 of the R Language Definition. */
module RVectors {
  import opened Wrappers

  datatype Shape = NullShape | AtomicShape | ListShape

  /** A class-less value: one name for each element, empty when the element has none. */
  datatype Vec = Vec(shape: Shape, names: seq<string>)

  /** A replacement: NULL, something only a list can hold, or an atomic vector. */
  datatype Value = NullValue | ListValue | AtomicValue

  datatype Kind = Single | Double | Dollar

  /** What a subscript selects: names, or positions counted from one. */
  datatype Selected = Named(names: seq<string>) | At(positions: seq<int>)

  /** A spelled-out name or number, or an expression that turns out to select something. */
  datatype Subscript = Name(name: string) | Position(position: int) | Computed(selected: Selected)

  datatype Write = Write(kind: Kind, subscript: Subscript)

  const MAX_INDEX: int := 0x7fff_ffff

  // ---------------------------------------------------------------------------------------------
  // Names
  // ---------------------------------------------------------------------------------------------

  /** Drop the first element with this name. The empty name matches nothing. */
  function Without(names: seq<string>, name: string): seq<string> {
    if names == [] || name == "" then names
    else if names[0] == name then names[1..]
    else [names[0]] + Without(names[1..], name)
  }

  function With(names: seq<string>, name: string): seq<string> {
    if name != "" && name in names then names else names + [name]
  }

  function WithAll(names: seq<string>, added: seq<string>): seq<string> {
    if added == [] then names else With(WithAll(names, added[..|added| - 1]), added[|added| - 1])
  }

  /** A name listed twice selects the same element twice. */
  function WithoutAll(names: seq<string>, dropped: seq<string>): seq<string> {
    if dropped == [] then names
    else
      var before, last := dropped[..|dropped| - 1], dropped[|dropped| - 1];
      if last in before then WithoutAll(names, before) else Without(WithoutAll(names, before), last)
  }

  // ---------------------------------------------------------------------------------------------
  // Positions
  // ---------------------------------------------------------------------------------------------

  function Blanks(n: nat): (r: seq<string>)
    ensures |r| == n && forall i :: 0 <= i < n ==> r[i] == ""
  {
    seq(n, _ => "")
  }

  function Largest(positions: seq<int>): nat {
    if positions == [] then 0
    else
      var last, before := positions[|positions| - 1], Largest(positions[..|positions| - 1]);
      if last > before then last else before
  }

  /** Extended with unnamed elements to reach every position. */
  function Enlarged(names: seq<string>, positions: seq<int>): (r: seq<string>)
    ensures names <= r && forall s :: s in r && s != "" ==> s in names
  {
    names + Blanks(if Largest(positions) > |names| then Largest(positions) - |names| else 0)
  }

  function Dropped(names: seq<string>, positions: seq<int>): seq<string> {
    if names == [] then []
    else
      var n := |names|;
      Dropped(names[..n - 1], positions) + if n in positions then [] else [names[n - 1]]
  }

  /** The positions up to `n`, except one. */
  function Others(n: nat, except: int): seq<int> {
    if n == 0 then [] else Others(n - 1, except) + if n == except then [] else [n as int]
  }

  /** What a number selects among `n` elements: itself, nothing, or all but one. */
  function Select(position: int, n: nat): seq<int> {
    if position > 0 then [position] else if position == 0 then [] else Others(n, -position)
  }

  function SelectedBy(s: Subscript, n: nat): Selected {
    match s
    case Name(name) => Named([name])
    case Position(position) => At(Select(position, n))
    case Computed(selected) => selected
  }

  // ---------------------------------------------------------------------------------------------
  // Writes
  // ---------------------------------------------------------------------------------------------

  function ShapeAfter(shape: Shape, kind: Kind, v: Value): Shape {
    if shape.NullShape? && v.NullValue? then NullShape
    else if shape.ListShape? || kind.Dollar? || v.ListValue? || (shape.NullShape? && kind.Double?) then ListShape
    else AtomicShape
  }

  /** The names after a write; none when R reports an error. `[[` with several subscripts goes into an element. */
  function NamesAfter(names: seq<string>, kind: Kind, selected: Selected, deletes: bool): Option<seq<string>> {
    match selected
    case Named(ns) =>
      if kind.Single? then Some(if deletes then WithoutAll(names, ns) else WithAll(names, ns))
      else if ns == [] then None
      else if |ns| > 1 then Some(names)
      else Some(if deletes then Without(names, ns[0]) else With(names, ns[0]))
    case At(ps) =>
      if kind.Dollar? || Largest(ps) > MAX_INDEX then None
      else if kind.Single? then Some(if deletes then Dropped(Enlarged(names, ps), ps) else Enlarged(names, ps))
      else if ps == [] then None
      else if |ps| > 1 then Some(names)
      else Some(if deletes then Dropped(names, ps) else Enlarged(names, ps))
  }

  /** The value after a write, if it completes. NULL deletes from a list and is an error in an atomic vector. */
  function Replace(x: Vec, w: Write, v: Value): Option<Vec> {
    var shape := ShapeAfter(x.shape, w.kind, v);
    if x.shape.NullShape? && v.NullValue? then Some(Vec(shape, x.names))
    else if w.kind.Dollar? && !w.subscript.Name? then None
    else if x.shape.AtomicShape? && v.NullValue? && !w.kind.Dollar? then None
    else
      match NamesAfter(x.names, w.kind, SelectedBy(w.subscript, |x.names|), v.NullValue?)
      case Some(names) => Some(Vec(shape, names))
      case None => None
  }

  /** The write completes and leaves `y`. */
  predicate Gives(x: Vec, w: Write, v: Value, y: Vec) {
    Replace(x, w, v) == Some(y)
  }

  // ---------------------------------------------------------------------------------------------
  // What these do to names
  // ---------------------------------------------------------------------------------------------

  lemma {:induction false} WithoutNames(names: seq<string>, name: string)
    ensures |Without(names, name)| == if name != "" && name in names then |names| - 1 else |names|
    ensures forall s :: s in Without(names, name) ==> s in names
    ensures forall s :: s in names && s != name ==> s in Without(names, name)
    ensures name == "" || name !in names ==> Without(names, name) == names
  {
    if names != [] && name != "" && names[0] != name {
      WithoutNames(names[1..], name);
    }
  }

  lemma OneName(names: seq<string>, name: string)
    ensures WithAll(names, [name]) == With(names, name) && WithoutAll(names, [name]) == Without(names, name)
  {
    assert [name][..0] == [];
  }

  /** The name stands at two places. */
  predicate Repeated(names: seq<string>, name: string) {
    exists i, j :: 0 <= i < j < |names| && names[i] == name && names[j] == name
  }

  predicate Distinct(names: seq<string>) {
    forall i, j :: 0 <= i < j < |names| && names[i] != "" ==> names[i] != names[j]
  }

  /** A deleted name is left behind exactly when it was repeated. */
  lemma {:induction false} WithoutRepeated(names: seq<string>, name: string)
    requires name != ""
    ensures name in Without(names, name) <==> Repeated(names, name)
  {
    if names != [] {
      if names[0] == name {
        if name in names[1..] {
          var j :| 0 <= j < |names[1..]| && names[1..][j] == name;
          assert names[0] == name && names[j + 1] == name;
        }
      } else {
        WithoutRepeated(names[1..], name);
        if Repeated(names[1..], name) {
          var i, j :| 0 <= i < j < |names[1..]| && names[1..][i] == name && names[1..][j] == name;
          assert names[i + 1] == name && names[j + 1] == name;
        }
        if Repeated(names, name) {
          var i, j :| 0 <= i < j < |names| && names[i] == name && names[j] == name;
          assert names[1..][i - 1] == name && names[1..][j - 1] == name;
        }
      }
    }
  }

  lemma DistinctRest(names: seq<string>)
    requires Distinct(names) && names != []
    ensures Distinct(names[1..]) && (names[0] != "" ==> names[0] !in names[1..])
  {
  }

  lemma {:induction false} WithoutDistinct(names: seq<string>, name: string)
    requires Distinct(names)
    ensures Distinct(Without(names, name))
  {
    if names != [] && name != "" {
      DistinctRest(names);
      if names[0] != name {
        WithoutDistinct(names[1..], name);
        WithoutNames(names[1..], name);
      }
    }
  }

  /** The non-empty listed names that some element has. */
  function Matched(names: seq<string>, listed: seq<string>): set<string> {
    set s | s in listed && s != "" && s in names
  }

  /** Deleting by name drops one element for each different name that matches. */
  lemma {:induction false} WithoutAllCounts(names: seq<string>, dropped: seq<string>)
    ensures |WithoutAll(names, dropped)| == |names| - |Matched(names, dropped)|
    ensures forall s :: s in WithoutAll(names, dropped) ==> s in names
    ensures forall s :: s in names && s !in dropped ==> s in WithoutAll(names, dropped)
    ensures Matched(names, dropped) == {} ==> WithoutAll(names, dropped) == names
  {
    if dropped != [] {
      var before, last := dropped[..|dropped| - 1], dropped[|dropped| - 1];
      assert dropped == before + [last];
      WithoutAllCounts(names, before);
      WithoutNames(WithoutAll(names, before), last);
      if last in before {
        assert Matched(names, dropped) == Matched(names, before);
      } else if last != "" && last in names {
        assert Matched(names, dropped) == Matched(names, before) + {last};
      } else {
        assert Matched(names, dropped) == Matched(names, before);
      }
    }
  }

  lemma {:induction false} WithAllNames(names: seq<string>, added: seq<string>)
    ensures names <= WithAll(names, added)
    ensures forall s :: s in WithAll(names, added) <==> s in names || s in added
  {
    if added != [] {
      var before, last := added[..|added| - 1], added[|added| - 1];
      assert added == before + [last];
      WithAllNames(names, before);
    }
  }

  lemma {:induction false} DroppedOne(names: seq<string>, position: int)
    ensures |Dropped(names, [position])| + (if 1 <= position <= |names| then 1 else 0) == |names|
  {
    if names != [] {
      DroppedOne(names[..|names| - 1], position);
    }
  }

  lemma {:induction false} OthersWithin(n: nat, except: int)
    ensures Largest(Others(n, except)) <= n
  {
    if n > 0 {
      OthersWithin(n - 1, except);
      var rest := Others(n - 1, except);
      assert (rest + [n as int])[..|rest + [n as int]| - 1] == rest;
      assert rest + [] == rest;
    }
  }

  /** A positive number reaches its position; another selects only what is there. */
  lemma SelectReaches(position: int, n: nat)
    ensures position > 0 ==> Largest(Select(position, n)) == position
    ensures position <= 0 ==> Largest(Select(position, n)) <= n
  {
    if position > 0 {
      assert [position][..0] == [];
    } else {
      OthersWithin(n, -position);
    }
  }
}
