/** The parts of the type lattice that the length and contract checks use, and the R values they describe. */
module RTypes {

  import opened Wrappers

  /** Storage modes; `Opaque` is no information and `Union` a merge of different modes. */
  datatype Mode =
    | Logical | Integer | Double | Complex | Character | Raw
    | List | Null | Function | Environment | Language | Opaque | Union

  predicate UnknownOrNonVector(mode: Mode) {
    mode.Opaque? || mode.Environment? || mode.Language?
  }

  /** The mode of `c(self, other)`. */
  function CombineResult(self: Mode, other: Mode): Mode {
    if self.Opaque? || self.Union? || self.Environment? || self.Language? then Opaque
    else if other.Opaque? || other.Union? || other.Environment? || other.Language? then Opaque
    else if self.List? || self.Function? || other.List? || other.Function? then List
    else if self.Character? || other.Character? then Character
    else if self.Complex? || other.Complex? then Complex
    else if self.Double? || other.Double? then Double
    else if self.Integer? || other.Integer? then Integer
    else if self.Logical? || other.Logical? then Logical
    else if self.Raw? || other.Raw? then Raw
    else Null
  }

  datatype Length = Zero | One | Known(n: nat) | Unknown | Nonempty | AtLeast(n: nat)

  /** The lengths a value of this abstract length can have. */
  predicate HasLength(length: Length, n: nat) {
    match length
    case Zero => n == 0
    case One => n == 1
    case Known(k) => n == k
    case Unknown => true
    case Nonempty => n >= 1
    case AtLeast(k) => n >= k
  }

  function Exact(length: Length): (r: Option<nat>)
    ensures r.Some? ==> forall n: nat :: HasLength(length, n) <==> n == r.value
  {
    match length
    case Zero => Some(0)
    case One => Some(1)
    case Known(n) => Some(n)
    case _ => None
  }

  function MinPossible(length: Length): (r: nat)
    ensures HasLength(length, r) && forall n: nat :: HasLength(length, n) ==> r <= n
  {
    match length
    case Zero => 0
    case Unknown => 0
    case One => 1
    case Nonempty => 1
    case Known(n) => n
    case AtLeast(n) => n
  }

  function LowerBound(n: nat): (r: Length)
    ensures forall k: nat :: HasLength(r, k) <==> n <= k
  {
    if n == 0 then Unknown else if n == 1 then Nonempty else AtLeast(n)
  }

  function ExactLength(n: nat): (r: Length)
    ensures forall k: nat :: HasLength(r, k) <==> k == n
  {
    if n == 0 then Zero else if n == 1 then One else Known(n)
  }

  /** The merge of two lengths covers both. */
  function Join(a: Length, b: Length): (r: Length)
    ensures forall n: nat :: HasLength(a, n) || HasLength(b, n) ==> HasLength(r, n)
  {
    if a == b then a
    else if Exact(a).Some? && Exact(a) == Exact(b) then a
    else LowerBound(if MinPossible(a) <= MinPossible(b) then MinPossible(a) else MinPossible(b))
  }
}
