/** Lattice atoms: an atom whose only stored position is the Cartesian `r`,
    seen through a lattice as fractional coordinates `rs` (`xs`, `ys`, `zs`)
    that are recomputed on every read and written back into `r` on every
    write; and the collection of such atoms. */
module CoreAtoms {
  import opened PyValues

  /** A position or fractional triple. */
  datatype Vec3 = Vec3(x: real, y: real, z: real)

  /** `Vector()`: the zero vector. */
  const Origin: Vec3 := Vec3(0.0, 0.0, 0.0)

  datatype Axis = X | Y | Z

  function Component(v: Vec3, a: Axis): real {
    match a
    case X => v.x
    case Y => v.y
    case Z => v.z
  }

  /** `v` with the component on axis `a` replaced by `value`
      (`rs.x = value` on a fresh copy of `rs`). */
  function WithComponent(v: Vec3, a: Axis, value: real): (w: Vec3)
    ensures Component(w, a) == value
    ensures forall b :: b != a ==> Component(w, b) == Component(v, b)
  {
    match a
    case X => v.(x := value)
    case Y => v.(y := value)
    case Z => v.(z := value)
  }

  /** A crystal lattice, reduced to its two coordinate transforms
      (`cartesian_to_fractional`, `fractional_to_cartesian`). The cell
      matrix behind them is not part of this model. */
  datatype Lattice = Lattice(toFrac: Vec3 -> Vec3, toCart: Vec3 -> Vec3)

  /** The two transforms are mutually inverse (a non-degenerate cell). */
  ghost predicate Invertible(l: Lattice) {
    && (forall f :: l.toFrac(l.toCart(f)) == f)
    && (forall r :: l.toCart(l.toFrac(r)) == r)
  }

  /** The fractional view of Cartesian position `r`: through the lattice,
      or the zero vector when there is none (the AttributeError of
      `None.cartesian_to_fractional` is caught). */
  function FracOf(lattice: Option<Lattice>, r: Vec3): Vec3 {
    match lattice
    case None => Origin
    case Some(l) => l.toFrac(r)
  }

  /** `Vector(value, nd=3)` for a list or array argument: exactly three
      numbers make a vector. */
  function ToVec3(value: PyObj): (v: Option<Vec3>)
    requires value.PyList? || value.PyArray?
    ensures v.Some? <==> |value.items| == 3 && forall i :: 0 <= i < 3 ==> IsNumber(value.items[i])
    ensures v.Some? ==> forall i :: 0 <= i < 3 ==> Component(v.value, [X, Y, Z][i]) == AsReal(value.items[i])
  {
    var it := value.items;
    if |it| == 3 && IsNumber(it[0]) && IsNumber(it[1]) && IsNumber(it[2]) then
      Some(Vec3(AsReal(it[0]), AsReal(it[1]), AsReal(it[2])))
    else
      None
  }

  /** The new Cartesian position after `xs`, `ys` or `zs` (axis `a`) is set
      to `value`, or the exception raised, in which case nothing changes.
      The type check comes first; with no lattice the write-back fails. */
  function SetComponent(lattice: Option<Lattice>, r: Vec3, a: Axis, value: PyObj): (res: Result<Vec3>)
    ensures !IsNumber(value) ==> res == Err(TypeError("Expected a number"))
    ensures IsNumber(value) && lattice.None? ==> res == Err(AttributeError)
    ensures res.Ok? <==> IsNumber(value) && lattice.Some?
    ensures res.Ok? && Invertible(lattice.value) ==>
      FracOf(lattice, res.value) == WithComponent(FracOf(lattice, r), a, AsReal(value))
    ensures res.Ok? && Invertible(lattice.value) ==>
      && Component(FracOf(lattice, res.value), a) == AsReal(value)
      && forall b :: b != a ==> Component(FracOf(lattice, res.value), b) == Component(FracOf(lattice, r), b)
  {
    if !IsNumber(value) then Err(TypeError("Expected a number"))
    else if lattice.None? then Err(AttributeError)
    else Ok(lattice.value.toCart(WithComponent(FracOf(lattice, r), a, AsReal(value))))
  }

  /** The new Cartesian position after `rs` is set to `value`, or the
      exception raised. Only a list or an ndarray is accepted; the model
      reports anything `Vector(value, nd=3)` cannot take as ValueError. */
  function SetFractional(lattice: Option<Lattice>, r: Vec3, value: PyObj): (res: Result<Vec3>)
    ensures !(value.PyList? || value.PyArray?) ==> res == Err(TypeError("Expected an array_like object"))
    ensures res.Ok? <==> (value.PyList? || value.PyArray?) && ToVec3(value).Some? && lattice.Some?
    ensures res.Ok? && Invertible(lattice.value) ==> FracOf(lattice, res.value) == ToVec3(value).value
  {
    if !(value.PyList? || value.PyArray?) then Err(TypeError("Expected an array_like object"))
    else match ToVec3(value)
      case None => Err(ValueError)
      case Some(f) =>
        if lattice.None? then Err(AttributeError)
        else Ok(lattice.value.toCart(f))
  }

  /** A lattice atom. The base Atom is reduced to its element symbol; its
      other attributes are not part of this model. */
  class LatticeAtom {
    var element: string
    var r: Vec3
    var lattice: Option<Lattice>

    /** `LatticeAtom(element=..., r=..., lattice=..., xs=..., ys=..., zs=...)`:
        the lattice is stored first, then `rs` is written; with no lattice
        that write fails and the failure is swallowed, keeping `r`. */
    constructor (element: string, r: Vec3, lattice: Option<Lattice>, xs: real, ys: real, zs: real)
      ensures this.element == element && this.lattice == lattice
      ensures lattice.None? ==> this.r == r
      ensures lattice.Some? ==> this.r == lattice.value.toCart(Vec3(xs, ys, zs))
      ensures lattice.Some? && Invertible(lattice.value) ==> Rs() == Vec3(xs, ys, zs)
    {
      var res := SetFractional(lattice, r, PyArray([PyFloat(xs), PyFloat(ys), PyFloat(zs)]));
      assert res.Ok? || res.error == AttributeError;
      this.element := element;
      this.lattice := lattice;
      this.r := if res.Ok? then res.value else r;
    }

    /** The fractional coordinates, recomputed from `r`. */
    function Rs(): (rs: Vec3)
      reads this
      ensures lattice.None? ==> rs == Origin
      ensures lattice.Some? && Invertible(lattice.value) ==> lattice.value.toCart(rs) == r
    {
      FracOf(lattice, r)
    }

    /** `xs`, `ys` or `zs`: one component of `rs`; zero with no lattice. */
    function Fractional(a: Axis): (v: real)
      reads this
      ensures lattice.None? ==> v == 0.0
      ensures lattice.Some? ==> v == Component(lattice.value.toFrac(r), a)
    {
      Component(Rs(), a)
    }

    /** `__eq__`: equal fractional coordinates and equal base atoms. */
    function Equals(other: LatticeAtom): (eq: bool)
      reads this, other
      ensures eq ==> forall a :: Fractional(a) == other.Fractional(a)
      ensures lattice.Some? && other.lattice == lattice && Invertible(lattice.value) ==>
        (eq <==> r == other.r && element == other.element)
      ensures lattice.None? && other.lattice.None? ==> (eq <==> element == other.element)
    {
      Rs() == other.Rs() && element == other.element
    }

    /** The `xs`, `ys` and `zs` setters (axis `a`). */
    method SetFractionalComponent(a: Axis, value: PyObj) returns (err: Option<PyError>)
      modifies this
      ensures element == old(element) && lattice == old(lattice)
      ensures match SetComponent(old(lattice), old(r), a, value)
        case Ok(p) => r == p && err.None?
        case Err(e) => r == old(r) && err == Some(e)
      ensures IsNumber(value) && lattice.Some? && Invertible(lattice.value) ==>
        && Fractional(a) == AsReal(value)
        && forall b :: b != a ==> Fractional(b) == old(Fractional(b))
    {
      var res := SetComponent(lattice, r, a, value);
      match res
      case Ok(p) =>
        r := p;
        err := None;
      case Err(e) =>
        err := Some(e);
    }

    /** The `rs` setter. */
    method SetRs(value: PyObj) returns (err: Option<PyError>)
      modifies this
      ensures element == old(element) && lattice == old(lattice)
      ensures match SetFractional(old(lattice), old(r), value)
        case Ok(p) => r == p && err.None?
        case Err(e) => r == old(r) && err == Some(e)
      ensures err.None? && Invertible(lattice.value) ==> Rs() == ToVec3(value).value
    {
      var res := SetFractional(lattice, r, value);
      match res
      case Ok(p) =>
        r := p;
        err := None;
      case Err(e) =>
        err := Some(e);
    }

    /** The `lattice` setter. The stored lattice is a value, which is
        stronger than the source's shallow copy (that copy still shares the
        lattice's mutable parts with the caller). `r` is kept; only later
        `rs` reads change. */
    method SetLattice(value: Option<Lattice>)
      modifies this
      ensures lattice == value && r == old(r) && element == old(element)
      ensures Rs() == FracOf(value, old(r))
    {
      lattice := value;
    }
  }

  /** An ordered collection of lattice atoms. */
  class LatticeAtoms {
    var atoms: seq<LatticeAtom>

    constructor (atoms: seq<LatticeAtom>)
      ensures this.atoms == atoms
    {
      this.atoms := atoms;
    }

    /** The `lattice` getter: the first atom's lattice, or None when empty. */
    function GetLattice(): (l: Option<Lattice>)
      reads this, atoms
      ensures |atoms| == 0 ==> l.None?
      ensures |atoms| > 0 ==> l == atoms[0].lattice
    {
      if |atoms| == 0 then None else atoms[0].lattice
    }

    /** The `lattice` setter: a broadcast to every atom, moving none. */
    method SetLattice(value: Option<Lattice>)
      modifies atoms
      ensures forall a :: a in atoms ==> a.lattice == value && a.r == old(a.r) && a.element == old(a.element)
      ensures |atoms| > 0 ==> GetLattice() == value
    {
      for i := 0 to |atoms|
        invariant forall j :: 0 <= j < i ==> atoms[j].lattice == value
        invariant forall a :: a in atoms ==> a.r == old(a.r) && a.element == old(a.element)
      {
        atoms[i].SetLattice(value);
      }
    }

    /** `rs`: the fractional coordinates of every atom, in collection order. */
    method Rs() returns (rs: seq<Vec3>)
      ensures |rs| == |atoms|
      ensures forall i :: 0 <= i < |atoms| ==> rs[i] == atoms[i].Rs()
    {
      rs := [];
      for i := 0 to |atoms|
        invariant |rs| == i
        invariant forall j :: 0 <= j < i ==> rs[j] == atoms[j].Rs()
      {
        rs := rs + [atoms[i].Rs()];
      }
    }

    /** `xs`, `ys`, `zs`: column `a` of the `rs` array. On an empty
        collection `rs` is a one-axis empty array and the column index
        raises IndexError. */
    method Column(a: Axis) returns (col: Result<seq<real>>)
      ensures |atoms| == 0 ==> col == Err(IndexError)
      ensures |atoms| > 0 ==> col.Ok? && |col.value| == |atoms|
      ensures |atoms| > 0 ==> forall i :: 0 <= i < |atoms| ==> col.value[i] == atoms[i].Fractional(a)
    {
      var rs := Rs();
      if |rs| == 0 {
        col := Err(IndexError);
      } else {
        col := Ok(seq(|rs|, i requires 0 <= i < |rs| => Component(rs[i], a)));
      }
    }
  }
}
