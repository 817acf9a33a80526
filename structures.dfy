/** Crystal structures: a structure built from a lattice and basis atoms,
    its attribute routing (underscore names stay on the structure, every
    other name goes to its atoms collection), the argument normalisation of
    `from_spacegroup`, the supercell gate, and the fixed parameters of the
    named structures. The external space-group library appears only as the
    record of the calls made to it. */
module CrystalStructures {
  import opened PyValues
  import opened CoreAtoms

  /** A structure atom, reduced to its element and Cartesian position. */
  class StructureAtom {
    var element: string
    var r: Vec3

    constructor (element: string, r: Vec3)
      ensures this.element == element && this.r == r
    {
      this.element := element;
      this.r := r;
    }
  }

  /** Values held in attributes of a structure or of its atoms collection. */
  datatype Value =
    | NoneValue
    | Text(s: string)
    | LatticeValue(lattice: Lattice)
    | BasisValue(basis: seq<StructureAtom>)
    | CollectionValue(collection: StructureAtoms)
    | Function(name: string)  // a function of the class, bound to the structure

  /** The atoms collection: its members and its instance attributes, which
      this model treats as a plain attribute store. */
  class StructureAtoms {
    var members: seq<StructureAtom>
    var attrs: map<string, Value>

    constructor (members: seq<StructureAtom>)
      ensures this.members == members && attrs == map[]
    {
      this.members := members;
      attrs := map[];
    }
  }

  /** `name.startswith('_')`. */
  predicate IsPrivate(name: string) {
    |name| > 0 && name[0] == '_'
  }

  /** The properties the structure class itself defines. */
  const StructureProperties: set<string> := {"atoms", "basis", "lattice", "unit_cell"}

  /** `getattr(self._atoms, name)`, given the attribute table of the
      collection held as `_atoms` (None when `_atoms` is missing or is not
      a collection: setting or reading attributes on it fails). */
  function Forward(target: Option<map<string, Value>>, name: string): (r: Result<Value>)
    ensures r.Ok? <==> target.Some? && name in target.value
    ensures r.Ok? ==> r.value == target.value[name]
    ensures r.Err? ==> r.error == AttributeError
  {
    match target
    case None => Err(AttributeError)
    case Some(attrs) => if name in attrs then Ok(attrs[name]) else Err(AttributeError)
  }

  /** The functions the class itself defines. Python finds them on the
      class, after its properties and the instance's own attributes, and
      before it falls back to `__getattr__`. */
  const ClassFunctions: set<string> :=
    {"__init__", "__repr__", "__getattr__", "__setattr__", "__delattr__",
     "from_pymatgen_structure", "from_spacegroup", "todict"}

  /** Reading attribute `name` of a structure whose own attributes are
      `own` and whose `_atoms` collection has attribute table `target`.
      The `lattice` and `basis` properties read `_lattice`/`_basis`; when
      those are missing, `__getattr__` forwards that name first, and when
      the forwarded lookup fails Python retries `__getattr__` with the
      property's own name. A failed lookup of `_atoms` yields None. */
  function Lookup(own: map<string, Value>, target: Option<map<string, Value>>, name: string): (r: Result<Value>)
    ensures name in {"atoms", "_atoms"} ==> r == Ok(if "_atoms" in own then own["_atoms"] else NoneValue)
    ensures name == "unit_cell" ==> r == Ok(NoneValue)
    ensures name !in StructureProperties && name in own ==> r == Ok(own[name])
    ensures name !in StructureProperties && name !in own && name in ClassFunctions ==> r == Ok(Function(name))
    ensures IsPrivate(name) && name !in own && name !in ClassFunctions && name != "_atoms" ==> r == Forward(target, name)
    ensures !IsPrivate(name) && name !in StructureProperties && name !in ClassFunctions && name !in own ==>
      r == Forward(target, name)
    ensures name in {"lattice", "basis"} && "_" + name in own ==> r == Ok(own["_" + name])
    ensures name in {"lattice", "basis"} && "_" + name !in own && Forward(target, "_" + name).Ok? ==>
      r == Forward(target, "_" + name)
    ensures name in {"lattice", "basis"} && "_" + name !in own && Forward(target, "_" + name).Err? ==>
      r == Forward(target, name)
    ensures r.Err? ==> r.error == AttributeError
  {
    if name == "atoms" then
      Ok(if "_atoms" in own then own["_atoms"] else NoneValue)
    else if name == "lattice" || name == "basis" then
      var slot := "_" + name;
      if slot in own then Ok(own[slot])
      else match Forward(target, slot)
        case Ok(v) => Ok(v)
        case Err(_) => Forward(target, name)
    else if name == "unit_cell" then
      Ok(NoneValue)
    else if name in own then
      Ok(own[name])
    else if name in ClassFunctions then
      Ok(Function(name))
    else if name == "_atoms" then
      Ok(NoneValue)
    else
      Forward(target, name)
  }

  /** `todict`: the `lattice` and `basis` attributes, read through the
      same routing as any other lookup. */
  function ToDict(own: map<string, Value>, target: Option<map<string, Value>>): (d: Result<map<string, Value>>)
    ensures d.Ok? <==> Lookup(own, target, "lattice").Ok? && Lookup(own, target, "basis").Ok?
    ensures d.Ok? ==> d.value.Keys == {"lattice", "basis"}
    ensures d.Ok? ==> d.value["lattice"] == Lookup(own, target, "lattice").value
    ensures d.Ok? ==> d.value["basis"] == Lookup(own, target, "basis").value
  {
    var lattice :- Lookup(own, target, "lattice");
    var basis :- Lookup(own, target, "basis");
    Ok(map["lattice" := lattice, "basis" := basis])
  }

  /** Right after construction the structure holds only `_atoms`, and the
      collection holds what the constructor routed to it. Reading `lattice`
      or `basis` then returns exactly the value given (the structure's own
      `lattice` setter, which would wrap it in a CrystalLattice, never ran),
      and `todict` succeeds with those two values. */
  lemma ConstructedLookups(c: StructureAtoms, lattice: Value, basis: Value)
    ensures var own, attrs := map["_atoms" := CollectionValue(c)], map["lattice" := lattice, "basis" := basis, "fmtstr" := Text(FmtStr)];
      && Lookup(own, Some(attrs), "lattice") == Ok(lattice)
      && Lookup(own, Some(attrs), "basis") == Ok(basis)
      && ToDict(own, Some(attrs)) == Ok(map["lattice" := lattice, "basis" := basis])
  {
    var own, attrs := map["_atoms" := CollectionValue(c)], map["lattice" := lattice, "basis" := basis, "fmtstr" := Text(FmtStr)];
    assert "_" + "lattice" == "_lattice" && "_" + "basis" == "_basis";
    assert "_lattice" !in own && "_lattice" !in attrs;
    assert "_basis" !in own && "_basis" !in attrs;
  }

  /** Where a basis coordinate lands: as given when Cartesian, otherwise
      through `fractional_to_cartesian`. */
  function Position(lattice: Option<Lattice>, cartesian: bool, pos: Vec3): Vec3
    requires cartesian || lattice.Some?
  {
    if cartesian then pos else lattice.value.toCart(pos)
  }

  /** The value an optional constructor argument is stored as. */
  function LatticeArg(lattice: Option<Lattice>): Value {
    match lattice
    case None => NoneValue
    case Some(l) => LatticeValue(l)
  }

  function BasisArg(basis: Option<seq<StructureAtom>>): Value {
    match basis
    case None => NoneValue
    case Some(b) => BasisValue(b)
  }

  const FmtStr: string := "lattice={lattice!r}, basis={basis!r}"

  function Min(a: nat, b: nat): nat {
    if a < b then a else b
  }

  /** No atom after index `j` and before `n` is the atom at `j`. */
  ghost predicate LastBefore(atoms: seq<StructureAtom>, j: nat, n: nat)
    requires j < |atoms| && n <= |atoms|
  {
    forall k :: j < k < n ==> atoms[k] != atoms[j]
  }

  /** No atom before index `n` is the atom at `j`. */
  ghost predicate NotAmongFirst(atoms: seq<StructureAtom>, j: nat, n: nat)
    requires j < |atoms| && n <= |atoms|
  {
    forall k :: 0 <= k < n ==> atoms[k] != atoms[j]
  }

  /** Where atom `a`, first at `prior`, stands after the first `n` pairs
      of `zip(atoms, coords)` have been applied: at its last pair's
      position, or still at `prior` when it has none. */
  ghost function Placed(atoms: seq<StructureAtom>, coords: seq<Vec3>, lattice: Option<Lattice>, cartesian: bool,
                        n: nat, a: StructureAtom, prior: Vec3): Vec3
    requires n <= |atoms| && n <= |coords| && (!cartesian && n > 0 ==> lattice.Some?)
  {
    if n == 0 then prior
    else if atoms[n - 1] == a then Position(lattice, cartesian, coords[n - 1])
    else Placed(atoms, coords, lattice, cartesian, n - 1, a, prior)
  }

  /** An atom whose last pair is the one at `j` ends at that pair's position. */
  lemma {:induction false} PlacedAtLastPair(atoms: seq<StructureAtom>, coords: seq<Vec3>, lattice: Option<Lattice>, cartesian: bool,
                                            n: nat, j: nat, prior: Vec3)
    requires j < n <= |atoms| && n <= |coords| && (!cartesian ==> lattice.Some?)
    requires LastBefore(atoms, j, n)
    ensures Placed(atoms, coords, lattice, cartesian, n, atoms[j], prior) == Position(lattice, cartesian, coords[j])
  {
    if n - 1 != j {
      assert atoms[n - 1] != atoms[j];
      PlacedAtLastPair(atoms, coords, lattice, cartesian, n - 1, j, prior);
    }
  }

  /** An atom with no pair among the first `n` stays where it was. */
  lemma {:induction false} PlacedWithoutPair(atoms: seq<StructureAtom>, coords: seq<Vec3>, lattice: Option<Lattice>, cartesian: bool,
                                             n: nat, j: nat, prior: Vec3)
    requires j < |atoms| && n <= |atoms| && n <= |coords| && (!cartesian && n > 0 ==> lattice.Some?)
    requires NotAmongFirst(atoms, j, n)
    ensures Placed(atoms, coords, lattice, cartesian, n, atoms[j], prior) == prior
  {
    if n > 0 {
      assert atoms[n - 1] != atoms[j];
      PlacedWithoutPair(atoms, coords, lattice, cartesian, n - 1, j, prior);
    }
  }

  /** The constructor's loop over `zip(atoms, coords)`: it stops at the
      shorter of the two. The atoms are taken to be the caller's basis
      atoms, moved in place (`Atoms(atoms=basis)` is assumed to keep them).
      An atom listed twice keeps the position of its last pair. */
  method PlaceBasis(atoms: seq<StructureAtom>, coords: seq<Vec3>, lattice: Option<Lattice>, cartesian: bool)
    requires !cartesian && Min(|atoms|, |coords|) > 0 ==> lattice.Some?
    modifies set a | a in atoms
    ensures forall j :: 0 <= j < |atoms| ==>
      atoms[j].r == Placed(atoms, coords, lattice, cartesian, Min(|atoms|, |coords|), atoms[j], old(atoms[j].r))
    ensures forall a :: a in atoms ==> a.element == old(a.element)
  {
    var n := Min(|atoms|, |coords|);
    for i := 0 to n
      invariant forall j :: 0 <= j < |atoms| ==>
        atoms[j].r == Placed(atoms, coords, lattice, cartesian, i, atoms[j], old(atoms[j].r))
      invariant forall a :: a in atoms ==> a.element == old(a.element)
    {
      atoms[i].r := Position(lattice, cartesian, coords[i]);
    }
  }

  /** A crystal structure: its own attributes (underscore names only, one
      of them `_atoms`, the collection every other name is routed to). */
  class CrystalStructure {
    var own: map<string, Value>

    ghost predicate Valid()
      reads this
    {
      forall k :: k in own ==> IsPrivate(k)
    }

    /** The collection held as `_atoms`, if it holds one. */
    function Target(): Option<StructureAtoms>
      reads this
    {
      if "_atoms" in own && own["_atoms"].CollectionValue? then Some(own["_atoms"].collection) else None
    }

    function TargetFrame(): set<object>
      reads this
    {
      if Target().Some? then {Target().value} else {}
    }

    function TargetAttrs(): Option<map<string, Value>>
      reads this, TargetFrame()
    {
      if Target().Some? then Some(Target().value.attrs) else None
    }

    /** `CrystalStructure(lattice, basis, coords, cartesian)`. With a basis
        the collection holds the basis atoms, and the first
        `min(len(basis), len(coords))` of them are moved to their
        coordinates; without one the collection is empty and `coords` is
        ignored. The `lattice`, `basis` and `fmtstr` assignments are routed
        to the collection, past the structure's own property setters. */
    constructor (lattice: Option<Lattice>, basis: Option<seq<StructureAtom>>, coords: Option<seq<Vec3>>, cartesian: bool)
      requires basis.Some? && coords.Some? && !cartesian && Min(|basis.value|, |coords.value|) > 0 ==> lattice.Some?
      modifies if basis.Some? then set a | a in basis.value else {}
      ensures Valid() && own.Keys == {"_atoms"}
      ensures Target().Some? && fresh(Target().value)
      ensures Target().value.members == if basis.Some? then basis.value else []
      ensures Target().value.attrs == map["lattice" := LatticeArg(lattice), "basis" := BasisArg(basis), "fmtstr" := Text(FmtStr)]
      ensures basis.Some? && coords.Some? ==>
        var b, n := basis.value, Min(|basis.value|, |coords.value|);
        forall j :: 0 <= j < |b| ==> b[j].r == Placed(b, coords.value, lattice, cartesian, n, b[j], old(b[j].r))
      ensures basis.Some? && coords.None? ==> forall a :: a in basis.value ==> a.r == old(a.r)
    {
      var members := if basis.Some? then basis.value else [];
      if basis.Some? && coords.Some? {
        PlaceBasis(basis.value, coords.value, lattice, cartesian);
      }
      var atoms := new StructureAtoms(members);
      own := map[];
      new;
      AssignArguments(atoms, lattice, basis);
    }

    /** The four assignments that end the constructor, each through
        `__setattr__`: `_atoms` onto the structure, the other three onto the
        collection it holds. */
    method AssignArguments(atoms: StructureAtoms, lattice: Option<Lattice>, basis: Option<seq<StructureAtom>>)
      requires own == map[]
      modifies this, atoms
      ensures Valid() && own == map["_atoms" := CollectionValue(atoms)]
      ensures atoms.members == old(atoms.members)
      ensures atoms.attrs == old(atoms.attrs)["lattice" := LatticeArg(lattice)]["basis" := BasisArg(basis)]["fmtstr" := Text(FmtStr)]
    {
      var _ := SetAttr("_atoms", CollectionValue(atoms));
      var _ := SetAttr("lattice", LatticeArg(lattice));
      var _ := SetAttr("basis", BasisArg(basis));
      var _ := SetAttr("fmtstr", Text(FmtStr));
    }

    /** `getattr(structure, name)`. On a valid structure every name the
        class does not define itself is served by the atoms collection. */
    function GetAttr(name: string): (r: Result<Value>)
      reads this, TargetFrame()
      ensures Valid() && !IsPrivate(name) && name !in StructureProperties && name !in ClassFunctions ==>
        r == Forward(TargetAttrs(), name)
    {
      Lookup(own, TargetAttrs(), name)
    }

    /** `__setattr__`: an underscore name is stored on the structure; any
        other name is set on the `_atoms` collection, failing when there is
        none. */
    method SetAttr(name: string, value: Value) returns (err: Option<PyError>)
      requires Valid()
      modifies this, TargetFrame()
      ensures Valid()
      ensures IsPrivate(name) ==> own == old(own)[name := value] && err.None? && unchanged(old(TargetFrame()))
      ensures !IsPrivate(name) ==> own == old(own)
      ensures !IsPrivate(name) && old(Target()).Some? ==>
        && Target().value.attrs == old(Target().value.attrs)[name := value]
        && Target().value.members == old(Target().value.members)
        && err.None?
      ensures !IsPrivate(name) && old(Target()).None? ==> err == Some(AttributeError)
      ensures IsPrivate(name) ==> GetAttr(name) == Ok(value)
      ensures !IsPrivate(name) && name !in StructureProperties && name !in ClassFunctions && err.None? ==>
        GetAttr(name) == Ok(value)
    {
      if IsPrivate(name) {
        own := own[name := value];
        err := None;
      } else {
        var t := Target();
        if t.Some? {
          t.value.attrs := t.value.attrs[name := value];
          err := None;
        } else {
          err := Some(AttributeError);
        }
      }
    }

    /** `__delattr__`: an underscore name is removed from the structure,
        any other from the `_atoms` collection; a missing attribute (or a
        missing collection) raises AttributeError. */
    method DelAttr(name: string) returns (err: Option<PyError>)
      requires Valid()
      modifies this, TargetFrame()
      ensures Valid()
      ensures IsPrivate(name) ==> unchanged(old(TargetFrame()))
      ensures IsPrivate(name) && name in old(own) ==> own == old(own) - {name} && err.None?
      ensures IsPrivate(name) && name !in old(own) ==> own == old(own) && err == Some(AttributeError)
      ensures !IsPrivate(name) ==> own == old(own)
      ensures !IsPrivate(name) && old(TargetAttrs()).Some? && name in old(TargetAttrs()).value ==>
        && Target().value.attrs == old(Target().value.attrs) - {name}
        && Target().value.members == old(Target().value.members)
        && err.None?
      ensures !IsPrivate(name) && (old(TargetAttrs()).None? || name !in old(TargetAttrs()).value) ==>
        unchanged(old(TargetFrame())) && err == Some(AttributeError)
    {
      if IsPrivate(name) {
        if name in own {
          own := own - {name};
          err := None;
        } else {
          err := Some(AttributeError);
        }
      } else {
        var t := Target();
        if t.Some? && name in t.value.attrs {
          t.value.attrs := t.value.attrs - {name};
          err := None;
        } else {
          err := Some(AttributeError);
        }
      }
    }

    /** `todict`: the structure's `lattice` and `basis`, as `getattr`
        reads them. */
    function ToDictionary(): (r: Result<map<string, Value>>)
      reads this, TargetFrame()
      ensures r.Ok? <==> GetAttr("lattice").Ok? && GetAttr("basis").Ok?
      ensures r.Ok? ==> r.value == map["lattice" := GetAttr("lattice").value, "basis" := GetAttr("basis").value]
    {
      ToDict(own, TargetAttrs())
    }
  }

  /** The lattice a named structure asks for, by its parameters. */
  datatype LatticeSpec = Cubic(a: real) | Hexagonal(a: real, c: real)

  /** One call to the external structure library: the space-group
      constructor when `spacegroup` is given, the plain one otherwise. */
  datatype ExternalCall = ExternalCall(spacegroup: Option<int>, lattice: LatticeSpec, species: seq<PyObj>, coords: PyObj)

  /** What a build asks of the external library: the calls in the order
      made (the structure of the last one is kept), and whether
      `make_supercell` is applied to it. */
  datatype Build = Build(calls: seq<ExternalCall>, supercell: bool)

  /** The supercell gate shared by `from_spacegroup`, DiamondStructure and
      AlphaQuartz: `scaling_matrix` is not None and is an int, float,
      tuple, list or ndarray. */
  predicate SupercellApplies(scaling: PyObj)
    ensures SupercellApplies(scaling) <==> scaling != PyNone && !scaling.PyStr?
  {
    IsNumber(scaling) || scaling.PyTuple? || scaling.PyList? || scaling.PyArray?
  }

  /** `if not isinstance(basis, list): basis = [basis]`. */
  function NormalizeBasis(basis: PyObj): seq<PyObj> {
    if basis.PyList? then basis.items else [basis]
  }

  /** A flat, non-empty list of numbers given where a list of rows is
      expected. */
  predicate FlatCoords(coords: PyObj) {
    coords.PyList? && |coords.items| > 0 && IsNumber(coords.items[0])
  }

  /** The external calls `CrystalStructure.from_spacegroup` makes. When the
      basis and coordinate counts differ and `coords` is a flat list of
      numbers, `coords` is wrapped into one row and the method calls itself
      with the wrapped arguments; that call's structure is discarded, then
      the outer call proceeds with the same arguments. `len(coords)` of an
      unsized value raises TypeError. */
  function SpacegroupCalls(sg: int, lattice: LatticeSpec, basis: PyObj, coords: PyObj): (calls: Result<seq<ExternalCall>>)
    decreases if FlatCoords(coords) then 1 else 0
    ensures calls.Err? <==> Len(coords).Err?
    ensures calls.Ok? ==>
      var wrapped := |NormalizeBasis(basis)| != Len(coords).value && FlatCoords(coords);
      && |calls.value| == (if wrapped then 2 else 1)
      && forall i :: 0 <= i < |calls.value| ==>
           calls.value[i] == ExternalCall(Some(sg), lattice, NormalizeBasis(basis), if wrapped then PyList([coords]) else coords)
  {
    var b := NormalizeBasis(basis);
    var n :- Len(coords);
    if |b| != n && FlatCoords(coords) then
      var rows := PyList([coords]);
      var inner := SpacegroupCalls(sg, lattice, PyList(b), rows).value;
      Ok(inner + [ExternalCall(Some(sg), lattice, b, rows)])
    else
      Ok([ExternalCall(Some(sg), lattice, b, coords)])
  }

  /** `CrystalStructure.from_spacegroup`, as the calls it makes and the
      supercell decision. */
  function FromSpacegroup(sg: int, lattice: LatticeSpec, basis: PyObj, coords: PyObj, scaling: PyObj): (b: Result<Build>)
    ensures b.Ok? <==> Len(coords).Ok?
    ensures b.Ok? ==> b.value.supercell == SupercellApplies(scaling)
    ensures b.Ok? ==> b.value.calls == SpacegroupCalls(sg, lattice, basis, coords).value
  {
    var calls :- SpacegroupCalls(sg, lattice, basis, coords);
    Ok(Build(calls, SupercellApplies(scaling)))
  }

  /** `[s] * n`. */
  function Repeat(s: string, n: nat): (r: seq<string>)
    ensures |r| == n
    ensures forall i :: 0 <= i < n ==> r[i] == s
  {
    if n == 0 then [] else Repeat(s, n - 1) + [s]
  }

  function Species(symbols: seq<string>): (r: seq<PyObj>)
    ensures |r| == |symbols|
    ensures forall i :: 0 <= i < |symbols| ==> r[i] == PyStr(symbols[i])
  {
    seq(|symbols|, i requires 0 <= i < |symbols| => PyStr(symbols[i]))
  }

  /** A table of numbers as the nested Python lists passed on. */
  function Rows(rows: seq<seq<real>>): (r: PyObj)
    ensures r.PyList? && |r.items| == |rows|
    ensures forall i :: 0 <= i < |rows| ==>
      r.items[i].PyList? && |r.items[i].items| == |rows[i]| &&
      forall j :: 0 <= j < |rows[i]| ==> r.items[i].items[j] == PyFloat(rows[i][j])
  {
    PyList(seq(|rows|, i requires 0 <= i < |rows| =>
      PyList(seq(|rows[i]|, j requires 0 <= j < |rows[i]| => PyFloat(rows[i][j])))))
  }

  /** `[[0, 0, 0]]`: one row of integer zeros. */
  const OriginRows: PyObj := PyList([PyList([PyInt(0), PyInt(0), PyInt(0)])])

  /** The default lattice parameters of the named structures. */
  const DiamondA: real := 3.567
  const GoldA: real := 4.078
  const CopperA: real := 3.615
  const QuartzA: real := 4.916
  const QuartzC: real := 5.405

  /** DiamondStructure: space group 227 on a cubic lattice, one carbon at
      the origin, passed to the external library directly. */
  function Diamond(a: real := DiamondA, scaling: PyObj := PyNone): (b: Build)
    ensures |b.calls| == 1
    ensures b.calls[0].spacegroup == Some(227) && b.calls[0].lattice == Cubic(a)
    ensures b.calls[0].species == [PyStr("C")] && b.calls[0].coords == OriginRows
    ensures b.supercell <==> scaling != PyNone && !scaling.PyStr?
  {
    Build([ExternalCall(Some(227), Cubic(a), Species(["C"]), OriginRows)], SupercellApplies(scaling))
  }

  /** `FCCStructure.from_spacegroup`: a cubic lattice of side `a`. */
  function FccFromSpacegroup(sg: int, a: real, basis: PyObj, coords: PyObj, scaling: PyObj): (b: Result<Build>)
    ensures b.Ok? <==> Len(coords).Ok?
    ensures b.Ok? ==> forall call :: call in b.value.calls ==> call.lattice == Cubic(a) && call.spacegroup == Some(sg)
  {
    FromSpacegroup(sg, Cubic(a), basis, coords, scaling)
  }

  /** `HexagonalStructure.from_spacegroup`: a hexagonal lattice `a`, `c`. */
  function HexagonalFromSpacegroup(sg: int, a: real, c: real, basis: PyObj, coords: PyObj, scaling: PyObj): (b: Result<Build>)
    ensures b.Ok? <==> Len(coords).Ok?
    ensures b.Ok? ==> forall call :: call in b.value.calls ==> call.lattice == Hexagonal(a, c) && call.spacegroup == Some(sg)
  {
    FromSpacegroup(sg, Hexagonal(a, c), basis, coords, scaling)
  }

  /** Gold and Copper: space group 225 on a cubic lattice, one atom at the
      origin; the one-element basis and one-row coordinates are already
      balanced, so exactly one external call is made. */
  function FccMetal(symbol: string, a: real, scaling: PyObj): (b: Result<Build>)
    ensures b.Ok? && b.value.calls == [ExternalCall(Some(225), Cubic(a), [PyStr(symbol)], OriginRows)]
    ensures b.value.supercell <==> SupercellApplies(scaling)
  {
    FccFromSpacegroup(225, a, PyList([PyStr(symbol)]), OriginRows, scaling)
  }

  function Gold(a: real := GoldA, scaling: PyObj := PyNone): Result<Build> {
    FccMetal("Au", a, scaling)
  }

  function Copper(a: real := CopperA, scaling: PyObj := PyNone): Result<Build> {
    FccMetal("Cu", a, scaling)
  }

  /** The alpha-quartz basis: three silicon atoms, then six oxygen. */
  const QuartzSpecies: seq<string> := Repeat("Si", 3) + Repeat("O", 6)

  /** The alpha-quartz fractional coordinate table as the source lists
      it, one row per basis atom. */
  const QuartzCoordsAsWritten: seq<seq<real>> := QuartzSiliconAsWritten + QuartzOxygen

  /** Its three silicon rows. */
  const QuartzSiliconAsWritten: seq<seq<real>> := [
    [0.4697, 0.0000, 0.0000],
    [0.0000, 0.4697, 0.6667],
    [0.5305, 0.5303, 0.3333]]

  /** The six oxygen rows, which both tables share. */
  const QuartzOxygen: seq<seq<real>> := [
    [0.4133, 0.2672, 0.1188],
    [0.2672, 0.4133, 0.5479],
    [0.7328, 0.1461, 0.7855],
    [0.5867, 0.8539, 0.2145],
    [0.8539, 0.5867, 0.4521],
    [0.1461, 0.7328, 0.8812]]

  /** The same table with the third silicon row at the image of the first
      under the threefold screw axis. */
  const QuartzCoords: seq<seq<real>> := QuartzSilicon + QuartzOxygen

  /** The corrected silicon rows. */
  const QuartzSilicon: seq<seq<real>> := [
    [0.4697, 0.0000, 0.0000],
    [0.0000, 0.4697, 0.6667],
    [0.5303, 0.5303, 0.3333]]

  /** A fractional coordinate in (-1, 2), brought back into [0, 1). */
  function Wrap(v: real): (w: real)
    ensures w == v || w == v + 1.0 || w == v - 1.0
  {
    if v < 0.0 then v + 1.0 else if v >= 1.0 then v - 1.0 else v
  }

  /** The six operations the alpha-quartz table follows: the identity, the
      threefold screw axis (a third of a turn with a rise of 2/3) and its
      square, and the three twofold axes, with the thirds written to four
      decimals as in the table. */
  function SymOp(k: nat, p: seq<real>): (q: seq<real>)
    requires k < 6 && |p| == 3
    ensures |q| == 3
  {
    var x, y, z := p[0], p[1], p[2];
    var image :=
      if k == 0 then [x, y, z]
      else if k == 1 then [-y, x - y, z + 0.6667]
      else if k == 2 then [y - x, -x, z + 0.3333]
      else if k == 3 then [y, x, 0.6667 - z]
      else if k == 4 then [-x, y - x, 0.3333 - z]
      else [x - y, -y, -z];
    [Wrap(image[0]), Wrap(image[1]), Wrap(image[2])]
  }

  /** For each row: the generating row (the first silicon or the first
      oxygen) and the operation that maps it there. */
  const QuartzOrbit: seq<(nat, nat)> := [(0, 0), (0, 1), (0, 2), (3, 0), (3, 3), (3, 1), (3, 4), (3, 2), (3, 5)]

  /** Row `i` of `table` is the image of its generating row. */
  predicate OrbitRow(table: seq<seq<real>>, i: nat)
    requires |table| == 9 && forall j :: 0 <= j < 9 ==> |table[j]| == 3
    requires i < 9
  {
    table[i] == SymOp(QuartzOrbit[i].1, table[QuartzOrbit[i].0])
  }

  /** Each oxygen row is an image of the first under one of the six
      operations, whatever the silicon rows before them. */
  lemma OxygenOrbits(silicon: seq<seq<real>>)
    requires |silicon| == 3 && forall j :: 0 <= j < 3 ==> |silicon[j]| == 3
    ensures forall i :: 3 <= i < 9 ==> OrbitRow(silicon + QuartzOxygen, i)
  {
    var o := QuartzOxygen;
    assert o[0] == SymOp(0, o[0]) && o[1] == SymOp(3, o[0]) && o[2] == SymOp(1, o[0]);
    assert o[3] == SymOp(4, o[0]) && o[4] == SymOp(2, o[0]) && o[5] == SymOp(5, o[0]);
  }

  /** The corrected silicon rows are the first one and its two images
      under the screw axis. */
  lemma SiliconOrbits()
    ensures QuartzSilicon[0] == SymOp(0, QuartzSilicon[0])
    ensures QuartzSilicon[1] == SymOp(1, QuartzSilicon[0])
    ensures QuartzSilicon[2] == SymOp(2, QuartzSilicon[0])
  {
  }

  /** As written, the third silicon row is not the image of the first under
      the screw axis (its x is 0.5305 where the image has 0.5303), while
      every other row is the image of its generator. */
  lemma QuartzAsWrittenBreaksSymmetry()
    ensures !OrbitRow(QuartzCoordsAsWritten, 2)
    ensures SymOp(2, QuartzCoordsAsWritten[0]) == [0.5303, 0.5303, 0.3333]
    ensures forall i :: 0 <= i < 9 && i != 2 ==> OrbitRow(QuartzCoordsAsWritten, i)
  {
    var si, t := QuartzSiliconAsWritten, QuartzCoordsAsWritten;
    OxygenOrbits(si);
    assert t[0] == si[0] && t[1] == si[1] && t[2] == si[2];
    assert SymOp(2, si[0])[0] == 0.5303 != si[2][0];
    assert si[0] == SymOp(0, si[0]) && si[1] == SymOp(1, si[0]);
  }

  /** The corrected table is exactly the three images of the first silicon
      and the six images of the first oxygen. */
  lemma QuartzCoordsAreOrbits()
    ensures forall i :: 0 <= i < 9 ==> OrbitRow(QuartzCoords, i)
  {
    var t := QuartzCoords;
    OxygenOrbits(QuartzSilicon);
    SiliconOrbits();
    assert t[0] == QuartzSilicon[0] && t[1] == QuartzSilicon[1] && t[2] == QuartzSilicon[2];
  }

  /** AlphaQuartz: the plain external constructor on a hexagonal lattice,
      with nine basis atoms (3 Si, then 6 O) and the coordinate table as
      listed, one three-component row per atom. */
  function AlphaQuartz(a: real := QuartzA, c: real := QuartzC, scaling: PyObj := PyNone): (b: Build)
    ensures |b.calls| == 1 && b.calls[0].spacegroup.None? && b.calls[0].lattice == Hexagonal(a, c)
    ensures |b.calls[0].species| == 9
    ensures forall i :: 0 <= i < 9 ==> b.calls[0].species[i] == PyStr(if i < 3 then "Si" else "O")
    ensures b.calls[0].coords.PyList? && |b.calls[0].coords.items| == 9
    ensures forall i :: 0 <= i < 9 ==>
      b.calls[0].coords.items[i].PyList? && |b.calls[0].coords.items[i].items| == 3 &&
      forall j :: 0 <= j < 3 ==> b.calls[0].coords.items[i].items[j] == PyFloat(QuartzCoordsAsWritten[i][j])
    ensures b.calls[0].coords.items[2].items[0] == PyFloat(0.5305)
    ensures b.supercell <==> SupercellApplies(scaling)
  {
    QuartzBuild(a, c, QuartzCoordsAsWritten, scaling)
  }

  /** AlphaQuartz with the corrected table, whose rows are the orbits
      `QuartzCoordsAreOrbits` proves; it differs from the listed build only
      in the third silicon row's x. */
  function AlphaQuartzIntended(a: real := QuartzA, c: real := QuartzC, scaling: PyObj := PyNone): (b: Build)
    ensures |b.calls| == 1 && b.supercell == AlphaQuartz(a, c, scaling).supercell
    ensures b.calls[0] == AlphaQuartz(a, c, scaling).calls[0].(coords := Rows(QuartzCoords))
    ensures b.calls[0].coords.items[2].items[0] == PyFloat(0.5303)
  {
    QuartzBuild(a, c, QuartzCoords, scaling)
  }

  function QuartzBuild(a: real, c: real, coords: seq<seq<real>>, scaling: PyObj): Build {
    Build([ExternalCall(None, Hexagonal(a, c), Species(QuartzSpecies), Rows(coords))], SupercellApplies(scaling))
  }
}
