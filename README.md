# scikit-nano core, modelled in Dafny

This project models four pieces of scikit-nano, a Python toolkit for
building nanostructure and crystal-structure data, and proves what they
promise.

- **Lattice atoms** (`lattice_atoms.dfy`, module `CoreAtoms`). A
  `LatticeAtom` stores only its Cartesian position `r` and a lattice. The
  fractional coordinates `rs`, `xs`, `ys` and `zs` are recomputed from `r`
  on every read, and every fractional write overwrites `r` at once. The
  lattice is a pair of coordinate transforms (`toFrac`, `toCart`). The
  inverse law between them is a hypothesis (`Invertible`) of the
  set-then-get properties. `LatticeAtoms` adds the "first atom's lattice"
  getter, a setter that gives every atom the lattice, and the coordinate
  columns.
- **Crystal structures** (`structures.dfy`, module `CrystalStructures`).
  - The constructor moves basis atoms to their coordinates (a `zip`, so it
    stops at the shorter list).
  - Attribute routing keeps underscore names on the structure and sends
    every other name to its atoms collection. Reads fall back to the
    collection too.
  - `from_spacegroup` normalises its arguments. Several constructors share
    the same supercell gate.
  - The named structures (Diamond, Gold, Copper, alpha quartz) have fixed
    parameters.
  - The external structure library appears only as the record of the
    calls made to it.
- **Structure data** (`structure_data.dfy`, module `StructureIO`).
  - The record shared by structure readers and writers: atoms, comment
    line, file name (settable and deletable) and an insertion-ordered
    property map.
  - The abstract reader, writer, converter and format, and the format
    constants.
  - The structure-data exceptions, whose subclasses print `repr(msg)`. A
    Python 3 `repr` of a Latin-1 string is modelled, with a decoder proved to
    invert it.
- **Packaging** (`setup.dfy`, module `Packaging`).
  - The version string, and the `.dev-` suffix built from the git revision.
  - Where the revision comes from: git, then the stored version file, then
    "Unknown".
  - The minimal environment used to run git.
  - The generated version file, and how a later source build reads the
    revision back from it.
  - The classifier filter and the interpreter version check.

`pyvalues.dfy` (module `PyValues`) holds the small universe of Python
values, the `isinstance` and `len` tests the code makes, and the
exceptions it raises, as a `Result` datatype.

Objects the source updates in place are Dafny classes whose methods state
their whole new state: `LatticeAtom`, `LatticeAtoms`, `CrystalStructure`,
`StructureData` and `OrderedDict`. Pure computations are functions with
lemmas about them.

## Model

| member | source | states |
|---|---|---|
| CoreAtoms.WithComponent | sknano/core/atoms/_lattice_atoms.py:88-89 | assigning one component of the fractional vector sets that component and keeps the other two |
| CoreAtoms.ToVec3 | sknano/core/atoms/_lattice_atoms.py:176 | a list or array makes a vector exactly when it holds three numbers, and the vector's components are those numbers |
| CoreAtoms.SetComponent | sknano/core/atoms/_lattice_atoms.py:86-90 | a non-number raises TypeError("Expected a number") before anything else; with no lattice the write-back raises AttributeError; otherwise, under the inverse law, the new position reads back with that axis set to the value and the other two axes unchanged |
| CoreAtoms.SetFractional | sknano/core/atoms/_lattice_atoms.py:174-180 | anything but a list or ndarray raises TypeError("Expected an array_like object"); success exactly for three numbers with a lattice; under the inverse law the new position reads back as the given vector |
| CoreAtoms.LatticeAtom.constructor | sknano/core/atoms/_lattice_atoms.py:37-46 | stores the lattice, then writes `rs`; with no lattice the AttributeError is swallowed and `r` is kept; with an invertible lattice `rs` reads back as (xs, ys, zs) |
| CoreAtoms.LatticeAtom.Rs | sknano/core/atoms/_lattice_atoms.py:148-161 | with no lattice `rs` is the zero vector instead of an error; with an invertible lattice it maps back to `r` |
| CoreAtoms.LatticeAtom.Fractional | sknano/core/atoms/_lattice_atoms.py:64-74 | `xs`/`ys`/`zs` is zero with no lattice, else that component of `toFrac(r)` |
| CoreAtoms.LatticeAtom.Equals | sknano/core/atoms/_lattice_atoms.py:51-52 | equal atoms have equal fractional coordinates; on a shared invertible lattice, equality holds exactly when positions and elements are equal; with no lattices, exactly when elements are equal |
| CoreAtoms.LatticeAtom.SetFractionalComponent | sknano/core/atoms/_lattice_atoms.py:76-146 | the `xs`/`ys`/`zs` setters: on error nothing changes and the exception is reported; on success `r` is the written-back position, the read-back axis holds the value and the other axes keep their old values |
| CoreAtoms.LatticeAtom.SetRs | sknano/core/atoms/_lattice_atoms.py:163-177 | the `rs` setter: on error `r` is unchanged; on success `rs` reads back as the value given |
| CoreAtoms.LatticeAtom.SetLattice | sknano/core/atoms/_lattice_atoms.py:187-189 | replacing the lattice keeps `r`; only later `rs` reads change, to `toFrac` of the old `r` under the new lattice |
| CoreAtoms.LatticeAtoms.GetLattice | sknano/core/atoms/_lattice_atoms.py:273-278 | the first atom's lattice, or None (the caught IndexError) when empty |
| CoreAtoms.LatticeAtoms.SetLattice | sknano/core/atoms/_lattice_atoms.py:280-282 | every atom gets the lattice, no position or element changes, and the getter then returns it |
| CoreAtoms.LatticeAtoms.Rs | sknano/core/atoms/_lattice_atoms.py:252-256 | one fractional vector per atom, in collection order |
| CoreAtoms.LatticeAtoms.Column | sknano/core/atoms/_lattice_atoms.py:258-271 | `xs`/`ys`/`zs` are column 0/1/2 of `rs`, one entry per atom in order; on an empty collection the column index raises IndexError |
| CrystalStructures.Forward | sknano/core/crystallography/_structures.py:86-88 | a lookup on the atoms collection succeeds exactly when it has the attribute, and otherwise raises AttributeError |
| CrystalStructures.Lookup | sknano/core/crystallography/_structures.py:63-139 | the properties come first (`atoms` gives `_atoms` or None, `unit_cell` None, `lattice`/`basis` read `_lattice`/`_basis`, else forward that name, else forward the property's own name); then the structure's own attributes; then the functions the class defines (`todict`, `from_spacegroup`, ...); every other name is forwarded to the atoms collection, except a missing `_atoms`, which gives None; lookup errors are AttributeError |
| CrystalStructures.CrystalStructure.ToDictionary | sknano/core/crystallography/_structures.py:137-139 | `todict` on a structure succeeds exactly when `getattr` can read both `lattice` and `basis`, and is then the dictionary of those two values |
| CrystalStructures.ToDict | sknano/core/crystallography/_structures.py:137-139 | `todict` succeeds exactly when both attributes can be read, and then has exactly the keys `lattice` and `basis`, holding what reading them gives |
| CrystalStructures.ConstructedLookups | sknano/core/crystallography/_structures.py:54-84 | after construction `lattice` and `basis` read back as the raw arguments, because they were routed to the collection past the structure's own property setters, and `todict` holds them |
| CrystalStructures.PlaceBasis | sknano/core/crystallography/_structures.py:46-52 | the loop over `zip(basis, coords)`: every basis atom ends where `Placed` puts it after the first min(len(basis), len(coords)) pairs, and no element changes |
| CrystalStructures.PlacedAtLastPair | sknano/core/crystallography/_structures.py:49-52 | an atom whose last pair among the first n is pair j ends at coords[j], through `fractional_to_cartesian` unless Cartesian (an atom listed twice keeps its last position) |
| CrystalStructures.PlacedWithoutPair | sknano/core/crystallography/_structures.py:49-52 | an atom with no pair among the first n, such as one past the end of `coords`, keeps its position |
| CrystalStructures.CrystalStructure.constructor | sknano/core/crystallography/_structures.py:40-57 | the structure holds only `_atoms`; the collection holds the basis atoms (none without a basis, ignoring `coords`) and receives the `lattice`, `basis` and `fmtstr` assignments; basis atoms are placed as `PlaceBasis` states, and without `coords` none moves |
| CrystalStructures.CrystalStructure.GetAttr | sknano/core/crystallography/_structures.py:86-88 | on a valid structure (own attributes all underscore names), every public name that is neither a property nor a function of the class is served by the atoms collection |
| CrystalStructures.CrystalStructure.AssignArguments | sknano/core/crystallography/_structures.py:54-57 | the four closing assignments, each through `__setattr__`: the structure then holds only `_atoms`, and the collection gains `lattice`, `basis` and `fmtstr` with its members kept |
| CrystalStructures.CrystalStructure.SetAttr | sknano/core/crystallography/_structures.py:90-94 | an underscore name is stored on the structure and nothing else changes; any other name is set on the atoms collection, members kept, or raises AttributeError when there is no collection; a set underscore name, or a set public name the class does not define, then reads back as the value |
| CrystalStructures.CrystalStructure.DelAttr | sknano/core/crystallography/_structures.py:96-100 | an underscore name is removed from the structure, any other from the collection; a missing attribute raises AttributeError and changes nothing |
| CrystalStructures.SupercellApplies | sknano/core/crystallography/_structures.py:130-133 | the supercell is applied exactly when `scaling_matrix` is not None and not a string, i.e. is an int, float, tuple, list or ndarray (the same gate as lines 173-176 and 226-229) |
| CrystalStructures.SpacegroupCalls | sknano/core/crystallography/_structures.py:117-129 | a non-list basis is wrapped in a list; `len` of an unsized `coords` raises TypeError; when lengths differ and `coords` is a flat list of numbers it is wrapped once, the discarded recursive call makes one extra identical call, and otherwise exactly one call is made |
| CrystalStructures.FromSpacegroup | sknano/core/crystallography/_structures.py:116-135 | `from_spacegroup` makes the calls above and applies the supercell exactly when the gate allows it |
| CrystalStructures.Repeat | sknano/core/crystallography/_structures.py:211-212 | `n * [s]` has n entries, all equal to s |
| CrystalStructures.Diamond | sknano/core/crystallography/_structures.py:167-178 | one space-group-227 call on a cubic lattice of side `a` (by default 3.567), one carbon at the integer origin row, and the supercell gate |
| CrystalStructures.FccFromSpacegroup | sknano/core/crystallography/_structures.py:200-205 | every call uses the cubic lattice of side `a` and the given space group; failure exactly when `len(coords)` fails |
| CrystalStructures.HexagonalFromSpacegroup | sknano/core/crystallography/_structures.py:191-197 | every call uses the hexagonal lattice (a, c) and the given space group; failure exactly when `len(coords)` fails |
| CrystalStructures.FccMetal | sknano/core/crystallography/_structures.py:242-254 | Gold and Copper (sides 4.078 and 3.615 by default): a single space-group-225 call on a cubic lattice with one atom at the origin (the balanced basis never triggers the wrapped recursive call), and the supercell gate |
| CrystalStructures.OxygenOrbits | sknano/core/crystallography/_structures.py:217-222 | each of the six oxygen rows is the image of the first oxygen row under one of the six operations |
| CrystalStructures.SiliconOrbits | sknano/core/crystallography/_structures.py:214-216 | the corrected silicon rows are the first row and its two screw-axis images |
| CrystalStructures.QuartzAsWrittenBreaksSymmetry | sknano/core/crystallography/_structures.py:214-222 | the listed table's third silicon row is not the screw-axis image of the first, which is [0.5303, 0.5303, 0.3333]; every other row is the image of its generating row |
| CrystalStructures.QuartzCoordsAreOrbits | sknano/core/crystallography/_structures.py:214-222 | the corrected table is exactly the three images of the first silicon row and the six images of the first oxygen row |
| CrystalStructures.AlphaQuartz | sknano/core/crystallography/_structures.py:208-231 | one plain (no space group) call on the hexagonal lattice (a, c), by default (4.916, 5.405), with nine species, 3 Si then 6 O, and the coordinate table as listed (third row x = 0.5305), one three-component row per species; and the supercell gate |
| CrystalStructures.AlphaQuartzIntended | sknano/core/crystallography/_structures.py:214-225 | the same call with the corrected table, which differs only in the third row's x (0.5303) |
| StructureIO.FormatConstants | sknano/structure_io/_structure_data.py:19-22 | the default format `xyz` is among the supported formats, and the default comment line names version 0.2.11 |
| StructureIO.OrderedDict.Get | sknano/structure_io/_structure_data.py:105-108 | reading a property succeeds exactly for a present key and gives its value; otherwise KeyError |
| StructureIO.OrderedDict.Set | sknano/structure_io/_structure_data.py:105-108 | a new key goes last, an existing key keeps its place and takes the new value; keys stay distinct and match the map |
| StructureIO.OrderedDict.Delete | sknano/structure_io/_structure_data.py:105-108 | deleting removes the key from the map and from the order, the other keys keeping their order; a missing key raises KeyError and changes nothing |
| StructureIO.WithoutAt | sknano/structure_io/_structure_data.py:105-108 | removing a key that occurs once closes the gap: the keys before it, then the keys after it, in order |
| StructureIO.OrderedDict.Len | sknano/structure_io/_structure_data.py:105-108 | the number of keys in order equals the number of entries |
| StructureIO.StructureData.constructor | sknano/structure_io/_structure_data.py:47-51 | a new record has a fresh empty atom collection, the default comment line, the given file name and a fresh empty property map |
| StructureIO.StructureData.AtomsAlias | sknano/structure_io/_structure_data.py:53-61 | `atoms` is the very object `structure_atoms` |
| StructureIO.StructureData.Natoms | sknano/structure_io/_structure_data.py:100-103 | the atom count of that same collection |
| StructureIO.StructureData.Fname | sknano/structure_io/_structure_data.py:79-82 | reading the file name gives the stored value, or AttributeError once it was deleted |
| StructureIO.StructureData.SetCommentLine | sknano/structure_io/_structure_data.py:63-77 | the setter replaces the comment line only |
| StructureIO.StructureData.SetFname | sknano/structure_io/_structure_data.py:84-93 | the setter replaces the file name only, and reading it gives the value |
| StructureIO.StructureData.DeleteFname | sknano/structure_io/_structure_data.py:95-98 | deleting removes the file name, so reading it raises AttributeError; deleting it again raises AttributeError |
| StructureIO.StructureReader.constructor | sknano/structure_io/_structure_data.py:122-123 | a reader is built exactly as structure data with the same file name |
| StructureIO.StructureReader.Read | sknano/structure_io/_structure_data.py:125-129 | `read` returns (does not raise) a NotImplementedError naming `StructureReader` and `read` |
| StructureIO.Write | sknano/structure_io/_structure_data.py:136-140 | `write` returns a NotImplementedError naming `StructureWriter` and `write` |
| StructureIO.StructureConverter.constructor | sknano/structure_io/_structure_data.py:154-166 | `infile` and `outfile` are stored unchanged |
| StructureIO.StructureConverter.Convert | sknano/structure_io/_structure_data.py:168-172 | `convert` returns a NotImplementedError naming `StructureConverter` and `convert` |
| StructureIO.StructureFormat.constructor | sknano/structure_io/_structure_data.py:177-178 | a format starts with a fresh, empty property map |
| StructureIO.QuoteFor | sknano/structure_io/_structure_data.py:211-212 | `repr` uses double quotes exactly when the message holds a single quote and no double quote |
| StructureIO.Escape | sknano/structure_io/_structure_data.py:211-212 | a character is written as itself exactly when it is printable (Python 3's rule on Latin-1: not a control, not U+00A0 or U+00AD) and neither the quote nor a backslash; tab, newline and carriage return get two-character escapes; every other non-printable character becomes `\xNN`, whose two hex digits give its code |
| StructureIO.UnescapeEscapeAll | sknano/structure_io/_structure_data.py:211-212 | decoding the escaped body gives the message back |
| StructureIO.Repr | sknano/structure_io/_structure_data.py:211-212 | `repr(msg)` is quoted by the chosen quote at both ends and reads back as msg |
| StructureIO.Str | sknano/structure_io/_structure_data.py:194-260 | every error is a StructureDataError; the base class prints its message as is; the four subclasses print `repr(msg)`, which reads back as msg |
| Packaging.DecimalString | setup.py:48 | `%d` writes at least one digit, only digits, and no leading zero |
| Packaging.DecimalRoundTrip | setup.py:48 | the digits written read back as the number |
| Packaging.Split | setup.py:140 | `split` gives at least one piece and no piece holds the separator |
| Packaging.SplitJoin | setup.py:140 | splitting joined pieces gives the pieces back when none holds the separator |
| Packaging.JoinSplit | setup.py:140 | joining the split pieces gives the string back |
| Packaging.FormatVersion | setup.py:48 | the version splits on dots into exactly the three decimal fields, and has no line break |
| Packaging.VersionIs | setup.py:44-48 | VERSION is "0.2.11" and its fields read back as MAJOR, MINOR and MICRO |
| Packaging.FullVersion | setup.py:94-95 | FULLVERSION starts with VERSION; when released it is VERSION; otherwise it adds ".dev-" and the first min(7, len) characters of the revision |
| Packaging.LeadingSpaces | setup.py:71 | the count of leading whitespace bytes, followed by a non-space byte or the end |
| Packaging.StripRight | setup.py:71 | the longest prefix not ending in whitespace, all dropped bytes being whitespace |
| Packaging.Strip | setup.py:71 | `strip()` keeps the slice between the leading and the trailing whitespace, and the result neither starts nor ends with whitespace |
| Packaging.DecodeAscii | setup.py:71 | decoding succeeds exactly when every byte is below 128, keeping each byte's code; otherwise UnicodeDecodeError |
| Packaging.GitVersion | setup.py:51-75 | "Unknown" when git cannot be run (OSError); otherwise the stripped output, character for character, failing (uncaught) exactly when it holds a non-ASCII byte |
| Packaging.MinimalEnv | setup.py:53-63 | the environment holds SYSTEMROOT and PATH only when set, with their values, plus LANGUAGE, LANG and LC_ALL set to "C", and nothing else |
| Packaging.AssignedValue | setup.py:89-90 | a line is read as an assignment only when it is exactly `name = '<value>'` |
| Packaging.StoredRevisionRoundTrip | setup.py:100-121 | the version file written for a version, full version and revision with no line break, quote or backslash gives that revision back when read |
| Packaging.LastAssignedIsLast | setup.py:89-90 | scanning the lines finds nothing exactly when no line assigns the name, and otherwise the value of the last line that assigns it, as a later assignment in a module overrides an earlier one |
| Packaging.StoredRevision | setup.py:88-90 | reading the stored version file fails with AttributeError exactly when no line assigns `git_revision`; otherwise the value is the one assigned on the last such line |
| Packaging.Revision | setup.py:83-92 | the revision comes from git when `.git` exists, else from the stored version file, else it is "Unknown" |
| Packaging.GetVersionInfo | setup.py:78-97 | returns (FULLVERSION, GIT_REVISION) built from that revision; with neither `.git` nor a version file it is ("0.2.11.dev-Unknown", "Unknown") |
| Packaging.SdistKeepsVersion | setup.py:83-90 | a source build without `.git`, from the version file a git build wrote, reports the same version information whatever git would now say, for a revision with no line break, quote or backslash |
| Packaging.NonEmpty | setup.py:140 | the filter keeps only non-empty pieces, each taken from the input |
| Packaging.ClassifierLinesAreLines | setup.py:29-42 | every classifier line is non-empty and holds no line break |
| Packaging.ClassifiersAreTheLines | setup.py:140 | the classifiers passed to setup are exactly the eleven classifier lines, in order |
| Packaging.CheckPython | setup.py:26-27 | RuntimeError("Python version 2.7 required.") exactly when (major, minor) is below (2, 7) |

## Left out

- The lattice's linear algebra (`CrystalLattice`, its cell matrix, numpy and floating-point tolerance). A lattice is the pair of transforms, and their inverse law is the hypothesis `Invertible`. The `lattice` argument of the space-group constructors is a `LatticeSpec` (cubic `a`, or hexagonal `a`, `c`).
- The copy the `lattice` setter takes (`copy.copy`). Lattices are values here, which is stronger than the source's shallow copy: a shallow copy still shares the lattice's mutable parts (its matrices) with the caller, so in the source a later in-place change to those parts could reach the atom. The model does not capture that sharing.
- CoreAtoms.LatticeAtom.constructor: takes real `xs`, `ys`, `zs`. The default `None` values are not modelled, because `Vector([None, None, None])`, which decides what they do, is defined outside the modelled files.
- The base `Atom` and `Atoms` classes are not part of this model. An atom is reduced to its element, and `Atom.__eq__` to element equality.
- CoreAtoms.SetFractional: `Vector(value, nd=3)` on a list or array that is not three numbers is reported as ValueError. `Vector` is not modelled here, and it decides the actual exception.
- `LatticeAtom.__lt__`, `__dir__`, `fmtstr`, `todict`, `rotate` and `translate` are left out. They depend on `Atom`, `Vector` and lattice methods that are defined outside the modelled files.
- The structure's atoms collection (`StructureAtoms`) is not part of this model. It is treated as a plain attribute store; its own properties and setters are not modelled. A `_atoms` value that is not a collection makes forwarding fail with AttributeError. The model also assumes that `Atoms(atoms=basis)` keeps the caller's basis atom objects rather than copies, so the constructor's placement loop moves the caller's atoms in place; that collection class is defined outside the modelled files.
- CrystalStructures.CrystalStructure.constructor: its contract does not state what `GetAttr` returns afterwards. `ConstructedLookups` states it on the values instead.
- CrystalStructures.CrystalStructure.constructor: requires a lattice when fractional coordinates are placed. Without one the first pair raises AttributeError from `None.fractional_to_cartesian` before any atom moves, and the constructor's `requires` excludes that failure.
- `__repr__` and `fmtstr` formatting of structures, and the `unit_cell` property (modelled only as a lookup that gives None).
- The external structure library (`pymatgen_structure`, `make_supercell`, `from_pymatgen_structure`, `Structure.from_spacegroup`). Builds are the records of the calls made and the supercell decision. The structure those calls return, and the one built from it, are not computed.
- `HexagonalClosePackedStructure` and `CubicClosePackedStructure` add nothing to `CrystalStructure`. `StructureFormatter.format` only returns None.
- The `sknano.chemistry.Atoms` collection held by structure data is not part of this model. It is reduced to its element list and `Natoms`.
- StructureIO.OrderedDict: string keys only. Other dictionary methods are left out.
- StructureIO.StructureReader.constructor: the reader holds its structure data as a field rather than inheriting from it.
- StructureIO.Str: messages are Latin-1 strings (code points below 256), where Python 3's printability rule depends only on the character. Characters from U+0100 on, whose `repr` depends on the Unicode database, and a base-class exception raised with zero or several arguments, are not modelled.
- StructureIO.Unescape decodes only the escapes `repr` writes.
- Running git, reading `.git` and the version file from disk, writing the version file, and the `setuptools.setup` call are not modelled. They are parameters: a `Checkout` record, and the bytes git printed.
- Packaging.StoredRevision: `imp.load_source` is modelled as a scan for the last line `git_revision = '<value>'`, taking the text between the quotes as it is. Python's decoding of escape sequences and the SyntaxError of a quote inside the literal are not modelled, so `StoredRevisionRoundTrip` and `SdistKeepsVersion` are stated only for values with no line break, quote or backslash (`PlainLiteral`). A version file that is not valid Python is not modelled.
- CrystalStructures.Lookup: the attributes every object inherits from `object` (`__class__`, `__dict__`, `__eq__` and the like) are not modelled; a lookup of one of them is forwarded like any other missing name. A function of the class is answered as `Function(name)`, not as a bound method.
- The GUI layout file, the geometric-region tests and `basis_atoms.py` are not part of this model. They hold no logic of their own beyond generated widget bounds, floating-point volumes, and glue over classes that are not modelled here.

## Findings

| source | as written | input that shows it | evidently intended | confidence | as-written member | corrected member |
|---|---|---|---|---|---|---|
| sknano/core/crystallography/_structures.py:216 | the third silicon row is `[0.5305, 0.5303, 0.3333]` | the first silicon row `[0.4697, 0.0000, 0.0000]` under the screw axis `(y - x, -x, z + 1/3)` lands on `[0.5303, 0.5303, 0.3333]`; the other eight rows are exact images of their generating rows | `[0.5303, 0.5303, 0.3333]` | medium; not executed | CrystalStructures.QuartzAsWrittenBreaksSymmetry | CrystalStructures.QuartzCoordsAreOrbits |
