/** Structure data: the record shared by readers and writers of structure
    files (atoms, comment line, file name, an insertion-ordered property
    map), the abstract reader, writer, converter and format, the format
    constants, and the structure-data exceptions, whose string form is the
    `repr` of their message. */
module StructureIO {
  import opened PyValues
  import Packaging

  /** The comment line a new structure starts with; it names the short
      version of the package. */
  const DefaultCommentLine: string := "Structure data generated using scikit-nano version " + Packaging.Version

  const DefaultStructureFormat: string := "xyz"

  const SupportedStructureFormats: seq<string> := ["xyz", "data"]

  /** The default format is one of the supported formats, and the default
      comment line ends with the version "0.2.11". */
  lemma FormatConstants()
    ensures DefaultStructureFormat in SupportedStructureFormats
    ensures DefaultCommentLine == "Structure data generated using scikit-nano version 0.2.11"
  {
    Packaging.VersionIs();
  }

  // ---------------------------------------------------------------------
  // An insertion-ordered dictionary

  /** `collections.OrderedDict` with string keys: the keys in insertion
      order, and the value of each. */
  class OrderedDict {
    var keys: seq<string>
    var values: map<string, PyObj>

    ghost predicate Valid()
      reads this
    {
      && (forall i, j :: 0 <= i < j < |keys| ==> keys[i] != keys[j])
      && (forall k :: k in values <==> k in keys)
    }

    /** An empty dictionary. */
    constructor ()
      ensures keys == [] && values == map[]
      ensures Valid()
    {
      keys := [];
      values := map[];
    }

    function Len(): (n: nat)
      reads this
      requires Valid()
      ensures n == |values|
    {
      DistinctKeysCount(keys, values);
      |keys|
    }

    /** `d[key]`: the value, or KeyError. */
    function Get(key: string): (r: Result<PyObj>)
      reads this
      ensures r.Ok? <==> key in values
      ensures r.Ok? ==> r.value == values[key]
      ensures r.Err? ==> r.error == KeyError
    {
      if key in values then Ok(values[key]) else Err(KeyError)
    }

    /** `d[key] = value`: a new key goes last; an existing key keeps its
        place and takes the new value. */
    method Set(key: string, value: PyObj)
      requires Valid()
      modifies this
      ensures Valid()
      ensures values == old(values)[key := value]
      ensures key in old(values) ==> keys == old(keys)
      ensures key !in old(values) ==> keys == old(keys) + [key]
    {
      if key !in values {
        keys := keys + [key];
      }
      values := values[key := value];
    }

    /** `del d[key]`: removes the key from the order and the map, or raises
        KeyError and changes nothing. */
    method Delete(key: string) returns (err: Option<PyError>)
      requires Valid()
      modifies this
      ensures Valid()
      ensures key in old(values) ==> err.None? && values == old(values) - {key} && keys == Without(old(keys), key)
      ensures forall i :: 0 <= i < |old(keys)| && old(keys)[i] == key ==> keys == old(keys)[..i] + old(keys)[i + 1..]
      ensures key !in old(values) ==> err == Some(KeyError) && values == old(values) && keys == old(keys)
    {
      if key in values {
        forall i | 0 <= i < |keys| && keys[i] == key
          ensures Without(keys, key) == keys[..i] + keys[i + 1..]
        {
          assert key !in keys[..i] && key !in keys[i + 1..];
          WithoutAt(keys, key, i);
        }
        keys := Without(keys, key);
        values := values - {key};
        err := None;
      } else {
        err := Some(KeyError);
      }
    }
  }

  /** `keys` with every occurrence of `key` dropped, the rest in order. */
  function Without(keys: seq<string>, key: string): (r: seq<string>)
    ensures forall k :: k in r <==> k in keys && k != key
    ensures |r| <= |keys|
    ensures (forall i, j :: 0 <= i < j < |keys| ==> keys[i] != keys[j]) ==>
      forall i, j :: 0 <= i < j < |r| ==> r[i] != r[j]
    ensures key !in keys ==> r == keys
  {
    if |keys| == 0 then []
    else
      var rest := Without(keys[1..], key);
      assert forall k :: k in keys[1..] ==> k in keys;
      assert (forall i, j :: 0 <= i < j < |keys| ==> keys[i] != keys[j]) ==>
        keys[0] !in keys[1..] && forall i, j :: 0 <= i < j < |keys| - 1 ==> keys[1..][i] != keys[1..][j];
      if keys[0] == key then rest else [keys[0]] + rest
  }

  /** Dropping a key that occurs once, at `i`, closes the gap and keeps
      every other key in its order. */
  lemma {:induction false} WithoutAt(keys: seq<string>, key: string, i: nat)
    requires i < |keys| && keys[i] == key && key !in keys[..i] && key !in keys[i + 1..]
    ensures Without(keys, key) == keys[..i] + keys[i + 1..]
    decreases i
  {
    if i == 0 {
      assert keys[1..] == keys[i + 1..];
    } else {
      assert keys[0] != key by { assert keys[0] == keys[..i][0]; }
      var tail := keys[1..];
      assert tail[..i - 1] == keys[1..i] && tail[i..] == keys[i + 1..];
      assert key !in tail[..i - 1];
      WithoutAt(tail, key, i - 1);
      assert keys[..i] == [keys[0]] + keys[1..i];
    }
  }

  /** Distinct keys make a set as large as the sequence. */
  lemma {:induction false} DistinctKeysCardinality(keys: seq<string>)
    requires forall i, j :: 0 <= i < j < |keys| ==> keys[i] != keys[j]
    ensures |set k | k in keys| == |keys|
    decreases |keys|
  {
    if |keys| > 0 {
      var rest := keys[1..];
      assert keys[0] !in rest;
      assert (set k | k in keys) == (set k | k in rest) + {keys[0]};
      DistinctKeysCardinality(rest);
    }
  }

  /** Distinct keys that are exactly a map's domain are as many as it. */
  lemma DistinctKeysCount(keys: seq<string>, values: map<string, PyObj>)
    requires forall i, j :: 0 <= i < j < |keys| ==> keys[i] != keys[j]
    requires forall k :: k in values <==> k in keys
    ensures |keys| == |values|
  {
    assert values.Keys == set k | k in keys;
    DistinctKeysCardinality(keys);
  }

  // ---------------------------------------------------------------------
  // The record

  /** The atom collection a structure holds. The collection class is not
      part of this model; it is reduced to its atoms' element symbols. */
  class Atoms {
    var elements: seq<string>

    constructor ()
      ensures elements == []
    {
      elements := [];
    }

    /** `Natoms`: the number of atoms. */
    function Natoms(): (n: nat)
      reads this
      ensures n == |elements|
    {
      |elements|
    }
  }

  /** The `_fname` slot: bound to a value, or removed by `del`. */
  datatype Slot = Deleted | Bound(value: PyObj)

  /** `StructureData`. The atom collection and the property map are fixed
      objects handed out by reference; the comment line and the file name
      can be replaced, and the file name deleted. The setters store any
      value without checking its type. */
  class StructureData {
    const structureAtoms: Atoms
    var commentLine: PyObj
    var fname: Slot
    const properties: OrderedDict

    /** `StructureData(fname=None)`. */
    constructor (fname: PyObj := PyNone)
      ensures fresh(structureAtoms) && structureAtoms.elements == []
      ensures commentLine == PyStr(DefaultCommentLine)
      ensures this.fname == Bound(fname)
      ensures fresh(properties) && properties.keys == [] && properties.values == map[] && properties.Valid()
    {
      structureAtoms := new Atoms();
      commentLine := PyStr(DefaultCommentLine);
      this.fname := Bound(fname);
      properties := new OrderedDict();
    }

    /** `atoms`: the same object as `structure_atoms`. */
    function AtomsAlias(): (a: Atoms)
      ensures a == structureAtoms
    {
      structureAtoms
    }

    /** `Natoms`: the atom count of the structure's own collection. */
    function Natoms(): (n: nat)
      reads this, structureAtoms
      ensures n == |AtomsAlias().elements|
    {
      structureAtoms.Natoms()
    }

    /** The `fname` getter: AttributeError once the file name is deleted. */
    function Fname(): (r: Result<PyObj>)
      reads this
      ensures r.Ok? <==> fname.Bound?
      ensures r.Ok? ==> r.value == fname.value
      ensures r.Err? ==> r.error == AttributeError
    {
      match fname
      case Deleted => Err(AttributeError)
      case Bound(v) => Ok(v)
    }

    /** The `comment_line` setter: replaces the comment line only. */
    method SetCommentLine(value: PyObj)
      modifies this
      ensures commentLine == value && fname == old(fname)
    {
      commentLine := value;
    }

    /** The `fname` setter: replaces (or restores) the file name only. */
    method SetFname(value: PyObj)
      modifies this
      ensures fname == Bound(value) && commentLine == old(commentLine)
      ensures Fname() == Ok(value)
    {
      fname := Bound(value);
    }

    /** The `fname` deleter: removes the file name, after which reading it
        raises AttributeError; deleting it again raises AttributeError. */
    method DeleteFname() returns (err: Option<PyError>)
      modifies this
      ensures commentLine == old(commentLine)
      ensures old(fname).Bound? ==> fname == Deleted && err.None?
      ensures old(fname).Deleted? ==> fname == Deleted && err == Some(AttributeError)
      ensures Fname() == Err(AttributeError)
    {
      if fname.Deleted? {
        err := Some(AttributeError);
      } else {
        fname := Deleted;
        err := None;
      }
    }
  }

  /** The message the abstract operations return (not raise). */
  function Unimplemented(cls: string, op: string): (e: PyError)
    ensures e.NotImplementedError?
  {
    NotImplementedError("Subclasses of `" + cls + "` need to implement the `" + op + "` method.")
  }

  /** `StructureReader`: structure data with an abstract `read`. */
  class StructureReader {
    const data: StructureData

    /** Built exactly as `StructureData(fname)`. */
    constructor (fname: PyObj := PyNone)
      ensures fresh(data) && fresh(data.structureAtoms) && fresh(data.properties)
      ensures data.structureAtoms.elements == [] && data.commentLine == PyStr(DefaultCommentLine)
      ensures data.fname == Bound(fname)
      ensures data.properties.keys == [] && data.properties.values == map[] && data.properties.Valid()
    {
      data := new StructureData(fname);
    }

    /** `read`: returns a NotImplementedError value. */
    function Read(): (e: PyError)
      ensures e == Unimplemented("StructureReader", "read")
    {
      Unimplemented("StructureReader", "read")
    }
  }

  /** `StructureWriter.write`: returns a NotImplementedError value. The
      writer holds no state. */
  function Write(): (e: PyError)
    ensures e == Unimplemented("StructureWriter", "write")
  {
    Unimplemented("StructureWriter", "write")
  }

  /** `StructureConverter(infile=None, outfile=None)`. */
  class StructureConverter {
    const infile: PyObj
    const outfile: PyObj

    constructor (infile: PyObj := PyNone, outfile: PyObj := PyNone)
      ensures this.infile == infile && this.outfile == outfile
    {
      this.infile := infile;
      this.outfile := outfile;
    }

    /** `convert`: returns a NotImplementedError value. */
    function Convert(): (e: PyError)
      ensures e == Unimplemented("StructureConverter", "convert")
    {
      Unimplemented("StructureConverter", "convert")
    }
  }

  /** `StructureFormat`: a fresh, empty property map. */
  class StructureFormat {
    const properties: OrderedDict

    constructor ()
      ensures fresh(properties) && properties.keys == [] && properties.values == map[] && properties.Valid()
    {
      properties := new OrderedDict();
    }
  }

  // ---------------------------------------------------------------------
  // Python 3 `repr` of a string

  /** A string of Latin-1 characters (every code point below 256). */
  type Latin1String = s: string | forall i :: 0 <= i < |s| ==> s[i] as int < 256

  /** `c.isprintable()` for a Latin-1 character: all but the controls
      (below U+0020 and U+007F to U+009F), the no-break space U+00A0 and
      the soft hyphen U+00AD. */
  predicate IsPrintable(c: char)
    requires c as int < 256
  {
    ' ' <= c && !(0x7f <= c as int <= 0xa0) && c as int != 0xad
  }

  /** The quote `repr` uses: double quotes exactly when the string holds a
      single quote and no double quote. */
  function QuoteFor(s: string): (q: char)
    ensures q == '\'' || q == '"'
    ensures q == '"' <==> '\'' in s && '"' !in s
  {
    if '\'' in s && '"' !in s then '"' else '\''
  }

  function HexDigit(n: nat): (c: char)
    requires n < 16
  {
    if n < 10 then (('0' as int) + n) as char else (('a' as int) + n - 10) as char
  }

  function HexValue(c: char): (v: Option<nat>)
    ensures v.Some? ==> v.value < 16
  {
    if '0' <= c <= '9' then Some((c as int) - ('0' as int))
    else if 'a' <= c <= 'f' then Some((c as int) - ('a' as int) + 10)
    else None
  }

  lemma HexRoundTrip(n: nat)
    requires n < 16
    ensures HexValue(HexDigit(n)) == Some(n)
  {
  }

  /** How `repr` writes one character inside quotes `q`. */
  function Escape(c: char, q: char): (e: string)
    requires c as int < 256
    ensures 1 <= |e| <= 4
    ensures |e| == 1 <==> IsPrintable(c) && c != q && c != '\\'
    ensures |e| == 1 ==> e == [c]
    ensures |e| > 1 ==> e[0] == '\\'
    ensures |e| == 4 <==> !IsPrintable(c) && c != q && c !in "\t\n\r"
    ensures c in "\t\n\r" && c != q ==> |e| == 2
    ensures |e| == 4 ==>
      e[1] == 'x' && HexValue(e[2]).Some? && HexValue(e[3]).Some? &&
      c as int == HexValue(e[2]).value * 16 + HexValue(e[3]).value
  {
    if c == q || c == '\\' then ['\\', c]
    else if c == '\t' then "\\t"
    else if c == '\n' then "\\n"
    else if c == '\r' then "\\r"
    else if !IsPrintable(c) then
      HexRoundTrip(c as int / 16);
      HexRoundTrip(c as int % 16);
      ['\\', 'x', HexDigit(c as int / 16), HexDigit(c as int % 16)]
    else [c]
  }

  function EscapeAll(s: Latin1String, q: char): string {
    if |s| == 0 then "" else Escape(s[0], q) + EscapeAll(s[1..], q)
  }

  /** `repr(s)`. */
  function Repr(s: Latin1String): (r: string)
    ensures |r| >= 2 && r[0] == r[|r| - 1] == QuoteFor(s)
    ensures Unrepr(r) == Some(s)
  {
    var q := QuoteFor(s);
    var r := [q] + EscapeAll(s, q) + [q];
    assert r[1..|r| - 1] == EscapeAll(s, q);
    UnescapeEscapeAll(s, q);
    r
  }

  function Cons(c: char, rest: Option<string>): Option<string> {
    match rest
    case None => None
    case Some(t) => Some([c] + t)
  }

  /** The characters a quoted literal's body stands for: the escapes
      `repr` writes are decoded, and an unescaped quote `q` is an error. */
  function Unescape(t: string, q: char): Option<string>
    decreases |t|
  {
    if |t| == 0 then Some("")
    else if t[0] == q then None
    else if t[0] != '\\' then Cons(t[0], Unescape(t[1..], q))
    else if |t| < 2 then None
    else if t[1] == 't' then Cons('\t', Unescape(t[2..], q))
    else if t[1] == 'n' then Cons('\n', Unescape(t[2..], q))
    else if t[1] == 'r' then Cons('\r', Unescape(t[2..], q))
    else if t[1] == '\\' || t[1] == '\'' || t[1] == '"' then Cons(t[1], Unescape(t[2..], q))
    else if t[1] == 'x' && |t| >= 4 && HexValue(t[2]).Some? && HexValue(t[3]).Some? then
      Cons((HexValue(t[2]).value * 16 + HexValue(t[3]).value) as char, Unescape(t[4..], q))
    else None
  }

  /** The string a quoted literal denotes, if it is one. */
  function Unrepr(r: string): Option<string> {
    if |r| < 2 || (r[0] != '\'' && r[0] != '"') || r[|r| - 1] != r[0] then None
    else Unescape(r[1..|r| - 1], r[0])
  }

  lemma UnescapeEscape(c: char, q: char, rest: string)
    requires c as int < 256
    requires q == '\'' || q == '"'
    ensures Unescape(Escape(c, q) + rest, q) == Cons(c, Unescape(rest, q))
  {
    var e := Escape(c, q);
    var t := e + rest;
    if |e| == 1 {
      assert t[1..] == rest;
    } else if |e| == 2 {
      assert t[2..] == rest;
    } else {
      assert t[4..] == rest;
    }
  }

  lemma {:induction false} UnescapeEscapeAll(s: Latin1String, q: char)
    requires q == '\'' || q == '"'
    ensures Unescape(EscapeAll(s, q), q) == Some(s)
    decreases |s|
  {
    if |s| > 0 {
      UnescapeEscape(s[0], q, EscapeAll(s[1..], q));
      UnescapeEscapeAll(s[1..], q);
      assert [s[0]] + s[1..] == s;
    }
  }

  // ---------------------------------------------------------------------
  // The structure-data exceptions

  datatype ErrorClass =
    | StructureDataError
    | StructureReaderError
    | StructureWriterError
    | StructureConverterError
    | StructureFormatError

  /** `issubclass(c, base)` among the structure-data exceptions. */
  predicate IsSubclass(c: ErrorClass, base: ErrorClass) {
    c == base || base == StructureDataError
  }

  /** An exception raised with one message argument. */
  datatype StructureError = StructureError(cls: ErrorClass, msg: Latin1String)

  /** `str(e)`: the base class prints its argument as is; each of the four
      subclasses prints `repr(msg)`, which reads back as the message. */
  function Str(e: StructureError): (s: string)
    ensures IsSubclass(e.cls, StructureDataError)
    ensures e.cls == StructureDataError ==> s == e.msg
    ensures e.cls != StructureDataError ==> |s| >= 2 && s[0] == s[|s| - 1] && Unrepr(s) == Some(e.msg)
  {
    if e.cls == StructureDataError then e.msg else Repr(e.msg)
  }
}
