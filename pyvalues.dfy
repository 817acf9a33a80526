/** The small universe of Python values and exceptions that the modelled
    code inspects: the `isinstance` tests, `len`, and the errors it raises. */
module PyValues {

  datatype Option<+T> = None | Some(value: T)

  /** The exceptions the modelled code raises (or returns, for
      NotImplementedError). */
  datatype PyError =
    | TypeError(msg: string)
    | AttributeError
    | IndexError
    | KeyError
    | ValueError
    | RuntimeError(msg: string)
    | UnicodeDecodeError
    | NotImplementedError(msg: string)

  /** Either a value or the exception raised instead. */
  datatype Result<+T> = Ok(value: T) | Err(error: PyError) {
    predicate IsFailure() { Err? }
    function PropagateFailure<U>(): Result<U>
      requires Err?
    {
      Err(error)
    }
    function Extract(): T
      requires Ok?
    {
      value
    }
  }

  /** Python objects as far as the modelled `isinstance` and `len` checks
      can tell them apart. `PyArray` is a one-axis numpy ndarray. */
  datatype PyObj =
    | PyNone
    | PyBool(b: bool)
    | PyInt(i: int)
    | PyFloat(f: real)
    | PyStr(s: string)
    | PyList(items: seq<PyObj>)
    | PyTuple(items: seq<PyObj>)
    | PyArray(items: seq<PyObj>)

  /** `isinstance(o, numbers.Number)`, and equally `isinstance(o, (int,
      float))`: the universe has no other numbers, and `bool` is a subclass
      of `int`. */
  predicate IsNumber(o: PyObj) {
    o.PyBool? || o.PyInt? || o.PyFloat?
  }

  /** The real number a numeric object denotes (`True` is 1). */
  function AsReal(o: PyObj): real
    requires IsNumber(o)
  {
    match o
    case PyBool(b) => if b then 1.0 else 0.0
    case PyInt(i) => i as real
    case PyFloat(f) => f
  }

  /** `len(o)`: defined for strings, lists, tuples and arrays; anything else
      raises TypeError. */
  function Len(o: PyObj): (n: Result<nat>)
    ensures n.Ok? <==> (o.PyStr? || o.PyList? || o.PyTuple? || o.PyArray?)
    ensures o.PyStr? ==> n == Ok(|o.s|)
    ensures (o.PyList? || o.PyTuple? || o.PyArray?) ==> n == Ok(|o.items|)
  {
    match o
    case PyStr(s) => Ok(|s|)
    case PyList(items) => Ok(|items|)
    case PyTuple(items) => Ok(|items|)
    case PyArray(items) => Ok(|items|)
    case _ => Err(TypeError("object has no len()"))
  }
}
