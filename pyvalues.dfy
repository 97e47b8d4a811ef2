/**
 * The scalar Python values that the key builders and the payment helpers
 * convert: None, bool, int and str, with their truthiness, str() and
 * int(). Floats are not part of this model.
 */
module PyValues {
  import opened Wrappers
  import opened Text

  datatype PyValue = PyNone | PyBool(b: bool) | PyInt(i: int) | PyText(s: string)

  /** The exceptions that int() raises: TypeError for None, ValueError for a malformed str. */
  datatype ConversionError = TypeError | ValueError

  /** bool(v) */
  predicate Truthy(v: PyValue)
  {
    match v
    case PyNone => false
    case PyBool(b) => b
    case PyInt(i) => i != 0
    case PyText(s) => s != ""
  }

  /** str(v) */
  function Str(v: PyValue): (s: string)
    ensures v.PyText? ==> s == v.s
    ensures v.PyInt? ==> s == IntToString(v.i)
  {
    match v
    case PyNone => "None"
    case PyBool(b) => if b then "True" else "False"
    case PyInt(i) => IntToString(i)
    case PyText(s) => s
  }

  /** int(v): a bool is 0 or 1, a str is parsed, None raises TypeError. */
  function ToInt(v: PyValue): (r: Result<int, ConversionError>)
    ensures v.PyNone? <==> r == Failure(TypeError)
    ensures r.Failure? && r.error == ValueError <==> v.PyText? && ParseInt(v.s).None?
  {
    match v
    case PyNone => Failure(TypeError)
    case PyBool(b) => Success(if b then 1 else 0)
    case PyInt(i) => Success(i)
    case PyText(s) =>
      match ParseInt(s)
      case Some(n) => Success(n)
      case None => Failure(ValueError)
  }

  /** safe_int: int(v), or the default when int() raises. */
  function SafeInt(v: PyValue, default: int): (n: int)
    ensures ToInt(v).Success? ==> n == ToInt(v).value
    ensures ToInt(v).Failure? ==> n == default
  {
    match ToInt(v)
    case Success(i) => i
    case Failure(_) => default
  }

  /** An int survives str() followed by safe_int, whatever the default. */
  lemma SafeIntOfStr(i: int, default: int)
    ensures SafeInt(PyText(Str(PyInt(i))), default) == i
    ensures SafeInt(PyInt(i), default) == i
  {
    ParseIntOfIntToString(i);
  }

  /** A word that is not a number falls back to the default; None does too. */
  lemma SafeIntFallsBack(default: int)
    ensures SafeInt(PyText("abc"), default) == default
    ensures SafeInt(PyText(""), default) == default
    ensures SafeInt(PyNone, default) == default
  {
    ParseIntRefuses("abc");
    ParseIntRefuses("");
  }
}
