/** Python values as the modelled code sees them, and the foreign operations on them. */
module Values {
  import opened Base
  import opened Strings
  import opened OrdMaps

  /** A non-list Python value. `Date` is a pandas timestamp, kept abstract. */
  datatype Scalar = Str(s: string) | Bool(b: bool) | Int(i: int) | Float(x: real) | Date(stamp: int) | Null

  /** A value, or a Python list of values. */
  datatype Value = One(x: Scalar) | Many(xs: seq<Scalar>)

  /** A config: section -> item -> value, both levels ordered. */
  type Cfg = OrdMap<OrdMap<Value>>

  /** Behaviour of code outside the model, given as functions:
      `toFloat`/`toInt` are Python's `float()`/`int()` on text, `toDatetime` is pandas'
      `to_datetime`, `text` is `str()` of a float, timestamp or list, and `isFile`/`isDir`
      the file-system tests `os.path.isfile`/`os.path.isdir` (`None` where they raise, as
      they do on `None`). */
  datatype Natives = Natives(
    toFloat: string -> Option<real>,
    toInt: string -> Option<int>,
    toDatetime: Value -> Option<int>,
    text: Value -> string,
    isFile: Value -> Option<bool>,
    isDir: Value -> Option<bool>)

  /** `mk_lst(v)`: a list as it is, anything else wrapped. */
  function MkLst(v: Value): (r: seq<Scalar>)
    ensures v.One? ==> r == [v.x]
  {
    match v
    case One(x) => [x]
    case Many(xs) => xs
  }

  /** `mk_lst(xs, unlst=True)` on a list: one element unwrapped, any other length kept. */
  function Unlist(xs: seq<Scalar>): (r: Value)
    ensures MkLst(r) == xs
  {
    if |xs| == 1 then One(xs[0]) else Many(xs)
  }

  /** Wrap strings as a Python list of `str`. */
  function Texts(ss: seq<string>): (r: seq<Scalar>)
    ensures |r| == |ss| && forall i :: 0 <= i < |ss| ==> r[i] == Str(ss[i])
  {
    if ss == [] then [] else [Str(ss[0])] + Texts(ss[1..])
  }

  predicate IsNone(v: Value) { v == One(Null) }

  function DigitChar(d: nat): char
    requires d < 10
  {
    "0123456789"[d]
  }

  function NatToString(n: nat): (r: string)
    ensures r != []
  {
    if n < 10 then [DigitChar(n)] else NatToString(n / 10) + [DigitChar(n % 10)]
  }

  /** `str(i)` for an int. */
  function IntToString(i: int): string {
    if i < 0 then "-" + NatToString(-i) else NatToString(i)
  }

  /** `str(v)`. */
  function PyStr(v: Value, n: Natives): string {
    match v
    case One(Str(s)) => s
    case One(Bool(b)) => if b then "True" else "False"
    case One(Int(i)) => IntToString(i)
    case One(Null) => "None"
    case _ => n.text(v)
  }

  /** Python's `float(v)` on a non-list value; `None` where it raises. */
  function PyFloat(v: Scalar, n: Natives): Option<real> {
    match v
    case Str(s) => n.toFloat(s)
    case Bool(b) => Some(if b then 1.0 else 0.0)
    case Int(i) => Some(i as real)
    case Float(x) => Some(x)
    case _ => None
  }

  /** Python's `int()` of a float: truncation toward zero. */
  function Truncate(x: real): (r: int)
    ensures x >= 0.0 ==> r as real <= x < r as real + 1.0
    ensures x < 0.0 ==> r as real - 1.0 < x <= r as real
  {
    if x >= 0.0 then x.Floor else -((-x).Floor)
  }

  /** Python's `int(v)` on a non-list value; `None` where it raises. */
  function PyInt(v: Scalar, n: Natives): Option<int> {
    match v
    case Str(s) => n.toInt(s)
    case Bool(b) => Some(if b then 1 else 0)
    case Int(i) => Some(i)
    case Float(x) => Some(Truncate(x))
    case _ => None
  }

  /** `type(v).__name__`. */
  function TypeName(v: Value): string {
    match v
    case One(Str(_)) => "str"
    case One(Bool(_)) => "bool"
    case One(Int(_)) => "int"
    case One(Float(_)) => "float"
    case One(Date(_)) => "Timestamp"
    case One(Null) => "NoneType"
    case Many(_) => "list"
  }

  /** `str(type(v))`. */
  function ClassText(v: Value): string {
    match v
    case One(Date(_)) => "<class 'pandas._libs.tslibs.timestamps.Timestamp'>"
    case _ => "<class '" + TypeName(v) + "'>"
  }

  /** Python's `str()` on an int never reads as one of the boolean words. */
  lemma IntTextStartsWithDigitOrMinus(i: int)
    ensures IntToString(i) != [] && (IntToString(i)[0] == '-' || '0' <= IntToString(i)[0] <= '9')
  {
    if i >= 0 {
      NatTextFirstDigit(i);
    }
  }

  lemma {:induction false} NatTextFirstDigit(n: nat)
    ensures '0' <= NatToString(n)[0] <= '9'
  {
    if n >= 10 {
      NatTextFirstDigit(n / 10);
    }
  }
}
