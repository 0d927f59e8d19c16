/** PHP values as the control structures see them, and the truth conversion they rely on
    (operators.c). Hash tables are reduced to their element count, which is all that the
    conversions look at. */
module Values {

  datatype Value =
    | Unset                       // any type outside the five below
    | Long(n: int)
    | Double(d: real)
    | Str(s: string)
    | Table(count: nat)           // arrays and objects

  /** The symbol tables and the output produced so far. */
  datatype Store = Store(vars: map<string, Value>, output: seq<string>)

  /** What this model does not look into: the effect of a leaf expression on the store, the
      comparison used by `case`, and the C library's strtol. */
  datatype World = World(
    eval: (nat, Store) -> (Value, Store),
    equal: (Value, Value) -> bool,
    strtol: string -> int)

  /** convert_to_boolean_long: a long is left alone, everything else becomes 0 or 1. */
  function ToBooleanLong(v: Value): (r: Value)
    ensures r.Long?
  {
    match v
    case Long(_) => v
    case Double(d) => Long(if d != 0.0 then 1 else 0)
    case Str(s) => Long(if |s| == 0 || s == "0" then 0 else 1)
    case Table(count) => Long(if count != 0 then 1 else 0)
    case Unset => Long(0)
  }

  /** pval_is_true: converts in place, then tests the converted value. */
  predicate IsTrue(v: Value) {
    ToBooleanLong(v).n != 0
  }

  /** The values that are false; there are no others. */
  lemma TruthIs(v: Value)
    ensures IsTrue(v) <==> v !in {Unset, Long(0), Double(0.0), Str(""), Str("0"), Table(0)}
  {
  }

  /** A long is converted to itself, anything else to 1 or 0 as it is true or false. */
  lemma ConversionIs(v: Value)
    ensures ToBooleanLong(v) ==
            if v.Long? then v
            else if v in {Unset, Double(0.0), Str(""), Str("0"), Table(0)} then Long(0)
            else Long(1)
  {
  }

  /** Converting twice is converting once, so the truth of a value that was already
      converted in place is the truth of the value it came from. */
  lemma ConversionIsStable(v: Value)
    ensures ToBooleanLong(ToBooleanLong(v)) == ToBooleanLong(v)
    ensures IsTrue(ToBooleanLong(v)) == IsTrue(v)
  {
  }

  /** boolean_or_function: the right operand is looked at only if the left one is false. */
  function BooleanOr(left: Value, right: Value): Value {
    if IsTrue(left) then Long(1) else if IsTrue(right) then Long(1) else Long(0)
  }

  /** boolean_and_function. */
  function BooleanAnd(left: Value, right: Value): Value {
    if !IsTrue(left) then Long(0) else if !IsTrue(right) then Long(0) else Long(1)
  }

  /** The C conversion of a floating-point number to a long: toward zero. */
  function Truncate(d: real): int {
    if d >= 0.0 then d.Floor else -((-d).Floor)
  }

  /** convert_to_long, as a number. */
  function ToLong(w: World, v: Value): int {
    match v
    case Long(n) => n
    case Double(d) => Truncate(d)
    case Str(s) => w.strtol(s)
    case Table(count) => if count != 0 then 1 else 0
    case Unset => 0
  }

  /** A number of loops given as a long is taken as it is; a double loses what is behind its point,
      whatever its sign; a table counts as one if there is anything in it. */
  lemma ToLongIs(w: World, n: int, d: real, s: string, count: nat)
    ensures ToLong(w, Long(n)) == n
    ensures d >= 0.0 ==> ToLong(w, Double(d)) as real <= d < ToLong(w, Double(d)) as real + 1.0
    ensures d <= 0.0 ==> ToLong(w, Double(d)) as real - 1.0 < d <= ToLong(w, Double(d)) as real
    ensures ToLong(w, Str(s)) == w.strtol(s) && ToLong(w, Unset) == 0
    ensures ToLong(w, Table(count)) == (if count == 0 then 0 else 1)
  {
  }
}
