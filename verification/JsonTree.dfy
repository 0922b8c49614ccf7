/** JSON values after text parsing, and the typed look-ups the decoders are written with: a missing key gives the
    default, a value of the wrong type or a look-up in something that is not an object is an error. */
module JsonTree {

  datatype Result<+T> = Ok(value: T) | Err {
    predicate IsFailure() {
      Err?
    }

    function PropagateFailure<U>(): Result<U>
      requires Err?
    {
      Err
    }

    function Extract(): T
      requires Ok?
    {
      value
    }
  }

  datatype Json =
    | Null
    | Bool(b: bool)
    | Int(i: int)
    | Real(r: real)
    | Str(s: string)
    | Arr(items: seq<Json>)
    | Obj(fields: map<string, Json>)

  predicate Has(j: Json, key: string) {
    j.Obj? && key in j.fields
  }

  function Field(j: Json, key: string): Result<Json> {
    if Has(j, key) then Ok(j.fields[key]) else Err
  }

  function AsString(j: Json): Result<string> {
    if j.Str? then Ok(j.s) else Err
  }

  function AsBool(j: Json): Result<bool> {
    if j.Bool? then Ok(j.b) else Err
  }

  function AsReal(j: Json): Result<real> {
    match j
    case Int(i) => Ok(i as real)
    case Real(r) => Ok(r)
    case _ => Err
  }

  // The machine integers that fields are converted to

  type Int32 = x: int | -0x8000_0000 <= x < 0x8000_0000

  type Word64 = x: int | 0 <= x < 0x1_0000_0000_0000_0000

  function ToInt32(i: int): Int32 {
    (i + 0x8000_0000) % 0x1_0000_0000 - 0x8000_0000
  }

  function Truncate(r: real): int {
    if r >= 0.0 then r.Floor else -(-r).Floor
  }

  /** Numbers are cut to 32 bits, fractions first towards zero, and a truth value counts as one or zero. */
  function AsInt32(j: Json): Result<Int32> {
    match j
    case Int(i) => Ok(ToInt32(i))
    case Real(r) => Ok(ToInt32(Truncate(r)))
    case Bool(b) => Ok(if b then 1 else 0)
    case _ => Err
  }

  /** As above for an unsigned field of 64 bits, which takes no truth value. */
  function AsWord64(j: Json): Result<Word64> {
    match j
    case Int(i) => Ok(i % 0x1_0000_0000_0000_0000)
    case Real(r) => Ok(Truncate(r) % 0x1_0000_0000_0000_0000)
    case _ => Err
  }

  /** Conversion keeps every number that fits; others are changed by a multiple of the word. */
  lemma ConversionsWrap(i: int)
    ensures -0x8000_0000 <= i < 0x8000_0000 ==> AsInt32(Int(i)) == Ok(i)
    ensures 0 <= i < 0x1_0000_0000_0000_0000 ==> AsWord64(Int(i)) == Ok(i)
    ensures AsInt32(Int(i)).Ok? && (i - AsInt32(Int(i)).value) % 0x1_0000_0000 == 0
    ensures AsWord64(Int(i)).Ok? && (i - AsWord64(Int(i)).value) % 0x1_0000_0000_0000_0000 == 0
  {
  }

  /** Fractions are dropped: the result has the sign of the number and is the greatest whole number up to its size. */
  lemma FractionsAreDropped(r: real)
    ensures var i := Truncate(r) as real;
            (r >= 0.0 ==> 0.0 <= i <= r < i + 1.0) && (r <= 0.0 ==> i - 1.0 < r <= i <= 0.0)
    ensures AsInt32(Real(r)) == AsInt32(Int(Truncate(r))) && AsWord64(Real(r)) == AsWord64(Int(Truncate(r)))
  {
  }

  /** Which values a field of each type takes. */
  lemma TypesAreChecked(j: Json)
    ensures (AsString(j).Ok? <==> j.Str?) && (AsBool(j).Ok? <==> j.Bool?)
    ensures AsReal(j).Ok? <==> j.Int? || j.Real?
    ensures AsInt32(j).Ok? <==> j.Int? || j.Real? || j.Bool?
    ensures AsWord64(j).Ok? <==> j.Int? || j.Real?
    ensures j.Bool? ==> AsInt32(j) == AsInt32(Int(if j.b then 1 else 0))
    ensures j.Int? ==> AsReal(j) == AsReal(Real(j.i as real))
  {
    if j.Bool? {
      ConversionsWrap(if j.b then 1 else 0);
    }
  }

  function AsStrings(items: seq<Json>): Result<seq<string>> {
    if items == [] then Ok([])
    else
      var head :- AsString(items[0]);
      var tail :- AsStrings(items[1..]);
      Ok([head] + tail)
  }

  function Strings(values: seq<string>): (r: seq<Json>)
    ensures |r| == |values|
  {
    if values == [] then [] else [Str(values[0])] + Strings(values[1..])
  }

  lemma {:induction false} StringsRoundTrip(values: seq<string>)
    ensures AsStrings(Strings(values)) == Ok(values)
  {
    if values != [] {
      StringsRoundTrip(values[1..]);
      assert Strings(values)[1..] == Strings(values[1..]);
      assert [values[0]] + values[1..] == values;
    }
  }

  function GetString(j: Json, key: string, default: string): Result<string> {
    if !j.Obj? then Err else if key in j.fields then AsString(j.fields[key]) else Ok(default)
  }

  function GetBool(j: Json, key: string, default: bool): Result<bool> {
    if !j.Obj? then Err else if key in j.fields then AsBool(j.fields[key]) else Ok(default)
  }

  function GetReal(j: Json, key: string, default: real): Result<real> {
    if !j.Obj? then Err else if key in j.fields then AsReal(j.fields[key]) else Ok(default)
  }

  function GetInt32(j: Json, key: string, default: Int32): Result<Int32> {
    if !j.Obj? then Err else if key in j.fields then AsInt32(j.fields[key]) else Ok(default)
  }

  function GetWord64(j: Json, key: string, default: Word64): Result<Word64> {
    if !j.Obj? then Err else if key in j.fields then AsWord64(j.fields[key]) else Ok(default)
  }

  function GetStrings(j: Json, key: string): Result<seq<string>> {
    if !j.Obj? then Err
    else if key !in j.fields then Ok([])
    else if j.fields[key].Arr? then AsStrings(j.fields[key].items)
    else Err
  }
}
