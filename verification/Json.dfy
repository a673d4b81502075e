/**
 * JSON values as nlohmann/json keeps them, and what its accessors do: `at`, `contains`, `value`
 * and `get<T>`. Text is represented by the value it parses to.
 */
module Json {
  import opened Numeric
  import opened Wrappers

  /** Integers that number_unsigned and number_integer can hold between them. */
  type JsonInt = n: int | -TWO_TO_63 <= n < TWO_TO_64

  datatype Json =
    | Null
    | Boolean(b: bool)
    | Integer(n: JsonInt)
    | Float(d: Double)
    | String(s: string)
    | Array(items: seq<Json>)
    | Object(fields: map<string, Json>)

  /** A string handed to json::parse: no JSON at all, or the text of a value. */
  datatype Text = Garbage | Source(tree: Json)

  datatype JsonError =
    | ParseError      // reported as std::runtime_error by this code base
    | TypeError       // json::type_error, which is not a std::runtime_error
    | OutOfRange      // json::out_of_range, likewise
    | UndefinedCast   // a floating-point value converted to an integer type that cannot hold it

  /**
   * The value that the text written by dump() parses to. JSON has no way to write a number that
   * is not finite (section 6 of RFC 8259), so dump() writes null for it.
   */
  function Dumped(j: Json): Json
    decreases j
  {
    match j
    case Float(d) => if d.Finite? then j else Null
    case Array(items) => Array(seq(|items|, i requires 0 <= i < |items| => Dumped(items[i])))
    case Object(fields) => Object(map key | key in fields :: Dumped(fields[key]))
    case _ => j
  }

  /** Dumping what was read back from a dump changes nothing. */
  lemma {:induction false} DumpedIsStable(j: Json)
    ensures Dumped(Dumped(j)) == Dumped(j)
    decreases j
  {
    match j
    case Array(items) =>
      forall i | 0 <= i < |items| ensures Dumped(Dumped(items[i])) == Dumped(items[i]) {
        DumpedIsStable(items[i]);
      }
      assert Dumped(Dumped(j)).items == Dumped(j).items;
    case Object(fields) =>
      forall key | key in fields ensures Dumped(Dumped(fields[key])) == Dumped(fields[key]) {
        DumpedIsStable(fields[key]);
      }
      assert Dumped(Dumped(j)).fields == Dumped(j).fields;
    case _ =>
  }

  // ------------------------------------------------------------------ accessors

  predicate Contains(j: Json, key: string) {
    j.Object? && key in j.fields
  }

  function At(j: Json, key: string): Result<Json, JsonError> {
    if !j.Object? then Err(TypeError)
    else if key !in j.fields then Err(OutOfRange)
    else Ok(j.fields[key])
  }

  /** `j[key]` used for writing: null becomes an object, a missing key appears with null. */
  function Slot(j: Json, key: string): Json {
    if Contains(j, key) then j.fields[key] else Null
  }

  function Put(j: Json, key: string, value: Json): Json
    requires j.Null? || j.Object?
  {
    Object((if j.Object? then j.fields else map[])[key := value])
  }

  // ------------------------------------------------------------------ get<T>

  /** Conversion of a floating-point value drops the fraction. */
  function Truncate(r: real): int {
    if r >= 0.0 then r.Floor else -((-r).Floor)
  }

  function FloatToUnsigned(d: Double, modulus: int): Result<nat, JsonError>
    requires modulus > 0
  {
    if d.Finite? && 0 <= Truncate(d.value) < modulus then Ok(Truncate(d.value)) else Err(UndefinedCast)
  }

  /** get<uint64_t>: numbers only; an integer is narrowed modulo 2^64. */
  function GetUint64(j: Json): (r: Result<uint64, JsonError>) {
    match j
    case Integer(n) => Ok(n % TWO_TO_64)
    case Float(d) => FloatToUnsigned(d, TWO_TO_64)
    case _ => Err(TypeError)
  }

  /** get<uint8_t> and get<uint32_t>: as above with their own modulus, and booleans convert too. */
  function GetNarrow(j: Json, modulus: int): (r: Result<nat, JsonError>)
    requires modulus > 0
    ensures r.Ok? ==> r.value < modulus || j.Boolean?
  {
    match j
    case Integer(n) => Ok(n % modulus)
    case Float(d) => FloatToUnsigned(d, modulus)
    case Boolean(b) => Ok(if b then 1 else 0)
    case _ => Err(TypeError)
  }

  function GetUint8(j: Json): Result<uint8, JsonError> {
    GetNarrow(j, TWO_TO_8)
  }

  function GetUint32(j: Json): Result<uint32, JsonError> {
    GetNarrow(j, TWO_TO_32)
  }

  function GetDouble(j: Json): Result<Double, JsonError> {
    match j
    case Integer(n) => Ok(Finite(n as real))
    case Float(d) => Ok(d)
    case _ => Err(TypeError)
  }

  function GetBool(j: Json): Result<bool, JsonError> {
    if j.Boolean? then Ok(j.b) else Err(TypeError)
  }

  function GetString(j: Json): Result<string, JsonError> {
    if j.String? then Ok(j.s) else Err(TypeError)
  }

  // ------------------------------------------------------------------ what the conversions mean

  /** n is what C++ makes of this scalar when it is converted to an unsigned type of that many values. */
  ghost predicate ConvertsTo(j: Json, modulus: int, n: int) {
    match j
    case Integer(m) => 0 <= n < modulus && exists laps: int :: m == n + laps * modulus
    case Float(Finite(x)) => 0 <= n < modulus && (if n == 0 then -1.0 < x < 1.0 else n as real <= x < (n + 1) as real)
    case Boolean(b) => n == if b then 1 else 0
    case _ => false
  }

  lemma {:induction false} AtLeastOnce(k: int, modulus: int)
    requires modulus > 0 && k > 0
    ensures k * modulus >= modulus
  {
    if k > 1 {
      AtLeastOnce(k - 1, modulus);
      assert k * modulus == (k - 1) * modulus + modulus;
    }
  }

  lemma SmallMultiple(k: int, product: int, modulus: int)
    requires modulus > 0 && product == k * modulus && -modulus < product < modulus
    ensures k == 0
  {
    if k > 0 {
      AtLeastOnce(k, modulus);
    } else if k < 0 {
      AtLeastOnce(-k, modulus);
    }
  }

  lemma Laps(m: int, n: int, modulus: int)
    requires modulus > 0 && 0 <= n < modulus
    ensures n == m % modulus <==> exists laps: int :: m == n + laps * modulus
  {
    var q, r := m / modulus, m % modulus;
    assert m == r + q * modulus;
    if exists laps: int :: m == n + laps * modulus {
      var laps: int :| m == n + laps * modulus;
      assert (laps - q) * modulus == laps * modulus - q * modulus == r - n;
      SmallMultiple(laps - q, r - n, modulus);
    }
  }

  lemma TruncateDropsFraction(x: real, n: nat)
    ensures Truncate(x) == n <==> if n == 0 then -1.0 < x < 1.0 else n as real <= x < (n + 1) as real
  {
  }

  /** The accessors for unsigned integers yield exactly the converted value, and fail iff there is none. */
  lemma UnsignedAccessors(j: Json, n: int)
    ensures GetUint8(j) == Ok(n) <==> ConvertsTo(j, TWO_TO_8, n)
    ensures GetUint32(j) == Ok(n) <==> ConvertsTo(j, TWO_TO_32, n)
    ensures GetUint64(j) == Ok(n) <==> !j.Boolean? && ConvertsTo(j, TWO_TO_64, n)
  {
    if j.Integer? {
      if 0 <= n < TWO_TO_8 { Laps(j.n, n, TWO_TO_8); }
      if 0 <= n < TWO_TO_32 { Laps(j.n, n, TWO_TO_32); }
      if 0 <= n < TWO_TO_64 { Laps(j.n, n, TWO_TO_64); }
    } else if j.Float? && j.d.Finite? && n >= 0 {
      TruncateDropsFraction(j.d.value, n);
    }
  }
}
