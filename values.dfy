/** Field values and records as they travel between the marketplace API and the store. */
module Values {
  import opened Wrappers

  /** A fixed-point number: units / 10^scale (a Python Decimal, or a float read exactly). */
  datatype Decimal = Decimal(units: int, scale: nat)

  /** One field value.  A date is a day number, a datetime an instant in seconds, a foreign
      key the primary key it refers to; a JSON column holds the value its text decodes to. */
  datatype Value =
    | VNone
    | VBool(b: bool)
    | VInt(i: int)
    | VDecimal(d: Decimal)
    | VDate(day: int)
    | VDateTime(instant: int)
    | VStr(s: string)
    | VRef(id: nat)
    | VList(items: seq<Value>)
    | VObj(fields: map<string, Value>)

  /** A row of a table or one element of an API response: field name to value. */
  type Record = map<string, Value>

  /** The conversions the code borrows from Python's runtime, left uninterpreted. */
  datatype Env = Env(
    show: Value -> string,              // str(value)
    parseIso: string -> Option<int>,    // datetime.fromisoformat(value)
    parseStamp: string -> Option<int>,  // datetime.strptime(value, "%Y-%m-%dT%H:%M:%S.%f%z")
    parseFloat: string -> Option<Decimal>)  // float(value) of a string

  const SecondsPerDay: int := 86400

  /** getattr(obj, f) on a model instance: an unset field reads as its null default. */
  function Get(r: Record, f: string): (v: Value)
    ensures f in r ==> v == r[f]
    ensures f !in r ==> v == VNone
  {
    if f in r then r[f] else VNone
  }

  /** {k: v for k, v in r.items() if k in fields} */
  function Restrict(r: Record, fields: set<string>): (s: Record)
    ensures s.Keys == r.Keys * fields
    ensures forall f :: f in s ==> s[f] == r[f]
  {
    map f | f in r && f in fields :: r[f]
  }

  /** The calendar day of an instant (datetime.date()). */
  function DayOf(instant: int): int
  {
    instant / SecondsPerDay
  }

  function Pow10(e: nat): (p: nat)
    ensures p >= 1
  {
    if e == 0 then 1 else 10 * Pow10(e - 1)
  }

  /** f"{x:.5f}" read back as a count of 10^-5 units: exact rounding, ties to even. */
  function Round5(x: Decimal): int
  {
    if x.scale <= 5 then x.units * Pow10(5 - x.scale)
    else
      var d := Pow10(x.scale - 5);
      var q := x.units / d;
      var rem := x.units % d;
      if 2 * rem > d then q + 1
      else if 2 * rem < d then q
      else if q % 2 == 0 then q else q + 1
  }

  /** The string f"{x:.5f}" as a value: its sign, which shows whenever x is negative, even
      when x rounds to zero ("-0.00000"), and the rounded number of 10^-5 units. */
  datatype Rendered = Rendered(negative: bool, units: int)

  function Render5(x: Decimal): Rendered
  {
    Rendered(x.units < 0, Round5(x))
  }

  /** A small negative number rounds to zero but does not render as zero does. */
  lemma NegativeZeroRendering()
    ensures Round5(Decimal(-1, 6)) == Round5(Decimal(0, 0))
    ensures Render5(Decimal(-1, 6)) != Render5(Decimal(0, 0))
  {
  }

  /** float(value): numbers and booleans convert, strings are parsed, None and others raise. */
  function AsNumber(env: Env, v: Value): (r: Result<Decimal>)
    ensures v.VNone? ==> r == Err(TypeError)
    ensures v.VDecimal? ==> r == Ok(v.d)
    ensures v.VInt? ==> r == Ok(Decimal(v.i, 0))
  {
    match v
    case VInt(i) => Ok(Decimal(i, 0))
    case VBool(b) => Ok(Decimal(if b then 1 else 0, 0))
    case VDecimal(d) => Ok(d)
    case VStr(s) => (match env.parseFloat(s) case Some(d) => Ok(d) case None => Err(ValueError))
    case _ => Err(TypeError)
  }

  /** Iterating a JSON value whose items are used as dicts: a list yields its items, an empty
      dict or string nothing, and any other value raises TypeError (it is not iterable, or
      its items are not dicts). */
  function ItemsOf(v: Value): (r: Result<seq<Value>>)
    ensures r.Ok? <==> v.VList? || v == VObj(map[]) || v == VStr("")
    ensures r.Ok? && !v.VList? ==> r.value == []
    ensures v.VList? ==> r == Ok(v.items)
    ensures r.Err? ==> r.error == TypeError
  {
    match v
    case VList(items) => Ok(items)
    case VObj(m) => if m == map[] then Ok([]) else Err(TypeError)
    case VStr(s) => if s == "" then Ok([]) else Err(TypeError)
    case _ => Err(TypeError)
  }

  /** Python's truth value: None, False, zero and empty strings, lists and dicts are false. */
  predicate Truthy(v: Value)
  {
    match v
    case VNone => false
    case VBool(b) => b
    case VInt(i) => i != 0
    case VDecimal(d) => d.units != 0
    case VStr(s) => s != ""
    case VList(items) => items != []
    case VObj(fields) => fields != map[]
    case _ => true
  }

  /** The number a bool, an int or a Decimal stands for; other values are not numbers. */
  function Numeric(v: Value): Option<Decimal>
  {
    match v
    case VBool(b) => Some(Decimal(if b then 1 else 0, 0))
    case VInt(i) => Some(Decimal(i, 0))
    case VDecimal(d) => Some(d)
    case _ => None
  }

  predicate SameNumber(x: Decimal, y: Decimal)
  {
    x.units * Pow10(y.scale) == y.units * Pow10(x.scale)
  }

  /** Python's == on two field values: numbers of any of the three kinds compare by value
      (True == 1, Decimal("2.50") == Decimal("2.5")), everything else structurally. */
  predicate PyEq(a: Value, b: Value)
  {
    if Numeric(a).Some? && Numeric(b).Some? then SameNumber(Numeric(a).value, Numeric(b).value)
    else a == b
  }

  /** Every value equals itself. */
  lemma PyEqReflexive(v: Value)
    ensures PyEq(v, v)
  {
  }

  /** A bool equals the int it stands for. */
  lemma PyEqBoolInt()
    ensures PyEq(VBool(true), VInt(1)) && PyEq(VBool(false), VInt(0)) && !PyEq(VBool(true), VInt(2))
    ensures !PyEq(VStr("1"), VInt(1))
  {
  }

  function Abs(x: int): nat { if x < 0 then -x else x }

  /** A number with at most five decimals is formatted exactly. */
  lemma Round5Exact(x: Decimal)
    requires x.scale <= 5
    ensures Round5(x) * Pow10(x.scale) == x.units * Pow10(5)
  {
    Pow10Add(5 - x.scale, x.scale);
  }

  /** Otherwise the formatted value is within half a unit of the fifth decimal. */
  lemma Round5Nearest(x: Decimal)
    requires x.scale > 5
    ensures 2 * Abs(Round5(x) * Pow10(x.scale - 5) - x.units) <= Pow10(x.scale - 5)
  {
    var d := Pow10(x.scale - 5);
    var q := x.units / d;
    var rem := x.units % d;
    assert x.units == q * d + rem;
    if 2 * rem > d {
      assert Round5(x) * d - x.units == d - rem;
    } else if 2 * rem < d {
      assert Round5(x) * d - x.units == -rem;
    } else if q % 2 == 0 {
      assert Round5(x) * d - x.units == -rem;
    } else {
      assert Round5(x) * d - x.units == d - rem;
    }
  }

  lemma {:induction false} Pow10Add(a: nat, b: nat)
    ensures Pow10(a) * Pow10(b) == Pow10(a + b)
  {
    if a > 0 {
      Pow10Add(a - 1, b);
    }
  }
}
