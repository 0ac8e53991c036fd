/**
 * The Python values the report code handles: JSON documents as `json` decodes
 * them, and the handful of built-in operations the code applies to them
 * (truth value, `dict.get`, `str`, `float`, `int`, `len`, `[0]`, `[:3]`,
 * the `,` format and numeric comparison). An exception a built-in raises is a
 * `Raised` result naming its class.
 */
module PyValues {
  import opened Wrappers
  import opened Ascii
  import opened Numerals

  /** A decoded JSON value. A float is held exactly, as mantissa * 10^-exponent;
      an object keeps its members in document order, duplicates included. */
  datatype Json =
    | Null
    | Bool(b: bool)
    | Int(i: int)
    | Float(mantissa: int, exponent: nat)
    | Str(s: string)
    | List(items: seq<Json>)
    | Object(fields: seq<(string, Json)>)

  /** The exception classes the modelled code can raise. */
  datatype PyError = AttributeError | TypeError | KeyError | ValueError | ZeroDivisionError | IndexError

  /** The outcome of a Python expression: a value, or the exception it raised. */
  datatype Result<+T> = Ok(value: T) | Raised(error: PyError)

  /** `bool(v)`: None, False, zero and empty containers are false. */
  predicate Truthy(v: Json)
  {
    match v
    case Null => false
    case Bool(b) => b
    case Int(i) => i != 0
    case Float(m, _) => m != 0
    case Str(s) => s != []
    case List(items) => items != []
    case Object(fields) => fields != []
  }

  /** The value `json` keeps for `key`: the last member with that name. */
  function Lookup(fields: seq<(string, Json)>, key: string): (r: Option<Json>)
    ensures r.Some? <==> exists k :: 0 <= k < |fields| && fields[k].0 == key
    ensures r.Some? ==> exists k :: 0 <= k < |fields| && fields[k] == (key, r.value)
                                    && forall j :: k < j < |fields| ==> fields[j].0 != key
  {
    if fields == [] then None
    else if fields[|fields| - 1].0 == key then
      assert fields[|fields| - 1] == (key, fields[|fields| - 1].1);
      Some(fields[|fields| - 1].1)
    else
      var r := Lookup(fields[..|fields| - 1], key);
      LookupPastLast(fields, key, r);
      r
  }

  /** A lookup in all members but a last one with another name finds what the whole does. */
  lemma LookupPastLast(fields: seq<(string, Json)>, key: string, r: Option<Json>)
    requires fields != [] && fields[|fields| - 1].0 != key
    requires var init := fields[..|fields| - 1];
             && (r.Some? <==> exists k :: 0 <= k < |init| && init[k].0 == key)
             && (r.Some? ==> exists k :: 0 <= k < |init| && init[k] == (key, r.value)
                                        && forall j :: k < j < |init| ==> init[j].0 != key)
    ensures r.Some? <==> exists k :: 0 <= k < |fields| && fields[k].0 == key
    ensures r.Some? ==> exists k :: 0 <= k < |fields| && fields[k] == (key, r.value)
                                    && forall j :: k < j < |fields| ==> fields[j].0 != key
  {
    var init := fields[..|fields| - 1];
    assert forall k :: 0 <= k < |init| ==> init[k] == fields[k];
    if r.Some? {
      var k :| 0 <= k < |init| && init[k] == (key, r.value) && forall j :: k < j < |init| ==> init[j].0 != key;
      assert fields[k] == (key, r.value);
      assert forall j :: k < j < |fields| ==> fields[j].0 != key;
    } else {
      assert forall k :: 0 <= k < |fields| ==> fields[k].0 != key;
    }
  }

  /** `v.get(key)`: only a dict has the method. */
  function Get(v: Json, key: string): (r: Result<Option<Json>>)
    ensures r.Raised? <==> !v.Object?
    ensures r.Raised? ==> r.error == AttributeError
  {
    if v.Object? then Ok(Lookup(v.fields, key)) else Raised(AttributeError)
  }

  /** `v.get(key, default)`. */
  function GetOr(v: Json, key: string, default: Json): (r: Result<Json>)
    ensures r.Raised? <==> !v.Object?
    ensures v.Object? && Lookup(v.fields, key).None? ==> r == Ok(default)
  {
    match Get(v, key)
    case Ok(Some(x)) => Ok(x)
    case Ok(None) => Ok(default)
    case Raised(e) => Raised(e)
  }

  /** `obj.get(key, default)` on a dict, which cannot raise. */
  function Member(obj: Json, key: string, default: Json): (r: Json)
    requires obj.Object?
    ensures GetOr(obj, key, default) == Ok(r)
  {
    match Lookup(obj.fields, key)
    case Some(x) => x
    case None => default
  }

  /** The text of None, a boolean or a number, which `str` and `repr` agree on. */
  function ScalarText(v: Json): string
    requires !v.Str? && !v.List? && !v.Object?
  {
    match v
    case Null => "None"
    case Bool(b) => if b then "True" else "False"
    case Int(i) => IntText(i)
    case Float(m, e) => FloatText(m, e, false)
  }

  /** `repr(v)`: strings quoted, containers with their members' reprs. */
  function Repr(v: Json): string
    decreases v
  {
    match v
    case Str(s) => "'" + s + "'"
    case List(items) =>
      "[" + Join(seq(|items|, k requires 0 <= k < |items| => Repr(items[k]))) + "]"
    case Object(fields) =>
      "{" + Join(seq(|fields|, k requires 0 <= k < |fields| => MemberRepr(fields[k].0, fields[k].1, v))) + "}"
    case _ => ScalarText(v)
  }

  function MemberRepr(key: string, value: Json, parent: Json): string
    requires value < parent
    decreases parent, 0
  {
    "'" + key + "': " + Repr(value)
  }

  /** The parts separated by ", ". */
  function Join(parts: seq<string>): string
  {
    if parts == [] then ""
    else if |parts| == 1 then parts[0]
    else parts[0] + ", " + Join(parts[1..])
  }

  /** `str(v)`, which is also what `f"{v}"` inserts. */
  function PyStr(v: Json): (r: string)
    ensures v.Str? ==> r == v.s
  {
    match v
    case Str(s) => s
    case List(_) => Repr(v)
    case Object(_) => Repr(v)
    case _ => ScalarText(v)
  }

  /** The numeric value of a number or a boolean; what `>=` compares. */
  function Number(v: Json): real
    requires v.Bool? || v.Int? || v.Float?
  {
    match v
    case Bool(b) => if b then 1.0 else 0.0
    case Int(i) => i as real
    case Float(m, e) => FloatValue(m, e)
  }

  predicate IsNumber(v: Json) { v.Bool? || v.Int? || v.Float? }

  /** `v >= bound` for a numeric bound: anything but a number or a boolean raises TypeError. */
  function AtLeast(v: Json, bound: real): (r: Result<bool>)
    ensures r.Raised? <==> !IsNumber(v)
    ensures r.Raised? ==> r.error == TypeError
    ensures r.Ok? ==> (r.value <==> bound <= Number(v))
  {
    if IsNumber(v) then Ok(bound <= Number(v)) else Raised(TypeError)
  }

  /** `float(v)`. */
  function ToFloat(v: Json): (r: Result<real>)
    ensures IsNumber(v) ==> r == Ok(Number(v))
    ensures r.Raised? ==> (r.error == ValueError <==> v.Str?)
  {
    match v
    case Str(s) => (match ParseDecimal(s) case Some(x) => Ok(x) case None => Raised(ValueError))
    case Null => Raised(TypeError)
    case List(_) => Raised(TypeError)
    case Object(_) => Raised(TypeError)
    case _ => Ok(Number(v))
  }

  /** `int(v)`: a float is truncated toward zero. */
  function ToInt(v: Json): (r: Result<int>)
    ensures r.Raised? ==> (r.error == ValueError <==> v.Str?)
    ensures v.Int? ==> r == Ok(v.i)
  {
    match v
    case Bool(b) => Ok(if b then 1 else 0)
    case Int(i) => Ok(i)
    case Float(m, e) => Ok(Truncate(m, e))
    case Str(s) => (match ParseInteger(s) case Some(i) => Ok(i) case None => Raised(ValueError))
    case _ => Raised(TypeError)
  }

  /** m * 10^-e rounded toward zero: the whole units of |m| / 10^e, with the sign of m. */
  function Truncate(m: int, e: nat): (r: int)
    ensures 0 <= m ==> 0 <= r && WholeUnits(r, m, Pow10(e))
    ensures m < 0 ==> r <= 0 && WholeUnits(-r, -m, Pow10(e))
  {
    var p := Pow10(e);
    var n := if m < 0 then -m else m;
    QuotientIsWholeUnits(n, p);
    var q: nat := n / p;
    if m < 0 then -(q as int) else q
  }

  /** q whole units of size p fit in n, and q + 1 do not. */
  predicate WholeUnits(q: nat, n: nat, p: nat)
  {
    q * p <= n < (q + 1) * p
  }

  lemma QuotientIsWholeUnits(n: nat, p: nat)
    requires 0 < p
    ensures 0 <= n / p && WholeUnits(n / p, n, p)
  {
    assert n == (n / p) * p + n % p;
    assert (n / p + 1) * p == (n / p) * p + p;
  }

  /** `format(v, ',')`: numbers grouped by threes; a string raises ValueError (',' is
      not a string format), other values TypeError. */
  function FormatComma(v: Json): (r: Result<string>)
    ensures r.Ok? <==> IsNumber(v)
    ensures r.Raised? ==> (r.error == ValueError <==> v.Str?)
    ensures v.Int? ==> r.Ok? && SignedGrouped(r.value)
  {
    match v
    case Bool(b) => Ok(if b then "1" else "0")
    case Int(i) => IntGroupedByThrees(i); Ok(IntGrouped(i))
    case Float(m, e) => Ok(FloatText(m, e, true))
    case Str(_) => Raised(ValueError)
    case _ => Raised(TypeError)
  }

  /** `len(v) > 0`: only strings, lists and dicts have a length. */
  function NonEmpty(v: Json): (r: Result<bool>)
    ensures r.Ok? <==> (v.Str? || v.List? || v.Object?)
    ensures r.Ok? ==> r.value == Truthy(v)
  {
    match v
    case Str(s) => Ok(|s| > 0)
    case List(items) => Ok(|items| > 0)
    case Object(fields) => Ok(|fields| > 0)
    case _ => Raised(TypeError)
  }

  /** `v[0]`: a dict has no key 0 (JSON keys are strings). */
  function First(v: Json): (r: Result<Json>)
    ensures v.List? && v.items != [] ==> r == Ok(v.items[0])
    ensures r.Raised? ==> (r.error == IndexError <==> (v.List? || v.Str?) && !Truthy(v))
  {
    match v
    case List(items) => if items == [] then Raised(IndexError) else Ok(items[0])
    case Str(s) => if s == [] then Raised(IndexError) else Ok(Str([s[0]]))
    case Object(_) => Raised(KeyError)
    case _ => Raised(TypeError)
  }

  /** The elements of `v[:3]` in iteration order: a string slice iterates as
      one-character strings. */
  function FirstThree(v: Json): (r: Result<seq<Json>>)
    ensures r.Ok? <==> (v.List? || v.Str?)
    ensures v.List? ==> r == Ok(if |v.items| <= 3 then v.items else v.items[..3])
    ensures r.Ok? ==> |r.value| <= 3
  {
    match v
    case List(items) => Ok(if |items| <= 3 then items else items[..3])
    case Str(s) =>
      var t := if |s| <= 3 then s else s[..3];
      Ok(seq(|t|, k requires 0 <= k < |t| => Str([t[k]])))
    case _ => Raised(TypeError)
  }

  // ---------------------------------------------------------------------------
  // Reading back what `str` prints

  /** `float(str(v)) == v` for every number. */
  lemma StrReadsBackAsFloat(v: Json)
    requires v.Int? || v.Float?
    ensures ToFloat(Str(PyStr(v))) == Ok(Number(v))
  {
    match v
    case Int(i) =>
      IntTextReadsBackAsDecimal(i);
    case Float(m, e) =>
      FloatTextReadsBack(m, e);
  }

  /** `int(str(i)) == i`. */
  lemma StrReadsBackAsInt(i: int)
    ensures ToInt(Str(PyStr(Int(i)))) == Ok(i)
  {
    IntTextReadsBack(i);
  }
}
