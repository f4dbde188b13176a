/**
 * The JavaScript values that flat styles, feature properties, actions and the
 * map state are made of. Numbers are finite decimals kept in canonical form
 * (no trailing zero in the fraction), so that two numbers are equal as values
 * exactly when they are the same number.
 */
module JsValues {

  /** 10 to the power `n`. */
  function Pow10(n: nat): (r: nat)
    ensures r >= 1
    ensures n > 0 ==> r % 10 == 0
  {
    if n == 0 then 1 else 10 * Pow10(n - 1)
  }

  lemma {:induction false} Pow10Add(a: nat, b: nat)
    ensures Pow10(a + b) == Pow10(a) * Pow10(b)
  {
    if a > 0 {
      Pow10Add(a - 1, b);
      assert Pow10(a + b) == 10 * Pow10(a - 1 + b);
    }
  }

  /** `mantissa / 10^scale`. */
  datatype Decimal = Decimal(mantissa: int, scale: nat)

  /** A decimal written without trailing zeros after the point: the canonical spelling of a number. */
  predicate Canonical(d: Decimal)
  {
    d.scale == 0 || d.mantissa % 10 != 0
  }

  type Number = d: Decimal | Canonical(d) witness Decimal(0, 0)

  /** The integer `n` as a number. */
  function Int(n: int): Number
  {
    Decimal(n, 0)
  }

  /** `a` and `b` denote the same rational value. */
  predicate SameValue(a: Decimal, b: Decimal)
  {
    a.mantissa * Pow10(b.scale) == b.mantissa * Pow10(a.scale)
  }

  /** Numeric `a < b`. */
  predicate Less(a: Decimal, b: Decimal)
  {
    a.mantissa * Pow10(b.scale) < b.mantissa * Pow10(a.scale)
  }

  /** Multiplying a canonical mantissa with a positive scale by a power of ten leaves a trailing zero. */
  lemma {:induction false} ScaledHasZero(m: int, k: nat)
    requires k > 0
    ensures (m * Pow10(k)) % 10 == 0
  {
    assert Pow10(k) == 10 * Pow10(k - 1);
    assert m * Pow10(k) == 10 * (m * Pow10(k - 1));
  }

  /** Two canonical numbers with different scales never denote the same value. */
  lemma DifferentScales(a: Number, b: Number)
    requires a.scale < b.scale
    ensures !SameValue(a, b)
  {
    var k: nat := b.scale - a.scale;
    var pa, pk := Pow10(a.scale), Pow10(k);
    Pow10Add(a.scale, k);
    assert Pow10(b.scale) == pa * pk;
    if SameValue(a, b) {
      assert a.mantissa * (pa * pk) == b.mantissa * pa;
      assert (a.mantissa * pk) * pa == b.mantissa * pa;
      CancelRight(a.mantissa * pk, b.mantissa, pa);
      ScaledHasZero(a.mantissa, k);
    }
  }

  /** Canonical numbers are equal exactly when they denote the same value. */
  lemma SameValueIff(a: Number, b: Number)
    ensures SameValue(a, b) <==> a == b
  {
    if a.scale < b.scale {
      DifferentScales(a, b);
    } else if b.scale < a.scale {
      DifferentScales(b, a);
    } else {
      if SameValue(a, b) {
        CancelRight(a.mantissa, b.mantissa, Pow10(a.scale));
      }
    }
  }

  lemma CancelRight(x: int, y: int, p: int)
    requires p > 0 && x * p == y * p
    ensures x == y
  {
    if x != y {
      MulStrict(if x < y then x else y, if x < y then y else x, p);
    }
  }

  lemma MulStrict(x: int, y: int, p: int)
    requires p > 0 && x < y
    ensures x * p < y * p
  {
    assert y * p - x * p == (y - x) * p;
  }

  /** Numeric order is a strict total order on numbers: exactly one of less, equal, greater. */
  lemma Trichotomy(a: Number, b: Number)
    ensures Less(a, b) || a == b || Less(b, a)
    ensures !(Less(a, b) && Less(b, a))
    ensures a == b ==> !Less(a, b)
  {
    SameValueIff(a, b);
  }

  /** `n + 1`. */
  function AddOne(n: Number): (r: Number)
    ensures SameValue(r, Decimal(n.mantissa + Pow10(n.scale), n.scale))
    ensures Less(n, r)
  {
    var r := Decimal(n.mantissa + Pow10(n.scale), n.scale);
    assert n.scale > 0 ==> r.mantissa % 10 == n.mantissa % 10;
    r
  }

  /** A JavaScript value. `Obj` holds an object's own enumerable properties. */
  datatype Value =
    | Undefined
    | Null
    | Bool(b: bool)
    | Num(n: Number)
    | Str(s: string)
    | Arr(items: seq<Value>)
    | Obj(fields: map<string, Value>)

  /** The properties of a plain object (a flat style, a feature's properties, the map state). */
  type Fields = map<string, Value>

  /** Reading `m[k]`: the stored value, or `undefined` when the key is absent. */
  function Get(m: Fields, k: string): (v: Value)
    ensures k !in m ==> v == Undefined
    ensures k in m ==> v == m[k]
  {
    if k in m then m[k] else Undefined
  }

  /** Reading `v.k` on a value that is not null or undefined: objects give their property, other values `undefined`. */
  function Prop(v: Value, k: string): Value
  {
    match v
    case Obj(m) => Get(m, k)
    case _ => Undefined
  }

  /** `v == null` (undefined or null). */
  predicate Nullish(v: Value)
  {
    v.Undefined? || v.Null?
  }

  /** JavaScript truthiness. */
  predicate Truthy(v: Value)
  {
    match v
    case Undefined => false
    case Null => false
    case Bool(b) => b
    case Num(n) => n.mantissa != 0
    case Str(s) => s != ""
    case Arr(_) => true
    case Obj(_) => true
  }

  /** `a || b` on values. */
  function Or(a: Value, b: Value): Value
  {
    if Truthy(a) then a else b
  }

  /** `Object.assign({}, v)` contributes nothing for a value that is not an object. */
  function OwnFields(v: Value): Fields
  {
    match v
    case Obj(m) => m
    case _ => map[]
  }

  /** The decimal digits of a natural number. */
  function NatText(n: nat): (s: string)
    ensures |s| >= 1
    ensures forall i :: 0 <= i < |s| ==> '0' <= s[i] <= '9'
  {
    if n < 10 then [Digit(n)] else NatText(n / 10) + [Digit(n % 10)]
  }

  function Digit(d: nat): (c: char)
    requires d < 10
    ensures '0' <= c <= '9'
  {
    "0123456789"[d]
  }

  /** `String(n)` for a number, in positional notation. */
  function NumberText(n: Number): string
  {
    var sign := if n.mantissa < 0 then "-" else "";
    var m := Abs(n.mantissa);
    if n.scale == 0 then sign + NatText(m)
    else
      var p := Pow10(n.scale);
      sign + NatText(Quot(m, p)) + "." + ZeroPad(NatText(Rem(m, p)), n.scale)
  }

  function Abs(x: int): nat
  {
    if x < 0 then -x else x
  }

  function Quot(x: nat, p: nat): nat
    requires p > 0
  {
    x / p
  }

  function Rem(x: nat, p: nat): nat
    requires p > 0
  {
    x % p
  }

  /** `s` with leading zeros up to `width` characters. */
  function ZeroPad(s: string, width: nat): string
    decreases width - |s|
  {
    if |s| >= width then s else ZeroPad("0" + s, width)
  }

  /** `String(v)`, which is also what a template literal `${v}` inserts. */
  function Text(v: Value): string
  {
    match v
    case Undefined => "undefined"
    case Null => "null"
    case Bool(b) => if b then "true" else "false"
    case Num(n) => NumberText(n)
    case Str(s) => s
    case Arr(items) => ItemsText(items)
    case Obj(_) => "[object Object]"
  }

  /** `items.join(",")`, in which undefined and null items print as "". */
  function ItemsText(items: seq<Value>): string
    decreases items
  {
    if |items| == 0 then ""
    else
      var first := if Nullish(items[0]) then "" else Text(items[0]);
      if |items| == 1 then first else first + "," + ItemsText(items[1..])
  }
}
