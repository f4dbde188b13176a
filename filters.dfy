/**
 * `geoStylerStyleFilter`: evaluation of a rule's filter expression against a
 * feature's properties. A filter is a comparison `[op, field, value]` or a
 * logical node `['||' | '&&', child, ...]`.
 */
module Filters {
  import opened Wrappers
  import opened JsValues
  import opened Strings
  import opened Features

  /** `==`, `!=`, `>=`, `<=`, `<`, `>` and `*=` (substring). */
  datatype CmpOp = Eq | Ne | Ge | Le | Lt | Gt | Like

  /** `||` and `&&`. */
  datatype LogicOp = Or | And

  datatype Filter =
    | Comparison(op: CmpOp, field: string, value: Value)
    | Logical(lop: LogicOp, children: seq<Filter>)

  /** JavaScript `<` on two strings: lexicographic on characters, a proper prefix is smaller. */
  predicate StrLess(a: string, b: string)
  {
    if a == [] then b != []
    else if b == [] then false
    else if a[0] != b[0] then a[0] < b[0]
    else StrLess(a[1..], b[1..])
  }

  /** `prop < value`: numbers by value, strings lexicographically; other pairs compare false. */
  predicate Below(prop: Value, value: Value)
  {
    (prop.Num? && value.Num? && Less(prop.n, value.n))
    || (prop.Str? && value.Str? && StrLess(prop.s, value.s))
  }

  /** One comparison of a property value against the filter's value. */
  predicate Compare(op: CmpOp, prop: Value, value: Value)
  {
    match op
    case Eq => prop == value
    case Ne => prop != value
    case Lt => Below(prop, value)
    case Gt => Below(value, prop)
    case Le => Below(prop, value) || (prop == value && (prop.Num? || prop.Str?))
    case Ge => Below(value, prop) || (prop == value && (prop.Num? || prop.Str?))
    case Like => prop.Str? && value.Str? && Contains(prop.s, value.s)
  }

  /** The boolean reduction of the children's results: `||` of none is false, `&&` of none is true. */
  function Reduce(lop: LogicOp, results: seq<bool>): bool
  {
    if results == [] then lop == And
    else if lop == Or then results[0] || Reduce(lop, results[1..])
    else results[0] && Reduce(lop, results[1..])
  }

  /** `geoStylerStyleFilter(feature, filter)`; every child of a logical node is evaluated. */
  function GeoStylerStyleFilter(feature: Feature, filter: Filter): bool
    decreases filter
  {
    match filter
    case Comparison(op, field, value) => Compare(op, Get(feature.properties, field), value)
    case Logical(lop, children) =>
      Reduce(lop, seq(|children|, i requires 0 <= i < |children| => GeoStylerStyleFilter(feature, children[i])))
  }

  /** `||` reduces to "some result is true", `&&` to "every result is true". */
  lemma {:induction false} ReduceMeaning(lop: LogicOp, results: seq<bool>)
    ensures lop == Or ==> (Reduce(lop, results) <==> exists i :: 0 <= i < |results| && results[i])
    ensures lop == And ==> (Reduce(lop, results) <==> forall i :: 0 <= i < |results| ==> results[i])
  {
    if results != [] {
      ReduceMeaning(lop, results[1..]);
      assert forall i :: 1 <= i < |results| ==> results[i] == results[1..][i - 1];
    }
  }

  /** A logical node combines its children: `||` holds iff some child holds, `&&` iff all do. */
  lemma LogicalMeaning(feature: Feature, lop: LogicOp, children: seq<Filter>)
    ensures lop == Or ==> (GeoStylerStyleFilter(feature, Logical(lop, children)) <==>
      exists i :: 0 <= i < |children| && GeoStylerStyleFilter(feature, children[i]))
    ensures lop == And ==> (GeoStylerStyleFilter(feature, Logical(lop, children)) <==>
      forall i :: 0 <= i < |children| ==> GeoStylerStyleFilter(feature, children[i]))
  {
    var results := seq(|children|, i requires 0 <= i < |children| => GeoStylerStyleFilter(feature, children[i]));
    assert GeoStylerStyleFilter(feature, Logical(lop, children)) == Reduce(lop, results);
    ReduceMeaning(lop, results);
    assert forall i :: 0 <= i < |children| ==> results[i] == GeoStylerStyleFilter(feature, children[i]);
  }

  /** `*=` is substring containment: it holds iff the property is a string in which the value
      occurs somewhere; a property that is not a string never matches. */
  lemma LikeMeaning(feature: Feature, field: string, needle: string)
    ensures GeoStylerStyleFilter(feature, Comparison(Like, field, Str(needle))) <==>
      Get(feature.properties, field).Str? && OccursIn(needle, Get(feature.properties, field).s)
  {
    if Get(feature.properties, field).Str? {
      ContainsIff(Get(feature.properties, field).s, needle);
    }
  }

  /** On numbers the six comparisons are the usual ones and each is the negation of its opposite. */
  lemma NumericComparisons(feature: Feature, field: string, x: Number)
    requires Get(feature.properties, field).Num?
    ensures var p := Get(feature.properties, field).n;
      && (GeoStylerStyleFilter(feature, Comparison(Eq, field, Num(x))) <==> SameValue(p, x))
      && (GeoStylerStyleFilter(feature, Comparison(Ne, field, Num(x))) <==> !SameValue(p, x))
      && (GeoStylerStyleFilter(feature, Comparison(Lt, field, Num(x))) <==> Less(p, x))
      && (GeoStylerStyleFilter(feature, Comparison(Gt, field, Num(x))) <==> Less(x, p))
      && (GeoStylerStyleFilter(feature, Comparison(Ge, field, Num(x))) <==> !Less(p, x))
      && (GeoStylerStyleFilter(feature, Comparison(Le, field, Num(x))) <==> !Less(x, p))
  {
    var p := Get(feature.properties, field).n;
    SameValueIff(p, x);
    Trichotomy(p, x);
  }

  /** A property the feature does not have reads as undefined: it equals no number or string,
      so `==`, `<`, `>`, `<=`, `>=` and `*=` are false and `!=` is true. */
  lemma MissingProperty(feature: Feature, field: string, op: CmpOp, value: Value)
    requires field !in feature.properties
    requires value.Num? || value.Str?
    ensures GeoStylerStyleFilter(feature, Comparison(op, field, value)) <==> op == Ne
  {
  }

  /** The filter tests on the feature `{count: 10, name: 'Abc'}`. */
  lemma SampleFeatureFilters()
    ensures var f := Feature(map["count" := Num(Int(10)), "name" := Str("Abc")], Undefined, None);
      && GeoStylerStyleFilter(f, Comparison(Eq, "count", Num(Int(10))))
      && !GeoStylerStyleFilter(f, Comparison(Ne, "count", Num(Int(10))))
      && GeoStylerStyleFilter(f, Comparison(Ge, "count", Num(Int(10))))
      && GeoStylerStyleFilter(f, Comparison(Le, "count", Num(Int(10))))
      && !GeoStylerStyleFilter(f, Comparison(Lt, "count", Num(Int(10))))
      && !GeoStylerStyleFilter(f, Comparison(Gt, "count", Num(Int(10))))
      && GeoStylerStyleFilter(f, Comparison(Like, "name", Str("A")))
      && !GeoStylerStyleFilter(f, Comparison(Like, "name", Str("d")))
      && !GeoStylerStyleFilter(f, Logical(Or, [Comparison(Like, "name", Str("d")), Comparison(Lt, "count", Num(Int(10)))]))
      && GeoStylerStyleFilter(f, Logical(Or, [Comparison(Like, "name", Str("d")), Comparison(Le, "count", Num(Int(10)))]))
      && !GeoStylerStyleFilter(f, Logical(And, [Comparison(Like, "name", Str("d")), Comparison(Le, "count", Num(Int(10)))]))
      && GeoStylerStyleFilter(f, Logical(And, [Comparison(Like, "name", Str("A")), Comparison(Le, "count", Num(Int(10)))]))
  {
    var f := Feature(map["count" := Num(Int(10)), "name" := Str("Abc")], Undefined, None);
    assert Contains("Abc", "A");
    assert "Abc"[1..] == "bc" && "bc"[1..] == "c" && "c"[1..] == "";
    assert !Contains("", "d");
    assert !("d" <= "c") && !("d" <= "bc") && !("d" <= "Abc");
    assert !Contains("c", "d") && !Contains("bc", "d") && !Contains("Abc", "d");
    var likeD, likeA := Comparison(Like, "name", Str("d")), Comparison(Like, "name", Str("A"));
    var lt, le := Comparison(Lt, "count", Num(Int(10))), Comparison(Le, "count", Num(Int(10)));
    LogicalMeaning(f, Or, [likeD, lt]);
    LogicalMeaning(f, Or, [likeD, le]);
    LogicalMeaning(f, And, [likeD, le]);
    LogicalMeaning(f, And, [likeA, le]);
  }
}
