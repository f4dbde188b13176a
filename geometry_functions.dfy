/**
 * The geometry-function registry: named functions that derive a geometry to
 * style (a centre point, the start or end point of a line, an arc) together
 * with the type of geometry they produce.
 */
module GeometryFunctions {
  import opened Wrappers

  /** A handle to the JavaScript function that computes the derived geometry (not interpreted here). */
  datatype FunctionRef = FunctionRef(name: string)

  /** A registered function and the geometry type it yields. */
  datatype GeometryFunction = GeometryFunction(func: FunctionRef, geometryType: string)

  /** The fields `getGeometryFunction` can read from a registered entry. */
  datatype Item = FuncItem | TypeItem

  datatype ItemValue = Func(func: FunctionRef) | TypeName(name: string)

  /** The four functions registered from the start. */
  const DefaultGeometryFunctions: map<string, GeometryFunction> := map[
    "centerPoint" := GeometryFunction(FunctionRef("centerPoint"), "Point"),
    "lineToArc" := GeometryFunction(FunctionRef("lineToArc"), "LineString"),
    "startPoint" := GeometryFunction(FunctionRef("startPoint"), "Point"),
    "endPoint" := GeometryFunction(FunctionRef("endPoint"), "Point")
  ]

  const RegisterGeometryError: string := "specify all the params: functionName, func, type"

  /** The registry object `geometryFunctions`. */
  class GeometryRegistry {
    var functions: map<string, GeometryFunction>

    constructor ()
      ensures functions == DefaultGeometryFunctions
    {
      functions := DefaultGeometryFunctions;
    }

    /** `registerGeometryFunctions(functionName, func, type)`: adds or replaces the entry;
        throws, changing nothing, when any of the three is missing. */
    method RegisterGeometryFunctions(functionName: Option<string>, func: Option<FunctionRef>, geometryType: Option<string>)
      returns (r: Outcome)
      modifies this
      ensures r.Pass? <==> functionName.Some? && func.Some? && geometryType.Some?
      ensures r.Fail? ==> r.message == RegisterGeometryError && functions == old(functions)
      ensures r.Pass? ==>
        functions == old(functions)[functionName.value := GeometryFunction(func.value, geometryType.value)]
    {
      if functionName.Some? && func.Some? && geometryType.Some? {
        functions := functions[functionName.value := GeometryFunction(func.value, geometryType.value)];
        r := Pass;
      } else {
        r := Fail(RegisterGeometryError);
      }
    }

    /** `getGeometryFunction(functionName, item)`: the item of the named entry, undefined when unregistered. */
    function GetGeometryFunction(functionName: string, item: Item): (r: Option<ItemValue>)
      reads this
      ensures r.None? <==> functionName !in functions
      ensures r.Some? && item == TypeItem ==> r.value == TypeName(functions[functionName].geometryType)
      ensures r.Some? && item == FuncItem ==> r.value == Func(functions[functionName].func)
    {
      if functionName !in functions then None
      else if item == TypeItem then Some(TypeName(functions[functionName].geometryType))
      else Some(Func(functions[functionName].func))
    }
  }

  /** The initial registry has exactly four entries: three yielding a Point and `lineToArc` a LineString. */
  lemma DefaultFunctions()
    ensures |DefaultGeometryFunctions| == 4
    ensures DefaultGeometryFunctions.Keys == {"centerPoint", "startPoint", "endPoint", "lineToArc"}
    ensures forall name :: name in {"centerPoint", "startPoint", "endPoint"} ==>
      DefaultGeometryFunctions[name].geometryType == "Point"
    ensures DefaultGeometryFunctions["lineToArc"].geometryType == "LineString"
  {
    assert DefaultGeometryFunctions.Keys == {"centerPoint", "startPoint", "endPoint", "lineToArc"};
  }

  /** The registration test: an unregistered name reads as undefined, after registration it
      reads as its type, and registering without a type throws. */
  method RegisterFirstLine(func: FunctionRef)
    returns (before: Option<ItemValue>, after: Option<ItemValue>, withoutType: Outcome)
    ensures before == None
    ensures after == Some(TypeName("LineString"))
    ensures withoutType == Fail(RegisterGeometryError)
  {
    var registry := new GeometryRegistry();
    before := registry.GetGeometryFunction("firstLine", TypeItem);
    var ok := registry.RegisterGeometryFunctions(Some("firstLine"), Some(func), Some("LineString"));
    after := registry.GetGeometryFunction("firstLine", TypeItem);
    withoutType := registry.RegisterGeometryFunctions(Some("firstLine"), Some(func), None);
  }
}
