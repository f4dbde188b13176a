/**
 * The `mapConfig` reducer of the map state: one switch over the action's type
 * that returns a new state record built with `Object.assign({}, state, …)`,
 * the old state, `null`, or a JavaScript `TypeError` (a property read on
 * `null`, a spread of a non-iterable, a call of a missing `filter`/`split`).
 */
module MapReducer {
  import opened Wrappers
  import opened JsValues
  import Strings

  /** The action types the reducer switches on; any other type falls to the default case. */
  datatype ActionType =
    | ChangeMapView | ChangeMousePointer | ChangeZoomLvl | ChangeMapCrs | ChangeMapScales
    | PanTo | ChangeMapStyle | ChangeRotation | UpdateVersion | ZoomToPoint | ResizeMap
    | ChangeMapLimits | SetMapResolutions | RegisterEventListener | UnregisterEventListener
    | Orientation | UpdateMapView
    | OtherAction(name: string)

  /** An action: its type and its other properties. */
  datatype Action = Action(kind: ActionType, fields: Fields)

  /** The computations the reducer delegates to code outside this model:
      `CoordinatesUtils.reproject(point, source, 'EPSG:4326')`,
      `MapUtils.getResolutionsForScales(scales, projection, dpi)`, `parseFloat`, and whether a
      text converts to a number (so that `isNaN` of it is false). */
  datatype Env = Env(
    reproject: (Value, Value) -> Value,
    resolutionsForScales: (Value, Value, Value) -> Value,
    parseFloat: Value -> Value,
    isNumericText: string -> bool)

  /** The reducer's outcome: the next state (`None` is `null`), or a thrown `TypeError`. */
  datatype Reduced = Next(state: Option<Fields>) | TypeError

  /** The state the reducer starts from when it is given none. */
  const InitialState: Fields := map["eventListeners" := Obj(map[])]

  /** `state.k` on a state that may be null, read only where the source guards it with `state &&`. */
  function StateGet(state: Option<Fields>, k: string): Value
  {
    if state.Some? then Get(state.value, k) else Undefined
  }

  /** `Object.assign({}, state, update)`: the update's keys win, a null state contributes nothing. */
  function Assign(state: Option<Fields>, update: Fields): (r: Fields)
    ensures r.Keys == update.Keys + (if state.Some? then state.value.Keys else {})
    ensures forall k :: Get(r, k) == if k in update then update[k] else StateGet(state, k)
  {
    (if state.Some? then state.value else map[]) + update
  }

  /** `isNaN(v)`: `undefined` and non-numeric texts are not numbers; `null` and booleans convert to 0 or 1. */
  predicate IsNaN(env: Env, v: Value)
  {
    match v
    case Undefined => true
    case Null => false
    case Bool(_) => false
    case Num(_) => false
    case _ => !env.isNumericText(Text(v))
  }

  /** `v + 1` for a truthy `v`: numbers add, `true` counts as 1, anything else concatenates "1". */
  function PlusOne(v: Value): Value
  {
    match v
    case Num(n) => Num(AddOne(n))
    case Bool(_) => Num(Int(2))
    case Str(s) => Str(s + "1")
    case _ => Str(Text(v) + "1")
  }

  /** `resize ? resize + 1 : 1`. */
  function NextResize(resize: Value): (r: Value)
    ensures !Truthy(resize) ==> r == Num(Int(1))
    ensures resize.Num? && Truthy(resize) ==> r.Num? && Less(resize.n, r.n)
  {
    if Truthy(resize) then PlusOne(resize) else Num(Int(1))
  }

  /** The elements of `[...v]`: an array's items or a string's characters; other values throw. */
  function Spread(v: Value): Option<seq<Value>>
  {
    match v
    case Arr(items) => Some(items)
    case Str(s) => Some(seq(|s|, i requires 0 <= i < |s| => Str([s[i]])))
    case _ => None
  }

  /** `items.filter(t => t !== x)`. */
  function Without(items: seq<Value>, x: Value): (r: seq<Value>)
    ensures |r| <= |items|
    ensures forall y :: y in r <==> y in items && y != x
    ensures x !in items ==> r == items
  {
    if items == [] then []
    else if items[0] == x then Without(items[1..], x)
    else [items[0]] + Without(items[1..], x)
  }

  /** Filtering drops every occurrence of the tool and keeps every other tool as many times as it
      occurred. */
  lemma {:induction false} WithoutCounts(items: seq<Value>, x: Value)
    ensures multiset(Without(items, x)) == multiset(items)[x := 0]
  {
    if items != [] {
      WithoutCounts(items[1..], x);
      assert items == [items[0]] + items[1..];
    }
  }

  /** The filter works item by item: filtering a concatenation is the concatenation of the
      filtered parts, so the kept tools stay in their order. */
  lemma {:induction false} WithoutConcat(a: seq<Value>, b: seq<Value>, x: Value)
    ensures Without(a + b, x) == Without(a, x) + Without(b, x)
  {
    if a != [] {
      assert (a + b)[1..] == a[1..] + b;
      WithoutConcat(a[1..], b, x);
    } else {
      assert a + b == b;
    }
  }

  /** `v?.split(',')`: undefined for null or undefined, the parts of a string, and a `TypeError`
      (`None`) for any other value, which has no `split` to call. */
  function SplitOnComma(v: Value): Option<Value>
  {
    if Nullish(v) then Some(Undefined)
    else if v.Str? then Some(Arr(seq(|Strings.Split(v.s, ',')|, i requires 0 <= i < |Strings.Split(v.s, ',')| =>
                                       Str(Strings.Split(v.s, ',')[i]))))
    else None
  }

  /** `v[i]`: an array's item, an object's property named by the index, otherwise undefined. */
  function Index(v: Value, i: nat): Value
  {
    match v
    case Arr(items) => if i < |items| then items[i] else Undefined
    case Obj(m) => Get(m, NatText(i))
    case _ => Undefined
  }

  /** `orientation?.center?.split(',') || orientation?.marker?.split(',')`. */
  function OrientationCenter(o: Value): Option<Value>
  {
    var c := SplitOnComma(Prop(o, "center"));
    if c.None? then None
    else if Truthy(c.value) then c
    else SplitOnComma(Prop(o, "marker"))
  }

  /** The `ORIENTATION` guard: `action.orientation && (action.orientation.center || action.orientation.marker)`. */
  predicate HasOrientationTarget(o: Value)
  {
    Truthy(o) && (Truthy(Prop(o, "center")) || Truthy(Prop(o, "marker")))
  }

  /** The `CHANGE_MAP_SCALES` clean-up: a copy of the state without `mapOptions.view.resolutions`,
      then without `view` if it became empty, then without `mapOptions` if that became empty. */
  function WithoutResolutions(s: Fields): Fields
  {
    var mapOptions := OwnFields(Get(s, "mapOptions"));
    var view := OwnFields(Get(mapOptions, "view")) - {"resolutions"};
    var mapOptions' := if |view| == 0 then mapOptions - {"view"} else mapOptions["view" := Obj(view)];
    if |mapOptions'| == 0 then s - {"mapOptions"} else s["mapOptions" := Obj(mapOptions')]
  }

  /** `mapConfig(state, action)`. */
  function MapConfig(env: Env, state: Option<Fields>, action: Action): (r: Reduced)
    ensures state.Some? && r.Next? && r.state.Some? && action.kind != UpdateMapView && action.kind != ChangeMapScales
            ==> state.value.Keys <= r.state.value.Keys
  {
    var f := action.fields;
    match action.kind
    case ChangeMapView =>
      var params := f - {"type"};
      var zoom := if IsNaN(env, Get(params, "zoom")) then Num(Int(1)) else Get(params, "zoom");
      Next(Some(Assign(state, params["zoom" := zoom])))
    case ChangeMousePointer =>
      Next(Some(Assign(state, map["mousePointer" := Get(f, "pointer")])))
    case ChangeZoomLvl =>
      Next(Some(Assign(state, map["zoom" := Get(f, "zoom"), "mapStateSource" := Get(f, "mapStateSource")])))
    case ChangeMapLimits =>
      var limits := map["restrictedExtent" := Get(f, "restrictedExtent"), "crs" := Get(f, "crs"),
                        "minZoom" := Get(f, "minZoom")];
      Next(Some(Assign(state, map["limits" := Obj(limits)])))
    case ChangeMapCrs =>
      Next(Some(Assign(state, map["projection" := Get(f, "crs")])))
    case ChangeMapScales =>
      var scales := Get(f, "scales");
      var mapOptions := StateGet(state, "mapOptions");
      var view := if Truthy(mapOptions) then Prop(mapOptions, "view") else Undefined;
      if Truthy(scales) then
        var dpi := Or(if Truthy(view) then Prop(view, "DPI") else Undefined, Null);
        var projection := Or(StateGet(state, "projection"), Str("EPSG:4326"));
        var resolutions := env.resolutionsForScales(scales, projection, dpi);
        var view' := OwnFields(view) + map["resolutions" := resolutions, "scales" := scales];
        Next(Some(Assign(state, map["mapOptions" := Obj(OwnFields(mapOptions)["view" := Obj(view')])])))
      else if state.Some? && Truthy(mapOptions) && Truthy(view) && Truthy(Prop(view, "resolutions")) then
        Next(Some(WithoutResolutions(state.value)))
      else Next(state)
    case SetMapResolutions =>
      Next(Some(Assign(state, map["resolutions" := Get(f, "resolutions")])))
    case ZoomToPoint =>
      var center := env.reproject(Get(f, "pos"), Get(f, "crs"));
      Next(Some(Assign(state, map["center" := center, "zoom" := Get(f, "zoom"), "mapStateSource" := Null])))
    case PanTo =>
      var c := Get(f, "center");
      if Nullish(c) then TypeError
      else
        var center := env.reproject(c, Or(Prop(c, "crs"), Str("EPSG:4326")));
        Next(Some(Assign(state, map["center" := center, "mapStateSource" := Null])))
    case ChangeMapStyle =>
      if state.None? then TypeError
      else
        Next(Some(Assign(state, map["mapStateSource" := Get(f, "mapStateSource"), "style" := Get(f, "style"),
                                    "resize" := NextResize(Get(state.value, "resize"))])))
    case ResizeMap =>
      if state.None? then TypeError
      else Next(Some(Assign(state, map["resize" := NextResize(Get(state.value, "resize"))])))
    case ChangeRotation =>
      if state.None? then TypeError
      else
        var bbox := OwnFields(Get(state.value, "bbox"))["rotation" := Get(f, "rotation")];
        Next(Some(Assign(state, map["bbox" := Obj(bbox), "mapStateSource" := Get(f, "mapStateSource")])))
    case UpdateVersion =>
      Next(Some(Assign(state, map["version" := Get(f, "version")])))
    case RegisterEventListener =>
      if state.None? then TypeError
      else
        var listeners := Get(state.value, "eventListeners");
        var name := Text(Get(f, "eventName"));
        var existing := if Truthy(listeners) then Or(Prop(listeners, name), Arr([])) else Arr([]);
        var tools := Spread(existing);
        if tools.None? then TypeError
        else
          var listeners' := OwnFields(listeners)[name := Arr(tools.value + [Get(f, "toolName")])];
          Next(Some(Assign(state, map["eventListeners" := Obj(listeners')])))
    case UnregisterEventListener =>
      if state.None? || !Truthy(Get(state.value, "eventListeners")) then Next(state)
      else
        var listeners := Get(state.value, "eventListeners");
        var name := Text(Get(f, "eventName"));
        var tools := Prop(listeners, name);
        if !tools.Arr? then TypeError
        else
          var listeners' := OwnFields(listeners)[name := Arr(Without(tools.items, Get(f, "toolName")))];
          Next(Some(Assign(state, map["eventListeners" := Obj(listeners')])))
    case Orientation =>
      var o := Get(f, "orientation");
      if !HasOrientationTarget(o) then Next(None)
      else
        var center := OrientationCenter(o);
        if center.None? then TypeError
        else
          var c := center.value;
          var x := if Truthy(c) then Index(c, 0) else c;
          var y := if Truthy(c) then Index(c, 1) else c;
          var orientate := map["x" := x, "y" := y, "z" := Prop(o, "zoom"), "heading" := Prop(o, "heading"),
                               "pitch" := Prop(o, "pitch"), "roll" := Prop(o, "roll")];
          Next(Some(Assign(state, map["orientate" := Obj(orientate)])))
    case UpdateMapView =>
      var data := Get(f, "data");
      var coordinate := Prop(data, "coordinate");
      if !Nullish(data) && Nullish(coordinate) then TypeError
      else
        var pf := env.parseFloat;
        var x := pf(if Nullish(data) then Undefined else Index(coordinate, 0));
        var y := pf(if Nullish(data) then Undefined else Index(coordinate, 1));
        var orientation := map["heading" := pf(Prop(data, "heading")), "pitch" := pf(Prop(data, "pitch")),
                               "roll" := pf(Prop(data, "roll"))];
        Next(Some(map["zoom" := pf(Prop(data, "zoom")), "center" := Obj(map["x" := x, "y" := y]),
                      "viewerOptions" := Obj(map["orientation" := Obj(orientation)])]))
    case OtherAction(_) =>
      Next(state)
  }

  /** The reducer called without a state starts from `{eventListeners: {}}`. */
  function MapConfigFromStart(env: Env, action: Action): (r: Reduced)
    ensures r.Next? && r.state.Some? && action.kind != UpdateMapView && action.kind != ChangeMapScales
            ==> "eventListeners" in r.state.value
  {
    MapConfig(env, Some(InitialState), action)
  }

  /** The new state keeps every key of the old one except those in `update`, which it takes from
      `update`, and has no other keys. */
  ghost predicate ChangesOnly(state: Option<Fields>, next: Fields, update: Fields)
  {
    && next.Keys == update.Keys + (if state.Some? then state.value.Keys else {})
    && (forall k :: k !in update ==> Get(next, k) == StateGet(state, k))
    && (forall k :: k in update ==> Get(next, k) == update[k])
  }

  /** The reducer applied `n` times with the same action; a `TypeError` stops the sequence. */
  function Repeat(env: Env, state: Option<Fields>, action: Action, n: nat): Reduced
  {
    if n == 0 then Next(state)
    else
      var r := Repeat(env, state, action, n - 1);
      if r.TypeError? then r else MapConfig(env, r.state, action)
  }

  /** An action of a type the reducer does not handle returns the state it was given; with no
      state that is `{eventListeners: {}}`. */
  lemma UnknownActionKeepsState(env: Env, state: Option<Fields>, name: string, f: Fields)
    ensures MapConfig(env, state, Action(OtherAction(name), f)) == Next(state)
    ensures MapConfigFromStart(env, Action(OtherAction(name), f)) == Next(Some(map["eventListeners" := Obj(map[])]))
  {
  }

  /** `CHANGE_MAP_VIEW` copies every action property except `type` into the state, with a `zoom`
      that is 1 when the action's is missing or not a number; the other keys are kept. */
  lemma ChangeMapViewMerges(env: Env, state: Option<Fields>, f: Fields)
    ensures var r := MapConfig(env, state, Action(ChangeMapView, f));
      && r.Next? && r.state.Some?
      && r.state.value.Keys == (f.Keys - {"type"}) + {"zoom"} + (if state.Some? then state.value.Keys else {})
      && Get(r.state.value, "zoom") == (if IsNaN(env, Get(f, "zoom")) then Num(Int(1)) else Get(f, "zoom"))
      && Get(r.state.value, "type") == StateGet(state, "type")
      && (forall k :: k in f && k != "type" && k != "zoom" ==> Get(r.state.value, k) == f[k])
      && (forall k :: k !in f && k != "zoom" ==> Get(r.state.value, k) == StateGet(state, k))
  {
  }

  /** `CHANGE_MOUSE_POINTER` sets `mousePointer` only. */
  lemma ChangeMousePointerSetsPointer(env: Env, state: Option<Fields>, f: Fields)
    ensures var r := MapConfig(env, state, Action(ChangeMousePointer, f));
      r.Next? && r.state.Some? && ChangesOnly(state, r.state.value, map["mousePointer" := Get(f, "pointer")])
  {
  }

  /** `CHANGE_ZOOM_LVL` sets `zoom` and `mapStateSource` only. */
  lemma ChangeZoomLvlSetsZoom(env: Env, state: Option<Fields>, f: Fields)
    ensures var r := MapConfig(env, state, Action(ChangeZoomLvl, f));
      r.Next? && r.state.Some?
      && ChangesOnly(state, r.state.value, map["zoom" := Get(f, "zoom"), "mapStateSource" := Get(f, "mapStateSource")])
  {
  }

  /** `CHANGE_MAP_LIMITS` replaces `limits` with the action's extent, CRS and minimum zoom. */
  lemma ChangeMapLimitsSetsLimits(env: Env, state: Option<Fields>, f: Fields)
    ensures var r := MapConfig(env, state, Action(ChangeMapLimits, f));
      r.Next? && r.state.Some?
      && ChangesOnly(state, r.state.value, map["limits" := Obj(map["restrictedExtent" := Get(f, "restrictedExtent"),
                                                                   "crs" := Get(f, "crs"), "minZoom" := Get(f, "minZoom")])])
  {
  }

  /** `CHANGE_MAP_CRS` sets `projection` only. */
  lemma ChangeMapCrsSetsProjection(env: Env, state: Option<Fields>, f: Fields)
    ensures var r := MapConfig(env, state, Action(ChangeMapCrs, f));
      r.Next? && r.state.Some? && ChangesOnly(state, r.state.value, map["projection" := Get(f, "crs")])
  {
  }

  /** `SET_MAP_RESOLUTIONS` sets the top-level `resolutions` only. */
  lemma SetMapResolutionsSetsResolutions(env: Env, state: Option<Fields>, f: Fields)
    ensures var r := MapConfig(env, state, Action(SetMapResolutions, f));
      r.Next? && r.state.Some? && ChangesOnly(state, r.state.value, map["resolutions" := Get(f, "resolutions")])
  {
  }

  /** `UPDATE_VERSION` sets `version` only. */
  lemma UpdateVersionSetsVersion(env: Env, state: Option<Fields>, f: Fields)
    ensures var r := MapConfig(env, state, Action(UpdateVersion, f));
      r.Next? && r.state.Some? && ChangesOnly(state, r.state.value, map["version" := Get(f, "version")])
  {
  }

  /** `ZOOM_TO_POINT` and `PAN_TO` set the reprojected `center` and clear `mapStateSource`;
      `PAN_TO` throws when the action has no `center` (it reads `center.crs`). */
  lemma CenteringActions(env: Env, state: Option<Fields>, f: Fields)
    ensures var r := MapConfig(env, state, Action(ZoomToPoint, f));
      r.Next? && r.state.Some?
      && ChangesOnly(state, r.state.value, map["center" := env.reproject(Get(f, "pos"), Get(f, "crs")),
                                               "zoom" := Get(f, "zoom"), "mapStateSource" := Null])
    ensures var r := MapConfig(env, state, Action(PanTo, f));
      && (r.TypeError? <==> Nullish(Get(f, "center")))
      && (r.Next? ==> r.state.Some? && ChangesOnly(state, r.state.value,
            map["center" := env.reproject(Get(f, "center"), Or(Prop(Get(f, "center"), "crs"), Str("EPSG:4326"))),
                "mapStateSource" := Null]))
  {
  }

  /** Reading a property of a null state throws: `CHANGE_MAP_STYLE`, `RESIZE_MAP`, `CHANGE_ROTATION`
      and `REGISTER_EVENT_LISTENER` fail on null, while `UNREGISTER_EVENT_LISTENER` and the
      assigning actions accept it. */
  lemma NullStateActions(env: Env, f: Fields)
    ensures MapConfig(env, None, Action(ChangeMapStyle, f)) == TypeError
    ensures MapConfig(env, None, Action(ResizeMap, f)) == TypeError
    ensures MapConfig(env, None, Action(ChangeRotation, f)) == TypeError
    ensures MapConfig(env, None, Action(RegisterEventListener, f)) == TypeError
    ensures MapConfig(env, None, Action(UnregisterEventListener, f)) == Next(None)
    ensures MapConfig(env, None, Action(UpdateVersion, f)) == Next(Some(map["version" := Get(f, "version")]))
  {
    assert map[] + map["version" := Get(f, "version")] == map["version" := Get(f, "version")];
  }

  /** `RESIZE_MAP` sets `resize` to 1 when it is missing or falsy and to one more when it is a
      number; `CHANGE_MAP_STYLE` does the same while setting `style` and `mapStateSource`. */
  lemma ResizeIncrements(env: Env, s: Fields, f: Fields)
    ensures var r := MapConfig(env, Some(s), Action(ResizeMap, f));
      && r.Next? && r.state.Some?
      && ChangesOnly(Some(s), r.state.value, map["resize" := NextResize(Get(s, "resize"))])
    ensures var r := MapConfig(env, Some(s), Action(ChangeMapStyle, f));
      && r.Next? && r.state.Some?
      && ChangesOnly(Some(s), r.state.value, map["mapStateSource" := Get(f, "mapStateSource"),
                                                 "style" := Get(f, "style"), "resize" := NextResize(Get(s, "resize"))])
    ensures !Truthy(Get(s, "resize")) ==> NextResize(Get(s, "resize")) == Num(Int(1))
    ensures Get(s, "resize").Num? && Truthy(Get(s, "resize")) ==>
              NextResize(Get(s, "resize")) == Num(AddOne(Get(s, "resize").n))
  {
  }

  /** One more than the integer `k` is the integer `k + 1`. */
  lemma AddOneToInt(k: int)
    ensures AddOne(Int(k)) == Int(k + 1)
  {
    assert Pow10(0) == 1;
  }

  /** Starting from a state without a resize count, `n` `RESIZE_MAP` actions leave `resize == n`
      and change nothing else. */
  lemma {:induction false} ResizeCounts(env: Env, s: Fields, f: Fields, n: nat)
    requires !Truthy(Get(s, "resize"))
    ensures Repeat(env, Some(s), Action(ResizeMap, f), n) == Next(Some(if n == 0 then s else s["resize" := Num(Int(n))]))
  {
    if n > 0 {
      ResizeCounts(env, s, f, n - 1);
      if n > 1 {
        var prev := s["resize" := Num(Int(n - 1))];
        assert Truthy(Get(prev, "resize"));
        AddOneToInt(n - 1);
        assert NextResize(Get(prev, "resize")) == Num(Int(n));
        assert prev + map["resize" := Num(Int(n))] == s["resize" := Num(Int(n))];
      } else {
        assert s + map["resize" := Num(Int(1))] == s["resize" := Num(Int(1))];
      }
    }
  }

  /** `CHANGE_ROTATION` sets `bbox.rotation`, keeps the other `bbox` fields, and sets `mapStateSource`. */
  lemma ChangeRotationKeepsBbox(env: Env, s: Fields, f: Fields)
    ensures var r := MapConfig(env, Some(s), Action(ChangeRotation, f));
      && r.Next? && r.state.Some?
      && (forall k :: k != "bbox" && k != "mapStateSource" ==> Get(r.state.value, k) == Get(s, k))
      && Get(r.state.value, "mapStateSource") == Get(f, "mapStateSource")
      && Get(r.state.value, "bbox").Obj?
      && Get(Get(r.state.value, "bbox").fields, "rotation") == Get(f, "rotation")
      && (forall k :: k != "rotation" ==> Get(Get(r.state.value, "bbox").fields, k) == Prop(Get(s, "bbox"), k))
  {
  }

  /** `REGISTER_EVENT_LISTENER` appends `toolName` to the list of `eventName`, creating the list
      when there is none; the other lists and the other state keys are kept. A list that is
      neither an array nor a string cannot be spread, and the reducer throws. */
  lemma RegisterAppends(env: Env, s: Fields, f: Fields)
    ensures var listeners := Get(s, "eventListeners");
      var name := Text(Get(f, "eventName"));
      var current := if Truthy(listeners) then Prop(listeners, name) else Undefined;
      var r := MapConfig(env, Some(s), Action(RegisterEventListener, f));
      && (r.TypeError? <==> Truthy(current) && !current.Arr? && !current.Str?)
      && (r.Next? ==>
            && r.state.Some?
            && r.state.value.Keys == s.Keys + {"eventListeners"}
            && (forall k :: k != "eventListeners" ==> Get(r.state.value, k) == Get(s, k))
            && Get(r.state.value, "eventListeners").Obj?
            && (forall k :: k != name ==> Get(Get(r.state.value, "eventListeners").fields, k) == Prop(listeners, k))
            && (!Truthy(current) ==> Get(Get(r.state.value, "eventListeners").fields, name) == Arr([Get(f, "toolName")]))
            && (current.Arr? ==> Get(Get(r.state.value, "eventListeners").fields, name) == Arr(current.items + [Get(f, "toolName")])))
  {
  }

  /** `UNREGISTER_EVENT_LISTENER` keeps the state when it has no listeners; otherwise it removes
      every occurrence of `toolName` from the list of `eventName`, keeping the other entries in
      order, and keeps the other lists and state keys. It throws when that list is missing or is
      not an array, since there is no `filter` to call. */
  lemma UnregisterRemoves(env: Env, state: Option<Fields>, f: Fields)
    ensures var listeners := StateGet(state, "eventListeners");
      var name := Text(Get(f, "eventName"));
      var tool := Get(f, "toolName");
      var r := MapConfig(env, state, Action(UnregisterEventListener, f));
      && (!Truthy(listeners) ==> r == Next(state))
      && (Truthy(listeners) ==> (r.TypeError? <==> !Prop(listeners, name).Arr?))
      && (r.Next? && Truthy(listeners) ==>
            && r.state.Some? && state.Some?
            && r.state.value.Keys == state.value.Keys
            && (forall k :: k != "eventListeners" ==> Get(r.state.value, k) == Get(state.value, k))
            && Get(r.state.value, "eventListeners").Obj?
            && (forall k :: k != name ==> Get(Get(r.state.value, "eventListeners").fields, k) == Prop(listeners, k))
            && Get(Get(r.state.value, "eventListeners").fields, name) == Arr(Without(Prop(listeners, name).items, tool))
            && (forall y :: y in Without(Prop(listeners, name).items, tool) <==> y in Prop(listeners, name).items && y != tool))
  {
    if state.Some? && Truthy(StateGet(state, "eventListeners")) {
      assert "eventListeners" in state.value;
    }
  }

  /** Removing `x` from a list that ends with the only `x` gives the list before it. */
  lemma {:induction false} WithoutAppended(items: seq<Value>, x: Value)
    requires x !in items
    ensures Without(items + [x], x) == items
  {
    if items != [] {
      assert (items + [x])[1..] == items[1..] + [x];
      WithoutAppended(items[1..], x);
    } else {
      assert [x][1..] == [];
    }
  }

  /** The exact state `REGISTER_EVENT_LISTENER` gives when the listeners are an object whose
      entry for the event is an array or absent. */
  lemma RegisterResult(env: Env, s: Fields, f: Fields, m: Fields, items: seq<Value>)
    requires Get(s, "eventListeners") == Obj(m)
    requires Or(Get(m, Text(Get(f, "eventName"))), Arr([])) == Arr(items)
    ensures MapConfig(env, Some(s), Action(RegisterEventListener, f))
      == Next(Some(s["eventListeners" := Obj(m[Text(Get(f, "eventName")) := Arr(items + [Get(f, "toolName")])])]))
  {
    var update := map["eventListeners" := Obj(m[Text(Get(f, "eventName")) := Arr(items + [Get(f, "toolName")])])];
    assert s + update == s["eventListeners" := update["eventListeners"]];
  }

  /** The exact state `UNREGISTER_EVENT_LISTENER` gives when the event's list is an array. */
  lemma UnregisterResult(env: Env, s: Fields, f: Fields, m: Fields, items: seq<Value>)
    requires Get(s, "eventListeners") == Obj(m)
    requires Get(m, Text(Get(f, "eventName"))) == Arr(items)
    ensures MapConfig(env, Some(s), Action(UnregisterEventListener, f))
      == Next(Some(s["eventListeners" := Obj(m[Text(Get(f, "eventName")) := Arr(Without(items, Get(f, "toolName")))])]))
  {
    var update := map["eventListeners" := Obj(m[Text(Get(f, "eventName")) := Arr(Without(items, Get(f, "toolName")))])];
    assert s + update == s["eventListeners" := update["eventListeners"]];
  }

  /** Registering a tool that is not yet in an event's list and then unregistering it restores
      the state exactly. */
  lemma RegisterThenUnregister(env: Env, s: Fields, f: Fields, m: Fields, items: seq<Value>)
    requires Get(s, "eventListeners") == Obj(m)
    requires Get(m, Text(Get(f, "eventName"))) == Arr(items)
    requires Get(f, "toolName") !in items
    ensures var r := MapConfig(env, Some(s), Action(RegisterEventListener, f));
      r.Next? && MapConfig(env, r.state, Action(UnregisterEventListener, f)) == Next(Some(s))
  {
    var name, tool := Text(Get(f, "eventName")), Get(f, "toolName");
    var m' := m[name := Arr(items + [tool])];
    var s' := s["eventListeners" := Obj(m')];
    RegisterResult(env, s, f, m, items);
    UnregisterResult(env, s', f, m', items + [tool]);
    WithoutAppended(items, tool);
    assert m'[name := Arr(items)] == m;
    assert s'["eventListeners" := Obj(m)] == s;
  }

  /** Starting from no state, registering a tool gives `{eventListeners: {[eventName]: [toolName]}}`. */
  lemma RegisterFromStart(env: Env, f: Fields)
    ensures MapConfigFromStart(env, Action(RegisterEventListener, f))
      == Next(Some(map["eventListeners" := Obj(map[Text(Get(f, "eventName")) := Arr([Get(f, "toolName")])])]))
  {
    RegisterResult(env, InitialState, f, map[], []);
    assert [] + [Get(f, "toolName")] == [Get(f, "toolName")];
    assert InitialState["eventListeners" := Obj(map[Text(Get(f, "eventName")) := Arr([Get(f, "toolName")])])]
      == map["eventListeners" := Obj(map[Text(Get(f, "eventName")) := Arr([Get(f, "toolName")])])];
  }

  /** `CHANGE_MAP_SCALES` with scales stores the computed resolutions and the scales in
      `mapOptions.view`, keeping the other `view` and `mapOptions` fields and the other state keys. */
  lemma ScalesSetResolutions(env: Env, state: Option<Fields>, f: Fields)
    requires Truthy(Get(f, "scales"))
    ensures var r := MapConfig(env, state, Action(ChangeMapScales, f));
      var mapOptions := StateGet(state, "mapOptions");
      var view := if Truthy(mapOptions) then Prop(mapOptions, "view") else Undefined;
      && r.Next? && r.state.Some?
      && (forall k :: k != "mapOptions" ==> Get(r.state.value, k) == StateGet(state, k))
      && Get(r.state.value, "mapOptions").Obj?
      && (forall k :: k != "view" ==> Get(Get(r.state.value, "mapOptions").fields, k) == Prop(mapOptions, k))
      && Get(Get(r.state.value, "mapOptions").fields, "view").Obj?
      && var view' := Get(Get(r.state.value, "mapOptions").fields, "view").fields;
        && Get(view', "scales") == Get(f, "scales")
        && Get(view', "resolutions")
           == env.resolutionsForScales(Get(f, "scales"), Or(StateGet(state, "projection"), Str("EPSG:4326")),
                                       Or(if Truthy(view) then Prop(view, "DPI") else Undefined, Null))
        && (forall k :: k != "scales" && k != "resolutions" ==> Get(view', k) == Prop(view, k))
  {
  }

  /** `CHANGE_MAP_SCALES` without scales removes `mapOptions.view.resolutions`, drops `view` when
      nothing else is left in it and `mapOptions` when nothing else is left in that, and keeps
      everything else; with no resolutions to remove it returns the state it was given. */
  lemma ScalesCleanUp(env: Env, state: Option<Fields>, f: Fields)
    requires !Truthy(Get(f, "scales"))
    ensures var r := MapConfig(env, state, Action(ChangeMapScales, f));
      var mapOptions := StateGet(state, "mapOptions");
      var view := if Truthy(mapOptions) then Prop(mapOptions, "view") else Undefined;
      && (!Truthy(Prop(view, "resolutions")) ==> r == Next(state))
      && (Truthy(Prop(view, "resolutions")) ==>
            && state.Some? && mapOptions.Obj? && view.Obj?
            && r.Next? && r.state.Some?
            && (forall k :: k != "mapOptions" ==> Get(r.state.value, k) == Get(state.value, k))
            && ("mapOptions" in r.state.value <==> mapOptions.fields.Keys - {"view"} != {} || view.fields.Keys - {"resolutions"} != {})
            && ("mapOptions" in r.state.value ==>
                  && r.state.value["mapOptions"].Obj?
                  && var mapOptions' := r.state.value["mapOptions"].fields;
                    && (forall k :: k != "view" ==> Get(mapOptions', k) == Get(mapOptions.fields, k))
                    && ("view" in mapOptions' <==> view.fields.Keys - {"resolutions"} != {})
                    && ("view" in mapOptions' ==>
                          mapOptions'["view"] == Obj(view.fields - {"resolutions"}))))
  {
    var mapOptions := StateGet(state, "mapOptions");
    var view := if Truthy(mapOptions) then Prop(mapOptions, "view") else Undefined;
    if Truthy(Prop(view, "resolutions")) {
      var mo := mapOptions.fields;
      var v := view.fields - {"resolutions"};
      assert |v| == 0 <==> view.fields.Keys - {"resolutions"} == {} by {
        assert v.Keys == view.fields.Keys - {"resolutions"};
      }
      var mo' := if |v| == 0 then mo - {"view"} else mo["view" := Obj(v)];
      assert |mo'| == 0 <==> mo.Keys - {"view"} == {} && |v| == 0 by {
        if |v| == 0 {
          assert mo'.Keys == mo.Keys - {"view"};
        } else {
          assert "view" in mo';
        }
      }
    }
  }

  /** `ORIENTATION` without a `center` or `marker` gives a null state. Otherwise it sets `orientate`
      from the first two comma-separated parts of `center` (or of `marker` when `center` is null
      or undefined) and the action's zoom, heading, pitch and roll; a `center` that is neither
      null, undefined nor a string has no `split` and the reducer throws, and so does a marker
      that is not a string when `center` is null or undefined. */
  lemma OrientationSetsOrientate(env: Env, state: Option<Fields>, f: Fields)
    ensures var o := Get(f, "orientation");
      var r := MapConfig(env, state, Action(Orientation, f));
      && (!HasOrientationTarget(o) ==> r == Next(None))
      && (HasOrientationTarget(o) && !Nullish(Prop(o, "center")) && !Prop(o, "center").Str? ==> r == TypeError)
      && (HasOrientationTarget(o) && Nullish(Prop(o, "center")) && !Prop(o, "marker").Str? ==> r == TypeError)
      && (HasOrientationTarget(o) && (Prop(o, "center").Str? || (Nullish(Prop(o, "center")) && Prop(o, "marker").Str?)) ==>
            var text := if Prop(o, "center").Str? then Prop(o, "center").s else Prop(o, "marker").s;
            var parts := Strings.Split(text, ',');
            && r.Next? && r.state.Some?
            && ChangesOnly(state, r.state.value, map["orientate" := Obj(map[
                 "x" := Str(parts[0]), "y" := if |parts| > 1 then Str(parts[1]) else Undefined,
                 "z" := Prop(o, "zoom"), "heading" := Prop(o, "heading"),
                 "pitch" := Prop(o, "pitch"), "roll" := Prop(o, "roll")])]))
  {
  }

  /** `UPDATE_MAP_VIEW` replaces the whole state with the parsed zoom, centre and orientation: no
      other key of the old state, `eventListeners` included, survives. It throws when the action
      has `data` but no `coordinate`. */
  lemma UpdateMapViewReplacesState(env: Env, state: Option<Fields>, f: Fields)
    ensures var data := Get(f, "data");
      var r := MapConfig(env, state, Action(UpdateMapView, f));
      && (r.TypeError? <==> !Nullish(data) && Nullish(Prop(data, "coordinate")))
      && (r.Next? ==>
            && r.state.Some? && r.state.value.Keys == {"zoom", "center", "viewerOptions"}
            && Get(r.state.value, "zoom") == env.parseFloat(Prop(data, "zoom")))
  {
  }
}
