# MapStore2 vector styling and map state, modelled in Dafny

This project models two parts of MapStore2, the web mapping client.

1. **The vector-style utilities** (`VectorStyleUtils`), as their test suite states them:
   - the classification of a legacy flat style object into visual kinds (stroke, fill, text, circle, marker, symbol), and the title ranked from those kinds;
   - the 32-bit `hashCode` of a string and `hashAndStringify`;
   - the two registries: the symbol-style cache and the geometry functions;
   - the filter expressions `geoStylerStyleFilter` evaluates against a feature's properties;
   - the image id of a Mark or Icon symbolizer, and `addOpacityToColor`;
   - `flattenFeatures`;
   - the translation of flat styles into the rule-based ("geostyler") style model, `layerToGeoStylerStyle`;
   - the fixed default style, `applyDefaultStyleToLayer`.
2. **The `mapConfig` reducer** of the map state. It is one switch over the action type. It returns a new state record, the old state, `null`, or a thrown `TypeError`.

JavaScript values are one datatype, `JsValues.Value`:

- Numbers are canonical decimals, a mantissa and a count of decimal places with no trailing zero. This makes structural equality numeric equality, and lets `String(x)` be rendered exactly.
- Objects are maps from property names to values.
- Strings are sequences of characters.

Layout, one module per file:

- `wrappers.dfy`: Option and Result types.
- `strings.dfy`: `join`, `split` and substring search.
- `js_values.dfy`: values, truthiness and `String(v)`.
- `style_kinds.dfy`: the classifiers and `getStylerTitle`.
- `hashing.dfy` and `hash_sample.dfy`: `hashCode` and `hashAndStringify`.
- `symbol_cache.dfy` and `geometry_functions.dfy`: the two registries, as classes over a map field.
- `features.dfy`: features and `flattenFeatures`.
- `filters.dfy`: `geoStylerStyleFilter`.
- `symbolizers.dfy`: symbolizers, image ids and `addOpacityToColor`.
- `translator.dfy`: `layerToGeoStylerStyle` and `applyDefaultStyleToLayer`.
- `map_reducer.dfy`: `mapConfig`.

`web/client/utils/VectorStyleUtils.js` is not part of this model. Its behaviour is the one pinned by `web/client/utils/__tests__/VectorStyleUtils-test.js`, which fixes these three points:

- In the per-feature translation, a style that is both fill and stroke gives a single `Fill`, whose outline carries the stroke. It does not give a `Line` and a `Fill`.
- A layer-level flat style gives two filterless rules, `[Line]` then `[Fill]`, rather than one rule holding both.
- The default point Mark carries `opacity: 0.5`.

Calls into code outside this model are parameters:

- the JSON serialiser of `hashAndStringify` (a function to a string);
- `CoordinatesUtils.reproject`, `MapUtils.getResolutionsForScales` and `parseFloat`;
- whether a text converts to a number, which is what `isNaN` of a string decides.

The last three travel in the reducer's `Env` record.

## Model

| member | source | states |
|---|---|---|
| StyleKinds.IsAttrPresent | web/client/utils/__tests__/VectorStyleUtils-test.js:53-60 | presence is an OR: true exactly when some listed attribute is a key of the style |
| StyleKinds.StrokeIsAnyOf | web/client/utils/__tests__/VectorStyleUtils-test.js:61-88 | a style is a stroke style exactly when one of color, opacity, dashArray, dashOffset, lineCap, lineJoin, weight is present |
| StyleKinds.IsStrokeStyle | web/client/utils/__tests__/VectorStyleUtils-test.js:61-88 | `isStrokeStyle`: no ensures of its own; its keys are stated by StyleKinds.StrokeIsAnyOf and StyleKinds.Classify |
| StyleKinds.IsFillStyle | web/client/utils/__tests__/VectorStyleUtils-test.js:89-109 | `isFillStyle`: no ensures of its own; stated through StyleKinds.IsAttrPresent, StyleKinds.Classify and StyleKinds.OnlyOwnKind |
| StyleKinds.IsTextStyle | web/client/utils/__tests__/VectorStyleUtils-test.js:110-138 | `isTextStyle`: no ensures of its own; stated through StyleKinds.IsAttrPresent, StyleKinds.Classify and StyleKinds.LabelledStyleIsThreeKinds |
| StyleKinds.IsCircleStyle | web/client/utils/__tests__/VectorStyleUtils-test.js:139-150 | `isCircleStyle`: no ensures of its own; stated through StyleKinds.IsAttrPresent, StyleKinds.Classify and StyleKinds.OnlyOwnKind |
| StyleKinds.IsMarkerStyle | web/client/utils/__tests__/VectorStyleUtils-test.js:151-164 | `isMarkerStyle`: no ensures of its own; stated through StyleKinds.IsAttrPresent, StyleKinds.Classify and StyleKinds.OnlyOwnKind |
| StyleKinds.IsSymbolStyle | web/client/utils/__tests__/VectorStyleUtils-test.js:165-176 | `isSymbolStyle`: no ensures of its own; stated through StyleKinds.IsAttrPresent, StyleKinds.Classify and StyleKinds.OnlyOwnKind |
| StyleKinds.Classify | web/client/utils/__tests__/VectorStyleUtils-test.js:89-176 | the kinds of a style are exactly those whose predicate holds |
| StyleKinds.EmptyStyle | web/client/utils/__tests__/VectorStyleUtils-test.js:61-176 | `{}` has no kind and the empty title |
| StyleKinds.AttributesDisjoint | web/client/utils/__tests__/VectorStyleUtils-test.js:61-176 | no attribute signals two different kinds |
| StyleKinds.OnlyOwnKind | web/client/utils/__tests__/VectorStyleUtils-test.js:89-176 | a non-empty style using only one kind's attributes has that kind and no other |
| StyleKinds.LabelledStyleIsThreeKinds | web/client/utils/__tests__/VectorStyleUtils-test.js:110-138 | a labelled style with stroke and fill keys is stroke, fill and text at once: the kinds are independent |
| StyleKinds.GetStylerTitle | web/client/utils/__tests__/VectorStyleUtils-test.js:178-250 | `getStylerTitle` gives one of the six titles or ""; "" exactly when the style has no kind and no "Circle Style" title; the ranking is stated by StyleKinds.TitleIsHighestRank |
| StyleKinds.TitleIsHighestRank | web/client/utils/__tests__/VectorStyleUtils-test.js:178-250 | the title is "" exactly when no kind holds; otherwise it names the highest-ranked kind (Marker, Symbol, Text, Circle or a "Circle Style" title, Polygon, Polyline) |
| GeometryFunctions.DefaultFunctions | web/client/utils/__tests__/VectorStyleUtils-test.js:251-262 | the registry starts with four functions: centerPoint, startPoint and endPoint yield a Point, lineToArc a LineString |
| GeometryFunctions.GeometryRegistry.constructor | web/client/utils/__tests__/VectorStyleUtils-test.js:251-262 | the registry starts with the default functions |
| GeometryFunctions.GeometryRegistry.GetGeometryFunction | web/client/utils/__tests__/VectorStyleUtils-test.js:263-267 | an unregistered name gives undefined; otherwise the function or the geometry type that was registered |
| GeometryFunctions.GeometryRegistry.RegisterGeometryFunctions | web/client/utils/__tests__/VectorStyleUtils-test.js:268-277 | adds or replaces the entry; with a missing argument it throws the error message and changes nothing |
| GeometryFunctions.RegisterFirstLine | web/client/utils/__tests__/VectorStyleUtils-test.js:268-277 | the test sequence: undefined before registration, LineString after it, an error without a type |
| Symbolizers.AddOpacityToColor | web/client/utils/__tests__/VectorStyleUtils-test.js:278-281 | channel `a` becomes the opacity, 0.2 when none is given; the other channels are kept |
| Symbolizers.OpacityZeroIsKept | web/client/utils/__tests__/VectorStyleUtils-test.js:278-281 | an opacity of 0 is kept as 0 and is not replaced by the default |
| Hashing.ToInt32 | web/client/utils/__tests__/VectorStyleUtils-test.js:282-284 | the result is an int32 congruent to the input modulo 2^32, and is the input itself when that is already an int32 |
| Hashing.HashCode | web/client/utils/__tests__/VectorStyleUtils-test.js:282-284 | `hashCode` always gives an int32; its value is stated by Hashing.HashIsWrappedPolynomial, Hashing.HashCodeLoop and Hashing.HashOfStr |
| Hashing.HashIsWrappedPolynomial | web/client/utils/__tests__/VectorStyleUtils-test.js:282-284 | truncating to 32 bits at every step gives the polynomial hash of the string truncated once |
| Hashing.NoWrapForSmallSums | web/client/utils/__tests__/VectorStyleUtils-test.js:282-284 | while the polynomial stays in int32 range the hash equals it |
| Hashing.HashCodeLoop | web/client/utils/__tests__/VectorStyleUtils-test.js:282-284 | the character loop computes the recursive hash and stays in int32 range |
| Hashing.HashOfStr | web/client/utils/__tests__/VectorStyleUtils-test.js:282-284 | hashCode("str") is 114225 |
| Hashing.HashAndStringify | web/client/utils/__tests__/VectorStyleUtils-test.js:313-325 | without a style it fails with "hashAndStringify: specify mandatory params: style"; with one it gives the int32 wrap of the polynomial hash of the serialised text |
| HashSample.SampleStyleHash | web/client/utils/__tests__/VectorStyleUtils-test.js:313-319 | the hash of the sample symbol style's JSON text is -1572904514 |
| SymbolCache.SymbolStyles.constructor | web/client/utils/__tests__/VectorStyleUtils-test.js:48-51 | the cache starts empty |
| SymbolCache.SymbolStyles.SetSymbolsStyles | web/client/utils/__tests__/VectorStyleUtils-test.js:48-51 | replaces the whole table |
| SymbolCache.SymbolStyles.GetSymbolsStyles | web/client/utils/__tests__/VectorStyleUtils-test.js:285-296 | `getSymbolsStyles`: no ensures of its own; the table it reads is stated by SymbolCache.RegisterOneSymbolStyle |
| SymbolCache.SymbolStyles.RegisterStyle | web/client/utils/__tests__/VectorStyleUtils-test.js:288-303 | succeeds exactly when the hash, the entry and its style are all given, then stores the entry under the hash; otherwise throws "specify all the params: sha, style" and changes nothing |
| SymbolCache.SymbolStyles.FetchStyle | web/client/utils/__tests__/VectorStyleUtils-test.js:304-312 | gives a style exactly when one is registered under the hash, and gives that style |
| SymbolCache.RegisterOneSymbolStyle | web/client/utils/__tests__/VectorStyleUtils-test.js:285-312 | the test sequence: empty after reset, one key after one registration, the registered style fetched back, an error without arguments |
| Features.FlattenFeatures | web/client/utils/__tests__/VectorStyleUtils-test.js:471-518 | `flattenFeatures`: the first collection's features open the result, in order; the rest is stated by Features.FlattenAppend, Features.FlattenLength and Features.FlattenMembership |
| Features.FlattenAppend | web/client/utils/__tests__/VectorStyleUtils-test.js:471-518 | flattening distributes over concatenation of collections, so order is kept |
| Features.FlattenLength | web/client/utils/__tests__/VectorStyleUtils-test.js:471-518 | the result has as many features as all collections together |
| Features.FlattenMembership | web/client/utils/__tests__/VectorStyleUtils-test.js:471-518 | a feature is in the result exactly when it is in one of the collections |
| Features.FlattenTwoCollections | web/client/utils/__tests__/VectorStyleUtils-test.js:471-518 | two one-feature collections give their two features in order |
| Strings.ContainsIff | web/client/utils/__tests__/VectorStyleUtils-test.js:576-577 | the substring test holds exactly when the needle occurs at some position of the text |
| Filters.GeoStylerStyleFilter | web/client/utils/__tests__/VectorStyleUtils-test.js:568-584 | `geoStylerStyleFilter`: no ensures of its own; stated by Filters.LogicalMeaning, Filters.LikeMeaning, Filters.NumericComparisons, Filters.MissingProperty and Filters.SampleFeatureFilters |
| Filters.ReduceMeaning | web/client/utils/__tests__/VectorStyleUtils-test.js:579-583 | `\|\|` over the results means some result is true, `&&` means every one is |
| Filters.LogicalMeaning | web/client/utils/__tests__/VectorStyleUtils-test.js:579-583 | a logical filter holds exactly when some child (for `\|\|`) or every child (for `&&`) holds |
| Filters.LikeMeaning | web/client/utils/__tests__/VectorStyleUtils-test.js:576-577 | on a present string property, `*=` holds exactly when the value occurs in it, as the `name` filters of the test show |
| Filters.NumericComparisons | web/client/utils/__tests__/VectorStyleUtils-test.js:570-575 | on numbers, `==` is numeric equality and `!=` its negation, `<` and `>` are numeric order, `>=` is not `<` and `<=` is not `>` |
| Filters.MissingProperty | web/client/utils/__tests__/VectorStyleUtils-test.js:568-584 | a missing property satisfies no comparison with a number or string except `!=`; the test does not pin this case, so it is this model's reading (see "## Left out") |
| Filters.SampleFeatureFilters | web/client/utils/__tests__/VectorStyleUtils-test.js:568-584 | the twelve filter expectations on `{count: 10, name: 'Abc'}` |
| Strings.SplitJoin | web/client/utils/__tests__/VectorStyleUtils-test.js:447-469 | splitting the join of parts without the separator gives the parts back |
| Strings.JoinSplit | web/client/utils/__tests__/VectorStyleUtils-test.js:447-469 | joining the split of a text gives the text back |
| Symbolizers.GetImageIdFromSymbolizer | web/client/utils/__tests__/VectorStyleUtils-test.js:447-469 | an Icon's id is its image source |
| Symbolizers.MarkIdSplitsIntoFields | web/client/utils/__tests__/VectorStyleUtils-test.js:447-469 | a Mark's id splits on ':' into its seven drawing fields (name, colour, fill opacity, stroke colour, stroke opacity, stroke width, radius) |
| Symbolizers.MarkIdDeterminesFields | web/client/utils/__tests__/VectorStyleUtils-test.js:447-469 | two Marks with the same id agree on the text of all seven drawing fields |
| Symbolizers.RotationIgnored | web/client/utils/__tests__/VectorStyleUtils-test.js:447-469 | symbolizers that differ only in rotation share one id |
| Symbolizers.SampleImageIds | web/client/utils/__tests__/VectorStyleUtils-test.js:447-469 | the circle Mark's id is "Circle:#ff0000:0.5:#00ff00:0.25:3:16" and the Icon's is its image path |
| GeoStylerTranslator.LayerToGeoStylerStyle | web/client/utils/__tests__/VectorStyleUtils-test.js:586-734 | a rule-based style is returned unchanged; anything else becomes an unnamed style whose metadata marks it for the visual editor; a flat layer style with no styled feature gives exactly the layer-level rules |
| GeoStylerTranslator.StyledFeatures | web/client/utils/__tests__/VectorStyleUtils-test.js:586-650 | keeps exactly the features that carry their own style |
| GeoStylerTranslator.StyledFeaturesConcat | web/client/utils/__tests__/VectorStyleUtils-test.js:586-650 | the selection of a concatenation is the concatenation of the selections: styled features keep their order and count |
| GeoStylerTranslator.FeatureSymbolizerChoice | web/client/utils/__tests__/VectorStyleUtils-test.js:586-650 | a feature style gives at most one symbolizer: `Fill` exactly when it is a fill style (a fill masks the stroke), `Line` exactly when it is stroke-only, none otherwise |
| GeoStylerTranslator.FeatureRulesSelectById | web/client/utils/__tests__/VectorStyleUtils-test.js:586-650 | one rule per styled feature in order; each rule's filter holds for a feature exactly when its id equals the styled feature's, so it selects that feature |
| GeoStylerTranslator.EveryStyledFeatureHasARule | web/client/utils/__tests__/VectorStyleUtils-test.js:586-650 | every styled feature of every collection has its rule |
| GeoStylerTranslator.LayerRulesShape | web/client/utils/__tests__/VectorStyleUtils-test.js:652-710 | a layer-level style gives one filterless single-symbolizer rule per kind, Line for stroke and Fill for fill, Line first; the Fill's outline is the Line's stroke |
| GeoStylerTranslator.UnstyledLayerHasNoRules | web/client/utils/__tests__/VectorStyleUtils-test.js:586-734 | a layer with no styled feature and no style translates to an empty rule list |
| GeoStylerTranslator.TranslationIsIdempotent | web/client/utils/__tests__/VectorStyleUtils-test.js:712-734 | translating a layer whose style is already the translation returns it unchanged |
| GeoStylerTranslator.SampleAnnotationLayer | web/client/utils/__tests__/VectorStyleUtils-test.js:586-650 | the annotation test: one rule filtered on `id == 'annotation-id'` with a single Fill |
| GeoStylerTranslator.SampleSimpleStyleLayer | web/client/utils/__tests__/VectorStyleUtils-test.js:652-710 | the simple-style test: a Line rule, then a Fill rule |
| GeoStylerTranslator.SampleGeoStylerLayer | web/client/utils/__tests__/VectorStyleUtils-test.js:712-734 | the pass-through test |
| GeoStylerTranslator.ApplyDefaultStyleToLayer | web/client/utils/__tests__/VectorStyleUtils-test.js:736-788 | a layer with no style or an empty one gets the default style; any other layer is returned unchanged; features are never touched |
| GeoStylerTranslator.ApplyDefaultIsIdempotent | web/client/utils/__tests__/VectorStyleUtils-test.js:736-788 | applying the default twice is applying it once |
| GeoStylerTranslator.DefaultStyleTranslatesToItself | web/client/utils/__tests__/VectorStyleUtils-test.js:736-788 | the default passes the translator unchanged; its three filterless rules share one stroke, and the polygon has the point's fill |
| GeoStylerTranslator.SampleEmptyLayerGetsDefault | web/client/utils/__tests__/VectorStyleUtils-test.js:736-788 | `{}` gets the "Default Style" with no metadata |
| MapReducer.MapConfig | web/client/reducers/map.js:33-175 | `mapConfig`: every action except UPDATE_MAP_VIEW and the CHANGE_MAP_SCALES clean-up keeps every key of a non-null state; each action's case is stated by the MapReducer.* rows below |
| MapReducer.MapConfigFromStart | web/client/reducers/map.js:33 | `mapConfig` without a state starts from `{eventListeners: {}}`, so every action except UPDATE_MAP_VIEW and CHANGE_MAP_SCALES keeps `eventListeners` |
| MapReducer.UnknownActionKeepsState | web/client/reducers/map.js:172-173 | an unhandled action returns the given state; with no state that is the default `{eventListeners: {}}` of line 33 |
| MapReducer.ChangeMapViewMerges | web/client/reducers/map.js:35-38 | every action property except `type` is copied in, `zoom` becomes 1 when missing or not a number, and the other keys are kept |
| MapReducer.ChangeMousePointerSetsPointer | web/client/reducers/map.js:39-42 | only `mousePointer` changes |
| MapReducer.ChangeZoomLvlSetsZoom | web/client/reducers/map.js:43-47 | only `zoom` and `mapStateSource` change |
| MapReducer.ChangeMapLimitsSetsLimits | web/client/reducers/map.js:48-55 | only `limits` changes, to the action's extent, CRS and minimum zoom |
| MapReducer.ChangeMapCrsSetsProjection | web/client/reducers/map.js:56-59 | only `projection` changes |
| MapReducer.ScalesSetResolutions | web/client/reducers/map.js:60-73 | with scales, `mapOptions.view` gets the computed resolutions and the scales; the other view, mapOptions and state fields are kept |
| MapReducer.ScalesCleanUp | web/client/reducers/map.js:74-91 | without scales it removes `resolutions`, drops `view` and then `mapOptions` when they become empty, and keeps everything else; with no resolutions the state is returned as given |
| MapReducer.SetMapResolutionsSetsResolutions | web/client/reducers/map.js:92-96 | only the top-level `resolutions` changes |
| MapReducer.CenteringActions | web/client/reducers/map.js:97-114 | both set the reprojected centre and clear `mapStateSource`; `PAN_TO` throws exactly when the action has no centre |
| MapReducer.NullStateActions | web/client/reducers/map.js:115-141 | on a null state, style change, resize, rotation and listener registration throw; unregistration returns null; assigning actions start from `{}` |
| MapReducer.NextResize | web/client/reducers/map.js:115-120 | a missing or falsy count becomes 1; a numeric count grows |
| MapReducer.ResizeIncrements | web/client/reducers/map.js:115-120 | `RESIZE_MAP` changes only `resize`, to 1 or one more; `CHANGE_MAP_STYLE` does the same and also sets `style` and `mapStateSource` |
| MapReducer.ResizeCounts | web/client/reducers/map.js:118-120 | n resize actions from a state without a count leave `resize == n` and nothing else changed |
| MapReducer.ChangeRotationKeepsBbox | web/client/reducers/map.js:121-124 | sets `bbox.rotation` and `mapStateSource`, keeping the other bbox fields and state keys |
| MapReducer.UpdateVersionSetsVersion | web/client/reducers/map.js:125-127 | only `version` changes |
| MapReducer.RegisterAppends | web/client/reducers/map.js:128-132 | appends the tool to the event's list, creating it when missing; other lists and keys are kept; throws when the current entry is truthy and cannot be spread |
| MapReducer.RegisterResult | web/client/reducers/map.js:128-132 | the exact state after registration when the listeners are an object |
| MapReducer.RegisterFromStart | web/client/reducers/map.js:128-132 | from no state (the default `{eventListeners: {}}` of line 33), registration gives `{eventListeners: {[eventName]: [toolName]}}` |
| MapReducer.Without | web/client/reducers/map.js:136 | the filtered list holds exactly the items other than the tool, and is the list itself when the tool is absent |
| MapReducer.WithoutCounts | web/client/reducers/map.js:136 | every occurrence of the tool is dropped and every other tool is kept as many times as it occurred |
| MapReducer.WithoutConcat | web/client/reducers/map.js:136 | filtering a concatenation concatenates the filtered parts, so the kept tools stay in their order |
| MapReducer.UnregisterRemoves | web/client/reducers/map.js:133-142 | no listeners: the state is returned as given; otherwise every occurrence of the tool leaves the event's list, other lists and keys are kept; throws when that list is missing or not an array |
| MapReducer.UnregisterResult | web/client/reducers/map.js:133-142 | the exact state after unregistration when the event's list is an array |
| MapReducer.WithoutAppended | web/client/reducers/map.js:131-136 | removing a tool just appended, and not present before, gives the list before the append |
| MapReducer.RegisterThenUnregister | web/client/reducers/map.js:128-142 | registering a new tool and then unregistering it restores the state exactly |
| MapReducer.OrientationSetsOrientate | web/client/reducers/map.js:143-155 | without a truthy centre or marker the state becomes null; otherwise only `orientate` changes, to the first two comma-separated parts of a string centre, or of a string marker when the centre is null or undefined, plus zoom, heading, pitch and roll; a centre that is not null, undefined or a string throws, even a falsy one such as `0` beside a truthy marker; a null or undefined centre with a marker that is not a string throws too |
| MapReducer.UpdateMapViewReplacesState | web/client/reducers/map.js:156-171 | the state is replaced by one holding only zoom, center and viewerOptions; throws when `data` has no `coordinate` |

## Left out

- `createSvgUrl`, `createStylesAsync`, `drawIcons` and `getStyleParser` are left out. They fetch over the network, draw SVG or canvas images into blob or data URIs, and load parser plugins at run time.
- The JSON serialiser used by `hashAndStringify` is a parameter. Only the hash over its output is modelled.
- Hashing.HashAndStringify: object key order is not modelled. Objects are maps, so styles with equal contents serialise and hash alike here, while in the source `{a: 1, b: 2}` and `{b: 2, a: 1}` give different texts and hashes.
- Hashing.CharCode takes a character's code point. The source's `charCodeAt` reads UTF-16 code units, and the two differ outside the Basic Multilingual Plane.
- Filters.StrLess orders strings by code point. JavaScript `<` compares UTF-16 code units, so the two orders differ between a character outside the Basic Multilingual Plane and one in U+E000–U+FFFF.
- Numbers are exact decimals. NaN, the infinities, exponent notation and binary floating-point rounding are not modelled.
- `isNaN` of a string or object, `parseFloat`, `CoordinatesUtils.reproject` and `MapUtils.getResolutionsForScales` are parameters of the reducer (`Env`). They are not interpreted.
- Object identity is not modelled. `!==` between arrays or objects, in the listener filter and in `==`/`!=` filters, is structural equality here; in JavaScript it compares references.
- A property read on a value that is not a plain object gives `undefined` here. The `length`, indices and methods of strings and arrays are not read this way.
- JsValues.OwnFields gives no fields for an array or a string. `Object.assign` copies an array's indices, and a string's indexed characters, as keys. So the reducer differs from the source when `state.bbox` (map.js:122), `state.eventListeners` (map.js:130), `mapOptions` or `view` (map.js:66-68) is an array or a non-empty string: the model copies nothing from them.
- Filters.Compare (LikeMeaning, MissingProperty): the test evaluates filters only on a present string property under `*=` and a present number under the other operators. The answers for a missing property, a non-string property under `*=`, and mixed types under `==`/`!=` are this model's own. `*=` is false unless the property is a string, where a reading of the property's string form would make `['*=', 'count', '1']` true on `{count: 10}`. `==` is structural equality, so `"10"` against `10`, or `null` against `undefined`, are unequal where JavaScript's loose `==` calls them equal.
- Symbolizers.MarkIdParts prints an unset field as `undefined`, as a template literal does; `Array.prototype.join` would print it as an empty string. The test pins only a fully set Mark, so this is the model's reading. Because the id holds field texts, `3` and `"3"`, or an unset field and the string `"undefined"`, give the same id.
- Filters.Below: comparing a number with a string, or with null or a boolean, is false. JavaScript would coerce the operands to numbers first.
- The `Text` symbolizer and the recolouring of symbol images are left out. No listed operation builds them from a flat style.
- GeoStylerTranslator.LayerToGeoStylerStyle does not model the asynchronous promise wrapper. The translation is a plain function.
- GeoStylerTranslator.ApplyDefaultStyleToLayer covers only the layer fields the translation reads. The other properties of a layer object are carried along untouched.
- The reducer's action constants from `web/client/actions/map.js` are not part of this model. Action types are a datatype, and any other type is `OtherAction`.
- `web/client/selectors/timeline.js` is left out. It wraps date, interval and reprojection helpers that are not part of this model.
- `web/client/components/geostory/common/enhancers/withLocationPopupTabs.js` is left out. It is a UI component enhancer.
