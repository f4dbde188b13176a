/**
 * `layerToGeoStylerStyle`: translation of a layer's legacy flat styles into the
 * rule-based ("geostyler") style model, and `applyDefaultStyleToLayer`, the
 * fixed fallback style. A style in the rule-based model is the record
 * `{format: 'geostyler', body: {name, rules}, metadata?}`; the `format` tag is
 * implicit in the datatype `GeoStylerStyle`.
 */
module GeoStylerTranslator {
  import opened Wrappers
  import opened JsValues
  import StyleKinds
  import opened Features
  import opened Filters
  import opened Symbolizers

  /** A rule: its name, an optional filter selecting the features it applies to, its symbolizers. */
  datatype Rule = Rule(name: string, filter: Option<Filter>, symbolizers: seq<Symbolizer>)

  datatype StyleBody = StyleBody(name: string, rules: seq<Rule>)

  datatype StyleMetadata = StyleMetadata(editorType: string)

  /** A style already in the rule-based model (`format: 'geostyler'`). */
  datatype GeoStylerStyle = GeoStylerStyle(body: StyleBody, metadata: Option<StyleMetadata>)

  /** A layer's `style`: a legacy flat attribute bag or a rule-based style. */
  datatype LayerStyle = FlatStyle(attrs: Fields) | GeoStyler(style: GeoStylerStyle)

  /** The parts of a vector layer the translation reads: its feature collections and its style. */
  datatype Layer = Layer(features: seq<FeatureCollection>, style: Option<LayerStyle>)

  /** The `Line` symbolizer of a flat style: its stroke colour, opacity and weight. */
  function LineSymbolizer(st: Fields): (s: Symbolizer)
    ensures s.Line?
  {
    Line(Get(st, "color"), Get(st, "opacity"), Get(st, "weight"))
  }

  /** The `Fill` symbolizer of a flat style: the fill colour and opacity, outlined by the stroke. */
  function FillSymbolizer(st: Fields): (s: Symbolizer)
    ensures s.Fill?
  {
    Fill(Get(st, "fillColor"), Get(st, "fillOpacity"), Get(st, "fillOpacity"),
         Get(st, "color"), Get(st, "opacity"), Get(st, "weight"))
  }

  /** The symbolizers of one feature's own flat style: a fill style is drawn as one `Fill`
      (whose outline carries the stroke), a stroke-only style as one `Line`. */
  function FeatureSymbolizers(st: Fields): seq<Symbolizer>
  {
    if StyleKinds.IsFillStyle(st) then [FillSymbolizer(st)]
    else if StyleKinds.IsStrokeStyle(st) then [LineSymbolizer(st)]
    else []
  }

  /** The rule of one styled feature: it selects the features whose `id` equals this feature's. */
  function FeatureRule(f: Feature): Rule
    requires f.style.Some?
  {
    Rule("", Some(Comparison(Eq, "id", Get(f.properties, "id"))), FeatureSymbolizers(f.style.value))
  }

  /** The features that carry their own flat style, in order. */
  function StyledFeatures(fs: seq<Feature>): (r: seq<Feature>)
    ensures |r| <= |fs|
    ensures forall i :: 0 <= i < |r| ==> r[i].style.Some?
    ensures forall f :: f in r <==> f in fs && f.style.Some?
  {
    if fs == [] then []
    else if fs[0].style.Some? then [fs[0]] + StyledFeatures(fs[1..])
    else StyledFeatures(fs[1..])
  }

  /** Selecting styled features works feature by feature: the selection of a concatenation is the
      concatenation of the selections, so the styled features keep their order and count. */
  lemma {:induction false} StyledFeaturesConcat(a: seq<Feature>, b: seq<Feature>)
    ensures StyledFeatures(a + b) == StyledFeatures(a) + StyledFeatures(b)
  {
    if a != [] {
      assert (a + b)[1..] == a[1..] + b;
      StyledFeaturesConcat(a[1..], b);
    } else {
      assert a + b == b;
    }
  }

  /** The filterless rules of a layer-level flat style: a `Line` rule when it is a stroke style,
      then a `Fill` rule when it is a fill style. */
  function LayerRules(st: Fields): seq<Rule>
  {
    (if StyleKinds.IsStrokeStyle(st) then [Rule("", None, [LineSymbolizer(st)])] else [])
    + (if StyleKinds.IsFillStyle(st) then [Rule("", None, [FillSymbolizer(st)])] else [])
  }

  /** The rules translated from a layer that is not already rule-based: one rule per styled
      feature when any feature carries a style, else the layer-level flat style's rules, else none. */
  function TranslatedRules(layer: Layer): seq<Rule>
  {
    var styled := StyledFeatures(FlattenFeatures(layer.features));
    if |styled| > 0 then seq(|styled|, i requires 0 <= i < |styled| => FeatureRule(styled[i]))
    else if layer.style.Some? && layer.style.value.FlatStyle? then LayerRules(layer.style.value.attrs)
    else []
  }

  /** `layerToGeoStylerStyle(layer)`: a rule-based style is returned as it is; any other layer is
      translated into an unnamed style marked for the visual editor. */
  function LayerToGeoStylerStyle(layer: Layer): (r: GeoStylerStyle)
    ensures layer.style.Some? && layer.style.value.GeoStyler? ==> r == layer.style.value.style
    ensures !(layer.style.Some? && layer.style.value.GeoStyler?) ==>
              r.body.name == "" && r.metadata == Some(StyleMetadata("visual"))
    ensures layer.style.Some? && layer.style.value.FlatStyle?
            && StyledFeatures(FlattenFeatures(layer.features)) == [] ==>
              r.body.rules == LayerRules(layer.style.value.attrs)
  {
    if layer.style.Some? && layer.style.value.GeoStyler? then layer.style.value.style
    else GeoStylerStyle(StyleBody("", TranslatedRules(layer)), Some(StyleMetadata("visual")))
  }

  /** A feature's style gives at most one symbolizer: `Fill` exactly when it is a fill style
      (even when it is a stroke style too), `Line` exactly when it is a stroke style and not a
      fill style, none when it is neither. */
  lemma FeatureSymbolizerChoice(st: Fields)
    ensures |FeatureSymbolizers(st)| <= 1
    ensures |FeatureSymbolizers(st)| == 0 <==> !StyleKinds.IsFillStyle(st) && !StyleKinds.IsStrokeStyle(st)
    ensures |FeatureSymbolizers(st)| == 1 ==>
              (FeatureSymbolizers(st)[0].Fill? <==> StyleKinds.IsFillStyle(st))
              && (FeatureSymbolizers(st)[0].Line? <==> !StyleKinds.IsFillStyle(st) && StyleKinds.IsStrokeStyle(st))
  {
  }

  /** A layer-level style gives one filterless, unnamed, single-symbolizer rule per kind it has,
      `Line` for stroke and `Fill` for fill, the `Line` rule first; the `Fill`'s outline is the
      `Line`'s stroke. */
  lemma LayerRulesShape(st: Fields)
    ensures var rules := LayerRules(st);
      && |rules| == (if StyleKinds.IsStrokeStyle(st) then 1 else 0) + (if StyleKinds.IsFillStyle(st) then 1 else 0)
      && (forall i :: 0 <= i < |rules| ==> rules[i].name == "" && rules[i].filter == None && |rules[i].symbolizers| == 1)
      && (StyleKinds.IsStrokeStyle(st) <==> exists i :: 0 <= i < |rules| && rules[i].symbolizers[0].Line?)
      && (StyleKinds.IsFillStyle(st) <==> exists i :: 0 <= i < |rules| && rules[i].symbolizers[0].Fill?)
      && (|rules| == 2 ==>
            && rules[0].symbolizers[0].Line? && rules[1].symbolizers[0].Fill?
            && rules[1].symbolizers[0].outlineColor == rules[0].symbolizers[0].color
            && rules[1].symbolizers[0].outlineOpacity == rules[0].symbolizers[0].opacity
            && rules[1].symbolizers[0].outlineWidth == rules[0].symbolizers[0].width)
  {
    var rules := LayerRules(st);
    if StyleKinds.IsStrokeStyle(st) {
      assert rules[0].symbolizers[0].Line?;
    }
    if StyleKinds.IsFillStyle(st) {
      assert rules[|rules| - 1].symbolizers[0].Fill?;
    }
  }

  /** With styled features, the translation has one rule per styled feature, in order; each rule's
      filter holds for a feature exactly when that feature's `id` equals the styled feature's, so
      in particular it selects the styled feature itself. */
  lemma FeatureRulesSelectById(layer: Layer, i: nat, g: Feature)
    requires !(layer.style.Some? && layer.style.value.GeoStyler?)
    requires var styled := StyledFeatures(FlattenFeatures(layer.features));
      |styled| > 0 && i < |styled|
    ensures var styled := StyledFeatures(FlattenFeatures(layer.features));
      var rules := LayerToGeoStylerStyle(layer).body.rules;
      && |rules| == |styled|
      && rules[i].filter.Some?
      && (GeoStylerStyleFilter(g, rules[i].filter.value) <==> Get(g.properties, "id") == Get(styled[i].properties, "id"))
      && GeoStylerStyleFilter(styled[i], rules[i].filter.value)
      && rules[i].symbolizers == FeatureSymbolizers(styled[i].style.value)
  {
  }

  /** Every styled feature of every collection has its rule in the translation. */
  lemma EveryStyledFeatureHasARule(layer: Layer, f: Feature)
    requires !(layer.style.Some? && layer.style.value.GeoStyler?)
    requires exists c :: c in layer.features && f in c.features
    requires f.style.Some?
    ensures exists i :: 0 <= i < |LayerToGeoStylerStyle(layer).body.rules|
              && LayerToGeoStylerStyle(layer).body.rules[i] == FeatureRule(f)
  {
    FlattenMembership(layer.features, f);
    var styled := StyledFeatures(FlattenFeatures(layer.features));
    assert f in styled;
    var i :| 0 <= i < |styled| && styled[i] == f;
    assert LayerToGeoStylerStyle(layer).body.rules[i] == FeatureRule(f);
  }

  /** A layer with neither styled features nor a flat style translates to an empty rule list. */
  lemma UnstyledLayerHasNoRules(layer: Layer)
    requires layer.style.None?
    requires forall c, f :: c in layer.features && f in c.features ==> f.style.None?
    ensures LayerToGeoStylerStyle(layer) == GeoStylerStyle(StyleBody("", []), Some(StyleMetadata("visual")))
  {
    var styled := StyledFeatures(FlattenFeatures(layer.features));
    if |styled| > 0 {
      assert styled[0] in styled;
      FlattenMembership(layer.features, styled[0]);
    }
  }

  /** Storing the translation as the layer's style and translating again changes nothing. */
  lemma TranslationIsIdempotent(layer: Layer)
    ensures var translated := LayerToGeoStylerStyle(layer);
      LayerToGeoStylerStyle(layer.(style := Some(GeoStyler(translated)))) == translated
  {
  }

  /** The flat style shared by the translation tests. */
  const SampleFlatStyle: Fields :=
    map["fillColor" := Str("#ff0000"), "fillOpacity" := Num(Decimal(5, 1)), "color" := Str("#00ff00"),
        "opacity" := Num(Decimal(25, 2)), "weight" := Num(Int(2))]

  /** The `Fill` both translation tests expect for the sample flat style. */
  const SampleFill := Fill(Str("#ff0000"), Num(Decimal(5, 1)), Num(Decimal(5, 1)), Str("#00ff00"),
                           Num(Decimal(25, 2)), Num(Int(2)))

  lemma SampleIsFillAndStroke()
    ensures StyleKinds.IsFillStyle(SampleFlatStyle) && StyleKinds.IsStrokeStyle(SampleFlatStyle)
  {
    assert StyleKinds.Attributes(StyleKinds.Fill)[0] in SampleFlatStyle;
    assert StyleKinds.Attributes(StyleKinds.Stroke)[0] in SampleFlatStyle;
  }

  /** The annotation test: one polygon feature with id 'annotation-id' and the sample style gives
      one rule filtered on that id holding a single `Fill` (no `Line`). */
  lemma SampleAnnotationLayer(geometry: Value)
    ensures var feature := Feature(map["id" := Str("annotation-id")], geometry, Some(SampleFlatStyle));
      LayerToGeoStylerStyle(Layer([FeatureCollection([feature])], None))
      == GeoStylerStyle(StyleBody("", [Rule("", Some(Comparison(Eq, "id", Str("annotation-id"))), [SampleFill])]),
                        Some(StyleMetadata("visual")))
  {
    var feature := Feature(map["id" := Str("annotation-id")], geometry, Some(SampleFlatStyle));
    var layer := Layer([FeatureCollection([feature])], None);
    assert FlattenFeatures(layer.features) == [feature] by {
      assert FlattenFeatures(layer.features[1..]) == [];
    }
    assert StyledFeatures([feature]) == [feature] by {
      assert StyledFeatures([feature][1..]) == [];
    }
    SampleIsFillAndStroke();
  }

  /** The simple-style test: the sample style at layer level gives a `Line` rule, then a `Fill` rule. */
  lemma SampleSimpleStyleLayer()
    ensures LayerToGeoStylerStyle(Layer([], Some(FlatStyle(SampleFlatStyle))))
      == GeoStylerStyle(StyleBody("", [Rule("", None, [Line(Str("#00ff00"), Num(Decimal(25, 2)), Num(Int(2)))]),
                                       Rule("", None, [SampleFill])]),
                        Some(StyleMetadata("visual")))
  {
    SampleIsFillAndStroke();
  }

  /** The pass-through test: an empty rule-based style is returned unchanged. */
  lemma SampleGeoStylerLayer()
    ensures var style := GeoStylerStyle(StyleBody("", []), None);
      LayerToGeoStylerStyle(Layer([], Some(GeoStyler(style)))) == style
  {
  }

  /** The three default rules: a circle point, a line and a polygon, in one palette. */
  const DefaultPointSymbolizer :=
    Mark(Str("Circle"), Str("#f2f2f2"), Num(Decimal(3, 1)), Num(Decimal(5, 1)), Str("#3075e9"), Num(Int(1)),
         Num(Int(2)), Num(Int(10)), Undefined, Bool(true))
  const DefaultLineSymbolizer := Line(Str("#3075e9"), Num(Int(1)), Num(Int(2)))
  const DefaultPolygonSymbolizer :=
    Fill(Str("#f2f2f2"), Undefined, Num(Decimal(3, 1)), Str("#3075e9"), Num(Int(1)), Num(Int(2)))

  /** The "Default Style": it carries no metadata. */
  const DefaultStyle := GeoStylerStyle(
    StyleBody("Default Style", [Rule("Default Point Style", None, [DefaultPointSymbolizer]),
                                Rule("Default Line Style", None, [DefaultLineSymbolizer]),
                                Rule("Default Polygon Style", None, [DefaultPolygonSymbolizer])]),
    None)

  /** The layer has no style worth keeping: none at all, or an empty flat style object. */
  predicate HasEmptyStyle(layer: Layer)
  {
    layer.style.None? || (layer.style.value.FlatStyle? && layer.style.value.attrs == map[])
  }

  /** `applyDefaultStyleToLayer(layer)`: a layer with an empty style gets the default style; any
      other layer is returned as it is. */
  function ApplyDefaultStyleToLayer(layer: Layer): (r: Layer)
    ensures r.features == layer.features
    ensures HasEmptyStyle(layer) ==> r.style == Some(GeoStyler(DefaultStyle))
    ensures !HasEmptyStyle(layer) ==> r == layer
  {
    if HasEmptyStyle(layer) then layer.(style := Some(GeoStyler(DefaultStyle))) else layer
  }

  /** Applying the default twice is applying it once; the result never has an empty style. */
  lemma ApplyDefaultIsIdempotent(layer: Layer)
    ensures !HasEmptyStyle(ApplyDefaultStyleToLayer(layer))
    ensures ApplyDefaultStyleToLayer(ApplyDefaultStyleToLayer(layer)) == ApplyDefaultStyleToLayer(layer)
  {
  }

  /** The default style is rule-based, so translating a defaulted empty layer returns it unchanged;
      its point, line and polygon share one stroke, and the polygon's fill is the point's fill. */
  lemma DefaultStyleTranslatesToItself(features: seq<FeatureCollection>)
    ensures LayerToGeoStylerStyle(ApplyDefaultStyleToLayer(Layer(features, None))) == DefaultStyle
    ensures var rules := DefaultStyle.body.rules;
      && |rules| == 3
      && (forall i :: 0 <= i < 3 ==> rules[i].filter.None? && |rules[i].symbolizers| == 1)
      && rules[0].symbolizers[0].strokeColor == rules[1].symbolizers[0].color == rules[2].symbolizers[0].outlineColor
      && rules[0].symbolizers[0].strokeWidth == rules[1].symbolizers[0].width == rules[2].symbolizers[0].outlineWidth
      && rules[0].symbolizers[0].color == rules[2].symbolizers[0].color
      && rules[0].symbolizers[0].fillOpacity == rules[2].symbolizers[0].fillOpacity
  {
  }

  /** The default-style test: the empty layer `{}` gets the three-rule "Default Style". */
  lemma SampleEmptyLayerGetsDefault()
    ensures ApplyDefaultStyleToLayer(Layer([], None)).style == Some(GeoStyler(DefaultStyle))
    ensures DefaultStyle.body.name == "Default Style" && DefaultStyle.metadata.None?
  {
  }
}
