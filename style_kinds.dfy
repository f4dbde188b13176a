/**
 * Classification of a flat style object into the visual kinds it exhibits
 * (stroke, fill, text, circle, marker, symbol) by the presence of attribute
 * keys, and the single title ranked from them.
 */
module StyleKinds {
  import opened JsValues

  /** `isAttrPresent(style, attributes)`: some listed attribute is a key of the style (an OR over the list). */
  function IsAttrPresent(style: Fields, attributes: seq<string>): (r: bool)
    ensures r <==> exists i :: 0 <= i < |attributes| && attributes[i] in style
  {
    if |attributes| == 0 then false
    else if attributes[0] in style then true
    else
      IsAttrPresent(style, attributes[1..])
  }

  /** The visual kinds; a style may exhibit several at once. */
  datatype Kind = Stroke | Fill | Text | Circle | Marker | Symbol

  /** The attribute keys whose presence signals each kind. */
  function Attributes(k: Kind): seq<string>
  {
    match k
    case Stroke => ["color", "opacity", "dashArray", "dashOffset", "lineCap", "lineJoin", "weight"]
    case Fill => ["fillColor", "fillOpacity"]
    case Text => ["label"]
    case Circle => ["radius"]
    case Marker => ["iconGlyph", "iconShape", "iconColor"]
    case Symbol => ["symbolUrl"]
  }

  predicate IsStrokeStyle(style: Fields) { IsAttrPresent(style, Attributes(Stroke)) }
  predicate IsFillStyle(style: Fields) { IsAttrPresent(style, Attributes(Fill)) }
  predicate IsTextStyle(style: Fields) { IsAttrPresent(style, Attributes(Text)) }
  predicate IsCircleStyle(style: Fields) { IsAttrPresent(style, Attributes(Circle)) }
  predicate IsMarkerStyle(style: Fields) { IsAttrPresent(style, Attributes(Marker)) }
  predicate IsSymbolStyle(style: Fields) { IsAttrPresent(style, Attributes(Symbol)) }

  /** The kind predicate named by `k`. */
  predicate HasKind(style: Fields, k: Kind)
  {
    match k
    case Stroke => IsStrokeStyle(style)
    case Fill => IsFillStyle(style)
    case Text => IsTextStyle(style)
    case Circle => IsCircleStyle(style)
    case Marker => IsMarkerStyle(style)
    case Symbol => IsSymbolStyle(style)
  }

  /** Every kind the style exhibits. */
  function Classify(style: Fields): (ks: set<Kind>)
    ensures forall k :: k in ks <==> HasKind(style, k)
  {
    (if IsStrokeStyle(style) then {Stroke} else {})
    + (if IsFillStyle(style) then {Fill} else {})
    + (if IsTextStyle(style) then {Text} else {})
    + (if IsCircleStyle(style) then {Circle} else {})
    + (if IsMarkerStyle(style) then {Marker} else {})
    + (if IsSymbolStyle(style) then {Symbol} else {})
  }

  /** `getStylerTitle`: the first kind that holds in the order Marker, Symbol, Text, Circle, Polygon, Polyline. */
  function GetStylerTitle(style: Fields): (r: string)
    ensures r in {"Marker", "Symbol", "Text", "Circle", "Polygon", "Polyline", ""}
    ensures r == "" <==> Classify(style) == {} && Get(style, "title") != Str("Circle Style")
  {
    if IsMarkerStyle(style) then "Marker"
    else if IsSymbolStyle(style) then "Symbol"
    else if IsTextStyle(style) then "Text"
    else if IsCircleStyle(style) || Get(style, "title") == Str("Circle Style") then "Circle"
    else if IsFillStyle(style) then "Polygon"
    else if IsStrokeStyle(style) then "Polyline"
    else ""
  }

  /** The rank of each kind in the title precedence: higher wins. */
  function Rank(k: Kind): nat
  {
    match k
    case Marker => 6
    case Symbol => 5
    case Text => 4
    case Circle => 3
    case Fill => 2
    case Stroke => 1
  }

  function KindTitle(k: Kind): string
  {
    match k
    case Marker => "Marker"
    case Symbol => "Symbol"
    case Text => "Text"
    case Circle => "Circle"
    case Fill => "Polygon"
    case Stroke => "Polyline"
  }

  /** The kinds used for the title: the classified ones, plus Circle for a style titled "Circle Style". */
  function TitleKinds(style: Fields): set<Kind>
  {
    Classify(style) + (if Get(style, "title") == Str("Circle Style") then {Circle} else {})
  }

  /** Precedence, stated independently of the if-chain: the title names the highest-ranked
      kind among the style's kinds, and is "" exactly when it has none. */
  lemma TitleIsHighestRank(style: Fields)
    ensures TitleKinds(style) == {} <==> GetStylerTitle(style) == ""
    ensures forall k :: k in TitleKinds(style) && (forall j :: j in TitleKinds(style) ==> Rank(j) <= Rank(k))
                        ==> GetStylerTitle(style) == KindTitle(k)
  {
    var ks := TitleKinds(style);
    forall k | k in ks && (forall j :: j in ks ==> Rank(j) <= Rank(k))
      ensures GetStylerTitle(style) == KindTitle(k)
    {
      assert HasKind(style, Marker) ==> Marker in ks;
      assert HasKind(style, Symbol) ==> Symbol in ks;
      assert HasKind(style, Text) ==> Text in ks;
      assert HasKind(style, Circle) ==> Circle in ks;
      assert HasKind(style, Fill) ==> Fill in ks;
    }
    if GetStylerTitle(style) == "" {
      forall k ensures k !in ks {
        assert k in ks ==> HasKind(style, k) || k == Circle;
      }
    } else {
      if IsMarkerStyle(style) { assert Marker in ks; }
      else if IsSymbolStyle(style) { assert Symbol in ks; }
      else if IsTextStyle(style) { assert Text in ks; }
      else if IsCircleStyle(style) || Get(style, "title") == Str("Circle Style") { assert Circle in ks; }
      else if IsFillStyle(style) { assert Fill in ks; }
      else { assert Stroke in ks; }
    }
  }

  /** The empty style `{}` has no kind and the empty title. */
  lemma EmptyStyle()
    ensures Classify(map[]) == {}
    ensures GetStylerTitle(map[]) == ""
  {
  }

  /** Stroke is an OR over its seven attributes: any single one of them suffices. */
  lemma StrokeIsAnyOf(style: Fields)
    ensures IsStrokeStyle(style) <==>
      "color" in style || "opacity" in style || "dashArray" in style || "dashOffset" in style
      || "lineCap" in style || "lineJoin" in style || "weight" in style
  {
    var attrs := Attributes(Stroke);
    if "color" in style { assert attrs[0] in style; }
    if "opacity" in style { assert attrs[1] in style; }
    if "dashArray" in style { assert attrs[2] in style; }
    if "dashOffset" in style { assert attrs[3] in style; }
    if "lineCap" in style { assert attrs[4] in style; }
    if "lineJoin" in style { assert attrs[5] in style; }
    if "weight" in style { assert attrs[6] in style; }
  }

  /** No attribute signals two different kinds. */
  lemma AttributesDisjoint(k: Kind, j: Kind, a: string)
    requires k != j
    requires a in Attributes(k)
    ensures a !in Attributes(j)
  {
  }

  /** A non-empty style whose keys all signal one kind exhibits that kind and no other. */
  lemma OnlyOwnKind(style: Fields, k: Kind)
    requires style != map[]
    requires forall a :: a in style ==> a in Attributes(k)
    ensures Classify(style) == {k}
  {
    var a :| a in style;
    var i :| 0 <= i < |Attributes(k)| && Attributes(k)[i] == a;
    assert HasKind(style, k);
    forall j | j != k ensures !HasKind(style, j) {
      forall i | 0 <= i < |Attributes(j)| ensures Attributes(j)[i] !in style {
        if Attributes(j)[i] in style {
          AttributesDisjoint(k, j, Attributes(j)[i]);
        }
      }
    }
  }

  /** A labelled style that also carries stroke and fill keys is stroke, fill and text at once. */
  lemma LabelledStyleIsThreeKinds(style: Fields)
    requires "label" in style && "color" in style && "fillColor" in style
    ensures {Stroke, Fill, Text} <= Classify(style)
  {
    assert Attributes(Stroke)[0] in style;
    assert Attributes(Fill)[0] in style;
    assert Attributes(Text)[0] in style;
  }
}
