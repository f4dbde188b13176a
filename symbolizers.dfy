/**
 * The symbolizers of the rule-based style model, the image id that identifies
 * the picture a Mark or Icon symbolizer needs, and `addOpacityToColor`.
 * A field the symbolizer does not set holds `Undefined`.
 */
module Symbolizers {
  import opened JsValues
  import opened Strings

  datatype Symbolizer =
    | Mark(wellKnownName: Value, color: Value, fillOpacity: Value, opacity: Value, strokeColor: Value,
           strokeOpacity: Value, strokeWidth: Value, radius: Value, rotate: Value, msBringToFront: Value)
    | Icon(image: Value, opacity: Value, size: Value, rotate: Value)
    | Line(color: Value, opacity: Value, width: Value)
    | Fill(color: Value, opacity: Value, fillOpacity: Value, outlineColor: Value, outlineOpacity: Value,
           outlineWidth: Value)

  /** The seven fields a Mark's image depends on, as text, in id order. Rotation is not among them:
      it is applied to the image after it is drawn. */
  function MarkIdParts(s: Symbolizer): (parts: seq<string>)
    requires s.Mark?
    ensures |parts| == 7
  {
    [Text(s.wellKnownName), Text(s.color), Text(s.fillOpacity), Text(s.strokeColor),
     Text(s.strokeOpacity), Text(s.strokeWidth), Text(s.radius)]
  }

  /** `getImageIdFromSymbolizer`: an Icon is identified by its image source, a Mark by its seven
      drawing fields joined with ':'. */
  function GetImageIdFromSymbolizer(s: Symbolizer): (id: string)
    requires s.Mark? || s.Icon?
    ensures s.Icon? && s.image.Str? ==> id == s.image.s
  {
    if s.Icon? then Text(s.image) else Join(MarkIdParts(s), ':')
  }

  /** A Mark's id splits on ':' back into its seven drawing fields, in order, when no field
      text contains ':'. */
  lemma MarkIdSplitsIntoFields(s: Symbolizer)
    requires s.Mark?
    requires forall i :: 0 <= i < 7 ==> ':' !in MarkIdParts(s)[i]
    ensures Split(GetImageIdFromSymbolizer(s), ':') == MarkIdParts(s)
  {
    SplitJoin(MarkIdParts(s), ':');
  }

  /** Two Marks that differ only in rotation share one image. */
  lemma RotationIgnored(s: Symbolizer, rotate: Value)
    requires s.Mark? || s.Icon?
    ensures GetImageIdFromSymbolizer(s) == GetImageIdFromSymbolizer(s.(rotate := rotate))
  {
  }

  /** Two Marks with the same id (and no ':' inside their fields) agree on the text of all seven
      drawing fields. */
  lemma MarkIdDeterminesFields(s: Symbolizer, t: Symbolizer)
    requires s.Mark? && t.Mark?
    requires forall i :: 0 <= i < 7 ==> ':' !in MarkIdParts(s)[i] && ':' !in MarkIdParts(t)[i]
    requires GetImageIdFromSymbolizer(s) == GetImageIdFromSymbolizer(t)
    ensures MarkIdParts(s) == MarkIdParts(t)
  {
    MarkIdSplitsIntoFields(s);
    MarkIdSplitsIntoFields(t);
  }

  lemma NumberTexts()
    ensures NumberText(Decimal(5, 1)) == "0.5"
    ensures NumberText(Decimal(25, 2)) == "0.25"
    ensures NumberText(Int(3)) == "3"
    ensures NumberText(Int(16)) == "16"
  {
    assert Quot(5, 10) == 0 && Rem(5, 10) == 5;
    assert Pow10(2) == 100;
    assert Quot(25, 100) == 0 && Rem(25, 100) == 25;
    assert NatText(25) == NatText(2) + [Digit(5)];
    assert NatText(16) == NatText(1) + [Digit(6)];
  }

  /** Joining one more part in front adds that part and a separator. */
  lemma JoinCons(p: string, rest: seq<string>, sep: char)
    requires |rest| >= 1
    ensures Join([p] + rest, sep) == p + [sep] + Join(rest, sep)
  {
    assert ([p] + rest)[1..] == rest;
  }

  lemma JoinSeven(a: string, b: string, c: string, d: string, e: string, f: string, g: string)
    ensures Join([a, b, c, d, e, f, g], ':')
            == a + [':'] + (b + [':'] + (c + [':'] + (d + [':'] + (e + [':'] + (f + [':'] + g)))))
  {
    assert Join([g], ':') == g;
    JoinCons(f, [g], ':');
    assert [f] + [g] == [f, g];
    JoinCons(e, [f, g], ':');
    assert [e] + [f, g] == [e, f, g];
    JoinCons(d, [e, f, g], ':');
    assert [d] + [e, f, g] == [d, e, f, g];
    JoinCons(c, [d, e, f, g], ':');
    assert [c] + [d, e, f, g] == [c, d, e, f, g];
    JoinCons(b, [c, d, e, f, g], ':');
    assert [b] + [c, d, e, f, g] == [b, c, d, e, f, g];
    JoinCons(a, [b, c, d, e, f, g], ':');
    assert [a] + [b, c, d, e, f, g] == [a, b, c, d, e, f, g];
  }

  /** The circle Mark of the image-id tests. */
  const SampleMark := Mark(Str("Circle"), Str("#ff0000"), Num(Decimal(5, 1)), Undefined, Str("#00ff00"),
                           Num(Decimal(25, 2)), Num(Int(3)), Num(Int(16)), Num(Int(90)), Undefined)

  lemma SampleMarkParts()
    ensures MarkIdParts(SampleMark) == ["Circle", "#ff0000", "0.5", "#00ff00", "0.25", "3", "16"]
  {
    NumberTexts();
  }

  lemma SampleMarkText()
    ensures "Circle" + [':'] + ("#ff0000" + [':'] + ("0.5" + [':'] + ("#00ff00" + [':'] + ("0.25" + [':'] + ("3" + [':'] + "16")))))
            == "Circle:#ff0000:0.5:#00ff00:0.25:3:16"
  {
  }

  /** The image-id tests: a circle Mark and an Icon. */
  lemma SampleImageIds()
    ensures GetImageIdFromSymbolizer(SampleMark) == "Circle:#ff0000:0.5:#00ff00:0.25:3:16"
    ensures GetImageIdFromSymbolizer(Icon(Str("path/to/image"), Num(Decimal(5, 1)), Num(Int(32)), Num(Int(90))))
            == "path/to/image"
  {
    SampleMarkParts();
    JoinSeven("Circle", "#ff0000", "0.5", "#00ff00", "0.25", "3", "16");
    SampleMarkText();
  }

  /** `addOpacityToColor(color, opacity = 0.2)`: the colour with its `a` channel set to the
      opacity, 0.2 when the opacity is not given; the other channels are kept. */
  function AddOpacityToColor(color: Fields, opacity: Value): (rgba: Fields)
    ensures Get(rgba, "a") == if opacity == Undefined then Num(Decimal(2, 1)) else opacity
    ensures forall k :: k != "a" ==> Get(rgba, k) == Get(color, k)
  {
    color["a" := if opacity == Undefined then Num(Decimal(2, 1)) else opacity]
  }

  /** The opacity tests: 0 is kept as 0 (it is not replaced by the default), no opacity gives 0.2. */
  lemma OpacityZeroIsKept(color: Fields)
    ensures Get(AddOpacityToColor(color, Num(Int(0))), "a") == Num(Int(0))
    ensures Get(AddOpacityToColor(color, Undefined), "a") == Num(Decimal(2, 1))
  {
  }
}
