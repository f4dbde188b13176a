/**
 * The hash of the sample symbol style `{symbolUrl: "/path/symbol.svg",
 * color: "#005544", fillColor: "#218f8f"}`, whose JSON text is hashed here
 * five characters at a time. The result is negative: the accumulator wraps
 * around 2^32 many times on the way.
 */
module HashSample {
  import opened Wrappers
  import opened JsValues
  import opened Hashing

  /** The sample style, as a flat style object. */
  const SampleStyle: Fields := map["symbolUrl" := Str("/path/symbol.svg"), "color" := Str("#005544"), "fillColor" := Str("#218f8f")]

  /** `JSON.stringify` of the sample style, keys in insertion order. */
  const SampleStyleText: string := "{\"symbolUrl\":\"/path/symbol.svg\",\"color\":\"#005544\",\"fillColor\":\"#218f8f\"}"

  /** Appending one character performs one update of the accumulator. */
  lemma HashSnoc(a: string, c: char, h: int)
    requires HashCode(a) == h
    ensures HashCode(a + [c]) == ToInt32(31 * h + CharCode(c))
  {
    assert (a + [c])[..|a|] == a;
  }

  lemma Chunk5(a: string)
    requires HashCode(a) == 0
    ensures HashCode(a + "{\"sym") == 114720352
  {
    HashSnoc(a, '{', 0);
    HashSnoc(a + ['{'], '\"', 123);
    HashSnoc(a + ['{'] + ['\"'], 's', 3847);
    HashSnoc(a + ['{'] + ['\"'] + ['s'], 'y', 119372);
    HashSnoc(a + ['{'] + ['\"'] + ['s'] + ['y'], 'm', 3700653);
    assert a + ['{'] + ['\"'] + ['s'] + ['y'] + ['m'] == a + "{\"sym";
  }

  lemma Chunk10(a: string)
    requires HashCode(a) == 114720352
    ensures HashCode(a + "bolUr") == 2062717532
  {
    HashSnoc(a, 'b', 114720352);
    HashSnoc(a + ['b'], 'o', -738636286);
    HashSnoc(a + ['b'] + ['o'], 'l', -1422888275);
    HashSnoc(a + ['b'] + ['o'] + ['l'], 'U', -1159863457);
    HashSnoc(a + ['b'] + ['o'] + ['l'] + ['U'], 'r', -1596028714);
    assert a + ['b'] + ['o'] + ['l'] + ['U'] + ['r'] == a + "bolUr";
  }

  lemma Chunk15(a: string)
    requires HashCode(a) == 2062717532
    ensures HashCode(a + "l\":\"/") == 1389937717
  {
    HashSnoc(a, 'l', 2062717532);
    HashSnoc(a + ['l'], '\"', -480265840);
    HashSnoc(a + ['l'] + ['\"'], ':', -2003339118);
    HashSnoc(a + ['l'] + ['\"'] + [':'], '\"', -1973970456);
    HashSnoc(a + ['l'] + ['\"'] + [':'] + ['\"'], '/', -1063541958);
    assert a + ['l'] + ['\"'] + [':'] + ['\"'] + ['/'] == a + "l\":\"/";
  }

  lemma Chunk20(a: string)
    requires HashCode(a) == 1389937717
    ensures HashCode(a + "path/") == -1966426731
  {
    HashSnoc(a, 'p', 1389937717);
    HashSnoc(a + ['p'], 'a', 138396379);
    HashSnoc(a + ['p'] + ['a'], 't', -4679450);
    HashSnoc(a + ['p'] + ['a'] + ['t'], 'h', -145062834);
    HashSnoc(a + ['p'] + ['a'] + ['t'] + ['h'], '/', -201980454);
    assert a + ['p'] + ['a'] + ['t'] + ['h'] + ['/'] == a + "path/";
  }

  lemma Chunk25(a: string)
    requires HashCode(a) == -1966426731
    ensures HashCode(a + "symbo") == -2056407841
  {
    HashSnoc(a, 's', -1966426731);
    HashSnoc(a + ['s'], 'y', -829686402);
    HashSnoc(a + ['s'] + ['y'], 'm', 49525435);
    HashSnoc(a + ['s'] + ['y'] + ['m'], 'b', 1535288594);
    HashSnoc(a + ['s'] + ['y'] + ['m'] + ['b'], 'o', 349306256);
    assert a + ['s'] + ['y'] + ['m'] + ['b'] + ['o'] == a + "symbo";
  }

  lemma Chunk30(a: string)
    requires HashCode(a) == -2056407841
    ensures HashCode(a + "l.svg") == -2121002909
  {
    HashSnoc(a, 'l', -2056407841);
    HashSnoc(a + ['l'], '.', 675866477);
    HashSnoc(a + ['l'] + ['.'], 's', -522975647);
    HashSnoc(a + ['l'] + ['.'] + ['s'], 'v', 967624242);
    HashSnoc(a + ['l'] + ['.'] + ['s'] + ['v'], 'g', -68419452);
    assert a + ['l'] + ['.'] + ['s'] + ['v'] + ['g'] == a + "l.svg";
  }

  lemma Chunk35(a: string)
    requires HashCode(a) == -2121002909
    ensures HashCode(a + "\",\"co") == 1398366465
  {
    HashSnoc(a, '\"', -2121002909);
    HashSnoc(a + ['\"'], ',', -1326580705);
    HashSnoc(a + ['\"'] + [','], '\"', 1825671149);
    HashSnoc(a + ['\"'] + [','] + ['\"'], 'c', 761230805);
    HashSnoc(a + ['\"'] + [','] + ['\"'] + ['c'], 'o', 2123318574);
    assert a + ['\"'] + [','] + ['\"'] + ['c'] + ['o'] == a + "\",\"co";
  }

  lemma Chunk40(a: string)
    requires HashCode(a) == 1398366465
    ensures HashCode(a + "lor\":") == 1781933958
  {
    HashSnoc(a, 'l', 1398366465);
    HashSnoc(a + ['l'], 'o', 399687563);
    HashSnoc(a + ['l'] + ['o'], 'r', -494587324);
    HashSnoc(a + ['l'] + ['o'] + ['r'], '\"', 1847662254);
    HashSnoc(a + ['l'] + ['o'] + ['r'] + ['\"'], ':', 1442955060);
    assert a + ['l'] + ['o'] + ['r'] + ['\"'] + [':'] == a + "lor\":";
  }

  lemma Chunk45(a: string)
    requires HashCode(a) == 1781933958
    ensures HashCode(a + "\"#005") == -81568114
  {
    HashSnoc(a, '\"', 1781933958);
    HashSnoc(a + ['\"'], '#', -594622116);
    HashSnoc(a + ['\"'] + ['#'], '0', -1253416377);
    HashSnoc(a + ['\"'] + ['#'] + ['0'], '0', -201201975);
    HashSnoc(a + ['\"'] + ['#'] + ['0'] + ['0'], '5', -1942293881);
    assert a + ['\"'] + ['#'] + ['0'] + ['0'] + ['5'] == a + "\"#005";
  }

  lemma Chunk50(a: string)
    requires HashCode(a) == -81568114
    ensures HashCode(a + "544\",") == -543501647
  {
    HashSnoc(a, '5', -81568114);
    HashSnoc(a + ['5'], '4', 1766355815);
    HashSnoc(a + ['5'] + ['4'], '4', -1077544531);
    HashSnoc(a + ['5'] + ['4'] + ['4'], '\"', 955857959);
    HashSnoc(a + ['5'] + ['4'] + ['4'] + ['\"'], ',', -433174309);
    assert a + ['5'] + ['4'] + ['4'] + ['\"'] + [','] == a + "544\",";
  }

  lemma Chunk55(a: string)
    requires HashCode(a) == -543501647
    ensures HashCode(a + "\"fill") == 1517373588
  {
    HashSnoc(a, '\"', -543501647);
    HashSnoc(a + ['\"'], 'f', 331318161);
    HashSnoc(a + ['\"'] + ['f'], 'i', 1680928501);
    HashSnoc(a + ['\"'] + ['f'] + ['i'], 'l', 569176084);
    HashSnoc(a + ['\"'] + ['f'] + ['i'] + ['l'], 'l', 464589528);
    assert a + ['\"'] + ['f'] + ['i'] + ['l'] + ['l'] == a + "\"fill";
  }

  lemma Chunk60(a: string)
    requires HashCode(a) == 1517373588
    ensures HashCode(a + "Color") == 1636643631
  {
    HashSnoc(a, 'C', 1517373588);
    HashSnoc(a + ['C'], 'o', -206058961);
    HashSnoc(a + ['C'] + ['o'], 'l', -2092860384);
    HashSnoc(a + ['C'] + ['o'] + ['l'], 'o', -454162356);
    HashSnoc(a + ['C'] + ['o'] + ['l'] + ['o'], 'r', -1194131037);
    assert a + ['C'] + ['o'] + ['l'] + ['o'] + ['r'] == a + "Color";
  }

  lemma Chunk65(a: string)
    requires HashCode(a) == 1636643631
    ensures HashCode(a + "\":\"#2") == -404196630
  {
    HashSnoc(a, '\"', 1636643631);
    HashSnoc(a + ['\"'], ':', -803654957);
    HashSnoc(a + ['\"'] + [':'], '\"', 856500167);
    HashSnoc(a + ['\"'] + [':'] + ['\"'], '#', 781701435);
    HashSnoc(a + ['\"'] + [':'] + ['\"'] + ['#'], '2', -1537059256);
    assert a + ['\"'] + [':'] + ['\"'] + ['#'] + ['2'] == a + "\":\"#2";
  }

  lemma Chunk70(a: string)
    requires HashCode(a) == -404196630
    ensures HashCode(a + "18f8f") == -475379229
  {
    HashSnoc(a, '1', -404196630);
    HashSnoc(a + ['1'], '8', 354806407);
    HashSnoc(a + ['1'] + ['8'], 'f', -1885903215);
    HashSnoc(a + ['1'] + ['8'] + ['f'], '8', 1666542581);
    HashSnoc(a + ['1'] + ['8'] + ['f'] + ['8'], 'f', 123212515);
    assert a + ['1'] + ['8'] + ['f'] + ['8'] + ['f'] == a + "18f8f";
  }

  lemma Chunk72(a: string)
    requires HashCode(a) == -475379229
    ensures HashCode(a + "\"}") == -1572904514
  {
    HashSnoc(a, '\"', -475379229);
    HashSnoc(a + ['\"'], '}', -1851854177);
    assert a + ['\"'] + ['}'] == a + "\"}";
  }

  lemma Prefix5()
    ensures HashCode("{\"sym") == 114720352
  {
    Chunk5("");
    assert "" + "{\"sym" == "{\"sym";
  }

  lemma Prefix10()
    ensures HashCode("{\"symbolUr") == 2062717532
  {
    Prefix5();
    Chunk10("{\"sym");
    assert "{\"sym" + "bolUr" == "{\"symbolUr";
  }

  lemma Prefix15()
    ensures HashCode("{\"symbolUrl\":\"/") == 1389937717
  {
    Prefix10();
    Chunk15("{\"symbolUr");
    assert "{\"symbolUr" + "l\":\"/" == "{\"symbolUrl\":\"/";
  }

  lemma Prefix20()
    ensures HashCode("{\"symbolUrl\":\"/path/") == -1966426731
  {
    Prefix15();
    Chunk20("{\"symbolUrl\":\"/");
    assert "{\"symbolUrl\":\"/" + "path/" == "{\"symbolUrl\":\"/path/";
  }

  lemma Prefix25()
    ensures HashCode("{\"symbolUrl\":\"/path/symbo") == -2056407841
  {
    Prefix20();
    Chunk25("{\"symbolUrl\":\"/path/");
    assert "{\"symbolUrl\":\"/path/" + "symbo" == "{\"symbolUrl\":\"/path/symbo";
  }

  lemma Prefix30()
    ensures HashCode("{\"symbolUrl\":\"/path/symbol.svg") == -2121002909
  {
    Prefix25();
    Chunk30("{\"symbolUrl\":\"/path/symbo");
    assert "{\"symbolUrl\":\"/path/symbo" + "l.svg" == "{\"symbolUrl\":\"/path/symbol.svg";
  }

  lemma Prefix35()
    ensures HashCode("{\"symbolUrl\":\"/path/symbol.svg\",\"co") == 1398366465
  {
    Prefix30();
    Chunk35("{\"symbolUrl\":\"/path/symbol.svg");
    assert "{\"symbolUrl\":\"/path/symbol.svg" + "\",\"co" == "{\"symbolUrl\":\"/path/symbol.svg\",\"co";
  }

  lemma Prefix40()
    ensures HashCode("{\"symbolUrl\":\"/path/symbol.svg\",\"color\":") == 1781933958
  {
    Prefix35();
    Chunk40("{\"symbolUrl\":\"/path/symbol.svg\",\"co");
    assert "{\"symbolUrl\":\"/path/symbol.svg\",\"co" + "lor\":" == "{\"symbolUrl\":\"/path/symbol.svg\",\"color\":";
  }

  lemma Prefix45()
    ensures HashCode("{\"symbolUrl\":\"/path/symbol.svg\",\"color\":\"#005") == -81568114
  {
    Prefix40();
    Chunk45("{\"symbolUrl\":\"/path/symbol.svg\",\"color\":");
    assert "{\"symbolUrl\":\"/path/symbol.svg\",\"color\":" + "\"#005" == "{\"symbolUrl\":\"/path/symbol.svg\",\"color\":\"#005";
  }

  lemma Prefix50()
    ensures HashCode("{\"symbolUrl\":\"/path/symbol.svg\",\"color\":\"#005544\",") == -543501647
  {
    Prefix45();
    Chunk50("{\"symbolUrl\":\"/path/symbol.svg\",\"color\":\"#005");
    assert "{\"symbolUrl\":\"/path/symbol.svg\",\"color\":\"#005" + "544\"," == "{\"symbolUrl\":\"/path/symbol.svg\",\"color\":\"#005544\",";
  }

  lemma Prefix55()
    ensures HashCode("{\"symbolUrl\":\"/path/symbol.svg\",\"color\":\"#005544\",\"fill") == 1517373588
  {
    Prefix50();
    Chunk55("{\"symbolUrl\":\"/path/symbol.svg\",\"color\":\"#005544\",");
    assert "{\"symbolUrl\":\"/path/symbol.svg\",\"color\":\"#005544\"," + "\"fill" == "{\"symbolUrl\":\"/path/symbol.svg\",\"color\":\"#005544\",\"fill";
  }

  lemma Prefix60()
    ensures HashCode("{\"symbolUrl\":\"/path/symbol.svg\",\"color\":\"#005544\",\"fillColor") == 1636643631
  {
    Prefix55();
    Chunk60("{\"symbolUrl\":\"/path/symbol.svg\",\"color\":\"#005544\",\"fill");
    assert "{\"symbolUrl\":\"/path/symbol.svg\",\"color\":\"#005544\",\"fill" + "Color" == "{\"symbolUrl\":\"/path/symbol.svg\",\"color\":\"#005544\",\"fillColor";
  }

  lemma Prefix65()
    ensures HashCode("{\"symbolUrl\":\"/path/symbol.svg\",\"color\":\"#005544\",\"fillColor\":\"#2") == -404196630
  {
    Prefix60();
    Chunk65("{\"symbolUrl\":\"/path/symbol.svg\",\"color\":\"#005544\",\"fillColor");
    assert "{\"symbolUrl\":\"/path/symbol.svg\",\"color\":\"#005544\",\"fillColor" + "\":\"#2" == "{\"symbolUrl\":\"/path/symbol.svg\",\"color\":\"#005544\",\"fillColor\":\"#2";
  }

  lemma Prefix70()
    ensures HashCode("{\"symbolUrl\":\"/path/symbol.svg\",\"color\":\"#005544\",\"fillColor\":\"#218f8f") == -475379229
  {
    Prefix65();
    Chunk70("{\"symbolUrl\":\"/path/symbol.svg\",\"color\":\"#005544\",\"fillColor\":\"#2");
    assert "{\"symbolUrl\":\"/path/symbol.svg\",\"color\":\"#005544\",\"fillColor\":\"#2" + "18f8f" == "{\"symbolUrl\":\"/path/symbol.svg\",\"color\":\"#005544\",\"fillColor\":\"#218f8f";
  }

  lemma Prefix72()
    ensures HashCode("{\"symbolUrl\":\"/path/symbol.svg\",\"color\":\"#005544\",\"fillColor\":\"#218f8f\"}") == -1572904514
  {
    Prefix70();
    Chunk72("{\"symbolUrl\":\"/path/symbol.svg\",\"color\":\"#005544\",\"fillColor\":\"#218f8f");
    assert "{\"symbolUrl\":\"/path/symbol.svg\",\"color\":\"#005544\",\"fillColor\":\"#218f8f" + "\"}" == "{\"symbolUrl\":\"/path/symbol.svg\",\"color\":\"#005544\",\"fillColor\":\"#218f8f\"}";
  }

  /** `hashAndStringify` of the sample style is -1572904514 when the serialiser
      produces the sample's JSON text. */
  lemma SampleStyleHash(stringify: Fields -> string)
    requires stringify(SampleStyle) == SampleStyleText
    ensures HashAndStringify(Some(SampleStyle), stringify) == Ok(-1572904514)
  {
    Prefix72();
    assert "{\"symbolUrl\":\"/path/symbol.svg\",\"color\":\"#005544\",\"fillColor\":\"#218f8f\"}" == SampleStyleText;
  }
}
