/**
 * Worked examples of the generator's name mangling, each checked against
 * the definitions: the camelCase conversion with Ruby's `split` rules,
 * the sanitizing filter, the symbol identifiers, the define-style
 * upper-case notation, and the names of a small font.
 */
module NameExamples {
  import opened RubyString
  import opened Names

  lemma CapitalizeBar()
    ensures Capitalize("bar") == "Bar"
  {
    assert Downcase("ar") == "ar";
  }

  lemma CapitalizeShouted()
    ensures Capitalize("BAR") == "Bar"
  {
    assert Downcase("AR") == "ar";
  }

  lemma CapitalizeFa()
    ensures Capitalize("fa") == "Fa"
  {
    assert Downcase("a") == "a";
  }

  lemma CapitalizeLetters()
    ensures Capitalize("b") == "B" && Capitalize("c") == "C" && Capitalize("") == ""
  {
  }

  /** The documented example: the second segment is capitalized. */
  lemma CamelCaseFaBar(s: string)
    requires s == "fa-bar"
    ensures StringToCamelCase(s) == "faBar"
  {
    CapitalizeBar();
    CamelCaseTwoSegments(s, "fa", "bar");
  }

  /** Ruby's `capitalize` lower-cases the rest of a later segment. */
  lemma CamelCaseLowersSegmentTail()
    ensures StringToCamelCase("fa-BAR") == "faBar"
  {
    CapitalizeShouted();
    CamelCaseTwoSegments("fa-BAR", "fa", "BAR");
  }

  lemma CamelCaseThreeSegmentExample()
    ensures StringToCamelCase("a-b-c") == "aBC"
  {
    CapitalizeLetters();
    CamelCaseThreeSegments("a-b-c", "a", "b", "c");
  }

  /** A leading dash leaves an empty first segment, so the next one is capitalized. */
  lemma CamelCaseLeadingDash()
    ensures StringToCamelCase("-fa") == "Fa"
  {
    CapitalizeFa();
    CamelCaseTwoSegments("-fa", "", "fa");
  }

  /** An empty field between two dashes is kept and contributes nothing. */
  lemma CamelCaseDoubleDash()
    ensures StringToCamelCase("a--b") == "aB"
  {
    CapitalizeLetters();
    CamelCaseThreeSegments("a--b", "a", "", "b");
  }

  /** A trailing empty field is dropped. */
  lemma CamelCaseTrailingDash()
    ensures StringToCamelCase("fa-") == "fa"
  {
    CamelCaseIgnoresTrailingDash("fa");
    CamelCaseKeepsDashFree("fa");
  }

  /** A run of name characters is kept; the character after it, outside the class, is removed. */
  lemma SanitizeDropsAfter(s: string, a: string, c: char, b: string)
    requires s == a + [c] + b
    requires AllNameChars(a) && !IsNameChar(c)
    ensures Sanitize(s) == a + Sanitize(b)
  {
    SanitizeAppend(a + [c], b);
    SanitizeAppend(a, [c]);
    SanitizeFixesExactlyNameStrings(a);
    assert [c][1..] == [];
    assert Sanitize([c]) == [] + Sanitize([]);
    assert Sanitize(a + [c]) == a;
  }

  /** Characters outside the class, such as `_` and `!`, are dropped; the rest keep their case and order. */
  lemma SanitizeDropsPunctuation()
    ensures Sanitize("fa_bar!") == "fabar"
  {
    SanitizeDropsAfter("fa_bar!", "fa", '_', "bar!");
    SanitizeDropsBang();
  }

  lemma SanitizeDropsBang()
    ensures Sanitize("bar!") == "bar"
  {
    SanitizeDropsAfter("bar!", "bar", '!', "");
  }

  /** The dash is in the class, so it survives sanitizing. */
  lemma SanitizeKeepsDash()
    ensures Sanitize("fa-bar") == "fa-bar"
  {
    SanitizeFixesExactlyNameStrings("fa-bar");
  }

  /** The raw prefix is put before the sanitized name in the `allNames` keys. */
  lemma NameKeyKeepsRawPrefix()
    ensures NameKeys("fa-", [Sanitize("fa-bar")]) == ["fa-fa-bar"]
  {
    SanitizeKeepsDash();
    var keys := NameKeys("fa-", ["fa-bar"]);
    assert |keys| == 1 && keys[0] == "fa-" + "fa-bar";
    assert "fa-" + "fa-bar" == "fa-fa-bar";
    assert keys == ["fa-fa-bar"];
  }

  lemma UppercasePrefixFa()
    ensures UppercasePrefix("fa-") == "Fa"
  {
    assert Downcase("a-") == "a-";
    assert Capitalize("fa-") == "Fa-";
    assert Delete("-", '-') == [];
    assert Delete("a-", '-') == "a";
  }

  /** Prefix `fa-` and display name `faBar` give `FAKGlyphFaFaBar`. */
  lemma SymbolFaFaBar(prefix: string, name: string)
    requires prefix == "fa-" && name == "faBar"
    ensures Symbol(prefix, name) == "FAKGlyphFaFaBar"
  {
    UppercasePrefixFa();
    UpcaseFirstFaBar();
    SpellFaFaBar();
  }

  lemma SpellFaFaBar()
    ensures GlyphTag + "Fa" + "FaBar" == "FAKGlyphFaFaBar"
  {
  }

  lemma UpcaseFirstFaBar()
    ensures UpcaseFirst("faBar") == "FaBar"
  {
  }

  /** `faBar` and `FaBar` share one symbol. */
  lemma SymbolsCollideOnFirstLetter(prefix: string)
    ensures Symbol(prefix, "faBar") == Symbol(prefix, "FaBar")
  {
    assert UpcaseFirst("faBar") == UpcaseFirst("FaBar");
    SymbolsCollideIff(prefix, "faBar", "FaBar");
  }

  /** The define-style notation capitalizes each part rather than upper-casing it. */
  lemma UpperCaseFaBar()
    ensures StringToUpperCase("fa-", "bar") == "Fa_Bar"
  {
    assert Downcase("a-") == "a-";
    CapitalizeBar();
  }

  // The font of two icons `fa-bar` and `fa-square`, with camelCase
  // conversion and prefix `fa-`.

  lemma CapitalizeSquare()
    ensures Capitalize("square") == "Square"
  {
    assert Downcase("quare") == "quare";
  }

  lemma CamelCaseFaSquare(s: string)
    requires s == "fa-square"
    ensures StringToCamelCase(s) == "faSquare"
  {
    CapitalizeSquare();
    CamelCaseTwoSegments(s, "fa", "square");
  }

  lemma TwoIconDisplayNames(names: seq<string>)
    requires names == ["fa-bar", "fa-square"]
    ensures DisplayNames(names, false) == ["faBar", "faSquare"]
  {
    CamelCaseFaBar("fa-bar");
    CamelCaseFaSquare("fa-square");
    CamelCasePair(names, "faBar", "faSquare");
  }

  lemma CamelCasePair(names: seq<string>, a: string, b: string)
    requires |names| == 2 && StringToCamelCase(names[0]) == a && StringToCamelCase(names[1]) == b
    ensures DisplayNames(names, false) == [a, b]
  {
  }

  lemma SymbolFaFaSquare(prefix: string, name: string)
    requires prefix == "fa-" && name == "faSquare"
    ensures Symbol(prefix, name) == "FAKGlyphFaFaSquare"
  {
    UppercasePrefixFa();
    UpcaseFirstFaSquare();
    SpellFaFaSquare();
  }

  lemma SpellFaFaSquare()
    ensures GlyphTag + "Fa" + "FaSquare" == "FAKGlyphFaFaSquare"
  {
  }

  lemma UpcaseFirstFaSquare()
    ensures UpcaseFirst("faSquare") == "FaSquare"
  {
  }

  lemma TwoIconSymbols(displayNames: seq<string>)
    requires displayNames == ["faBar", "faSquare"]
    ensures SymbolNames("fa-", displayNames) == ["FAKGlyphFaFaBar", "FAKGlyphFaFaSquare"]
  {
    SymbolFaFaBar("fa-", "faBar");
    SymbolFaFaSquare("fa-", "faSquare");
  }

  lemma TwoIconSanitizedNames(names: seq<string>)
    requires names == ["fa-bar", "fa-square"]
    ensures SanitizedNames(names) == names
  {
    SanitizeKeepsDash();
    SanitizeFixesExactlyNameStrings("fa-square");
  }

  /** The dash of the name survives sanitizing, so the keys hold the prefix's dash and the name's. */
  lemma TwoIconNameKeys(names: seq<string>)
    requires names == ["fa-bar", "fa-square"]
    ensures NameKeys("fa-", SanitizedNames(names)) == ["fa-fa-bar", "fa-fa-square"]
  {
    TwoIconSanitizedNames(names);
    var keys := NameKeys("fa-", names);
    assert keys[0] == "fa-fa-bar" by { assert "fa-" + "fa-bar" == "fa-fa-bar"; }
    assert keys[1] == "fa-fa-square" by { assert "fa-" + "fa-square" == "fa-fa-square"; }
    assert keys == [keys[0], keys[1]];
  }
}
