/**
 * Reading the generated documents back line by line: where each fixed
 * line and each per-icon line sits, given that no name, code, prefix or
 * file name contains a newline.
 */
module Layout {
  import opened RubyString
  import opened Templates

  lemma {:induction false} NoLineBreaksAppend(a: seq<string>, b: seq<string>)
    requires NoLineBreaks(a) && NoLineBreaks(b)
    ensures NoLineBreaks(a + b)
  {
    forall i | 0 <= i < |a + b| ensures '\n' !in (a + b)[i] {
      if i >= |a| {
        assert (a + b)[i] == b[i - |a|];
      }
    }
  }

  // ---------------------------------------------------------------------
  // the header
  // ---------------------------------------------------------------------

  lemma BannerBreakFree()
    ensures '\n' !in Banner
  {
  }

  lemma PragmaBreakFree()
    ensures '\n' !in SignaturesPragma
  {
  }

  lemma HeaderOpeningBreakFree(className: string)
    requires '\n' !in className
    ensures NoLineBreaks(HeaderOpening(className))
  {
    assert '\n' !in InterfaceStart && '\n' !in InterfaceEnd;
    assert '\n' !in IconImport;
    BannerBreakFree();
    PragmaBreakFree();
  }

  lemma HeaderClosingBreakFree()
    ensures NoLineBreaks(HeaderClosing)
  {
    assert '\n' !in AllNamesDeclaration && '\n' !in End;
  }

  lemma SignatureLinesBreakFree(displayNames: seq<string>)
    requires NoLineBreaks(displayNames)
    ensures NoLineBreaks(SignatureLines(displayNames))
  {
    assert '\n' !in MethodStart && '\n' !in SignatureEnd;
    forall i | 0 <= i < |displayNames| ensures '\n' !in SignatureLines(displayNames)[i] {
      assert '\n' !in displayNames[i];
    }
  }

  lemma HeaderLinesBreakFree(className: string, displayNames: seq<string>)
    requires '\n' !in className
    requires NoLineBreaks(displayNames)
    ensures NoLineBreaks(HeaderLines(className, displayNames))
  {
    HeaderOpeningBreakFree(className);
    SignatureLinesBreakFree(displayNames);
    HeaderClosingBreakFree();
    NoLineBreaksAppend(HeaderOpening(className), SignatureLines(displayNames));
    NoLineBreaksAppend(HeaderOpening(className) + SignatureLines(displayNames), HeaderClosing);
  }

  /**
   * The header, line by line: banner, `FAKIcon.h` import, interface of the
   * class, pragma, one signature per display name in order, the `allNames`
   * declaration and `@end`, and nothing after the final newline.
   */
  lemma HeaderLayout(className: string, displayNames: seq<string>)
    requires '\n' !in className
    requires NoLineBreaks(displayNames)
    ensures var lines := Fields(Header(className, displayNames), '\n');
      var n := |displayNames|;
      && |lines| == n + 13
      && lines[0] == Banner && lines[1] == "" && lines[2] == IconImport && lines[3] == ""
      && lines[4] == InterfaceLine(className) && lines[5] == "" && lines[6] == SignaturesPragma
      && (forall i :: 0 <= i < n ==> lines[7 + i] == SignatureLine(displayNames[i]))
      && lines[n + 7] == "" && lines[n + 8] == "" && lines[n + 9] == AllNamesDeclaration
      && lines[n + 10] == "" && lines[n + 11] == End && lines[n + 12] == ""
  {
    HeaderLinesBreakFree(className, displayNames);
    LinesOfUnlines(HeaderLines(className, displayNames));
  }

  // ---------------------------------------------------------------------
  // the implementation
  // ---------------------------------------------------------------------

  lemma ImplementationLength(headerFile: string, fontName: string, prefix: string, displayNames: seq<string>,
                             sanitized: seq<string>, symbols: seq<string>, codes: seq<string>)
    requires |displayNames| == |sanitized| == |symbols| == |codes|
    ensures |ImplementationLines(headerFile, fontName, prefix, displayNames, sanitized, symbols, codes)| == 4 * |displayNames| + 53
  {
  }

  /**
   * The fixed lines before the factory methods: the import of the header
   * file, the symbol pragma, the class line (always FAKFontAwesome), and
   * the registration and lookup of the font by its name.
   */
  lemma ImplementationOpeningLandmarks(headerFile: string, fontName: string, prefix: string, displayNames: seq<string>,
                                       sanitized: seq<string>, symbols: seq<string>, codes: seq<string>)
    requires |displayNames| == |sanitized| == |symbols| == |codes|
    ensures var lines := ImplementationLines(headerFile, fontName, prefix, displayNames, sanitized, symbols, codes);
      var n := |displayNames|;
      && lines[2] == ImportStart + headerFile + Quote
      && lines[4] == SymbolsPragma
      && lines[n + 7] == ImplementationLine
      && lines[n + 14] == RegisterLine(fontName) && lines[n + 18] == LookupLine(fontName)
  {
  }

  /**
   * The fixed lines from the factory methods on: the factory pragma, the
   * `allIcons` and `allNames` method heads, and the closing marker as the
   * last line.
   */
  lemma ImplementationClosingLandmarks(headerFile: string, fontName: string, prefix: string, displayNames: seq<string>,
                                       sanitized: seq<string>, symbols: seq<string>, codes: seq<string>)
    requires |displayNames| == |sanitized| == |symbols| == |codes|
    ensures var lines := ImplementationLines(headerFile, fontName, prefix, displayNames, sanitized, symbols, codes);
      var n := |displayNames|;
      && lines[n + 24] == FactoryIntro[1]
      && lines[2 * n + 36] == IconMapOpening[8]
      && lines[3 * n + 46] == NameMapOpening[4]
      && lines[4 * n + 52] == End
  {
  }

  /**
   * The class the implementation defines is the one the header declares
   * exactly when that class is FAKFontAwesome.
   */
  lemma ImplementedClassMatchesOnlyFontAwesome(className: string)
    ensures ImplementationLine == ImplementationStart + className <==> className == ImplementedClass
  {
    if ImplementationLine == ImplementationStart + className {
      assert (ImplementationStart + className)[|ImplementationStart|..] == className;
      assert ImplementationLine[|ImplementationStart|..] == ImplementedClass;
    }
  }

  /** Symbol-block line `i` binds symbol `i` to code `i`. */
  lemma SymbolLinesInPlace(headerFile: string, fontName: string, prefix: string, displayNames: seq<string>,
                           sanitized: seq<string>, symbols: seq<string>, codes: seq<string>)
    requires |displayNames| == |sanitized| == |symbols| == |codes|
    ensures var lines := ImplementationLines(headerFile, fontName, prefix, displayNames, sanitized, symbols, codes);
      forall i :: 0 <= i < |symbols| ==> lines[6 + i] == SymbolLine(symbols[i], codes[i])
  {
  }

  /** Factory method `i` is named after display name `i` and delegates with symbol `i`. */
  lemma FactoryLinesInPlace(headerFile: string, fontName: string, prefix: string, displayNames: seq<string>,
                            sanitized: seq<string>, symbols: seq<string>, codes: seq<string>)
    requires |displayNames| == |sanitized| == |symbols| == |codes|
    ensures var lines := ImplementationLines(headerFile, fontName, prefix, displayNames, sanitized, symbols, codes);
      var n := |displayNames|;
      forall i :: 0 <= i < n ==> lines[n + 27 + i] == FactoryLine(displayNames[i], symbols[i])
  {
  }

  /** `allIcons` entry `i` maps symbol `i` to display name `i`. */
  lemma IconEntriesInPlace(headerFile: string, fontName: string, prefix: string, displayNames: seq<string>,
                           sanitized: seq<string>, symbols: seq<string>, codes: seq<string>)
    requires |displayNames| == |sanitized| == |symbols| == |codes|
    ensures var lines := ImplementationLines(headerFile, fontName, prefix, displayNames, sanitized, symbols, codes);
      var n := |displayNames|;
      forall i :: 0 <= i < n ==> lines[2 * n + 38 + i] == IconEntry(symbols[i], displayNames[i])
  {
  }

  /** `allNames` entry `i` maps the raw prefix and sanitized name `i` to symbol `i`. */
  lemma NameEntriesInPlace(headerFile: string, fontName: string, prefix: string, displayNames: seq<string>,
                           sanitized: seq<string>, symbols: seq<string>, codes: seq<string>)
    requires |displayNames| == |sanitized| == |symbols| == |codes|
    ensures var lines := ImplementationLines(headerFile, fontName, prefix, displayNames, sanitized, symbols, codes);
      var n := |displayNames|;
      forall i :: 0 <= i < n ==> lines[3 * n + 48 + i] == NameEntry(prefix + sanitized[i], symbols[i])
  {
  }
}
