/**
 * The two Objective-C documents the generator writes, as lists of lines.
 * A document is the concatenation of its lines, each followed by a
 * newline; the fixed boilerplate blocks are constants, and every per-icon
 * line is a template applied to the entries at one index of the derived
 * arrays.
 */
module Templates {
  import opened RubyString
  import opened Names

  // ---------------------------------------------------------------------
  // lines and documents
  // ---------------------------------------------------------------------

  /** Every line followed by a newline. */
  function Unlines(lines: seq<string>): (r: string)
    ensures |r| >= |lines|
  {
    if lines == [] then [] else lines[0] + "\n" + Unlines(lines[1..])
  }

  lemma {:induction false} UnlinesAppend(a: seq<string>, b: seq<string>)
    ensures Unlines(a + b) == Unlines(a) + Unlines(b)
  {
    if a != [] {
      assert (a + b)[0] == a[0];
      assert (a + b)[1..] == a[1..] + b;
      UnlinesAppend(a[1..], b);
    } else {
      assert a + b == b;
    }
  }

  /** Appending one line to a document: the line and a newline go at the end. */
  lemma UnlinesSnoc(lines: seq<string>, line: string)
    ensures Unlines(lines + [line]) == Unlines(lines) + line + "\n"
  {
    UnlinesAppend(lines, [line]);
    assert [line][1..] == [];
  }

  predicate NoLineBreaks(lines: seq<string>)
  {
    forall i :: 0 <= i < |lines| ==> '\n' !in lines[i]
  }

  /**
   * Reading a document back: splitting at every newline gives its lines
   * and one empty field after the final newline.
   */
  lemma {:induction false} LinesOfUnlines(lines: seq<string>)
    requires NoLineBreaks(lines)
    ensures Fields(Unlines(lines), '\n') == lines + [""]
  {
    if lines != [] {
      LinesOfUnlines(lines[1..]);
      FieldsCons(lines[0], '\n', Unlines(lines[1..]));
      assert [lines[0]] + (lines[1..] + [""]) == lines + [""];
    }
  }

  // ---------------------------------------------------------------------
  // the header document
  // ---------------------------------------------------------------------

  const Banner := "// This file is generated - Do no edit"
  const IconImport := "#import \"FAKIcon.h\""
  const SignaturesPragma := "#pragma mark Generated method signatures"
  const AllNamesDeclaration := "+ (NSDictionary *)allNames;"
  const End := "@end"

  const InterfaceStart := "@interface "
  const InterfaceEnd := ":FAKIcon"

  function InterfaceLine(className: string): string
  {
    InterfaceStart + className + InterfaceEnd
  }

  const MethodStart := "+ (instancetype)"
  const SignatureEnd := "IconWithSize:(CGFloat)size;"

  /** The declaration of the factory method of one display name. */
  function SignatureLine(displayName: string): string
  {
    MethodStart + displayName + SignatureEnd
  }

  function HeaderOpening(className: string): seq<string>
  {
    [Banner, "", IconImport, "", InterfaceLine(className), "", SignaturesPragma]
  }

  function SignatureLines(displayNames: seq<string>): (r: seq<string>)
    ensures |r| == |displayNames|
  {
    seq(|displayNames|, i requires 0 <= i < |displayNames| => SignatureLine(displayNames[i]))
  }

  const HeaderClosing: seq<string> := ["", "", AllNamesDeclaration, "", End]

  function HeaderLines(className: string, displayNames: seq<string>): seq<string>
  {
    HeaderOpening(className) + SignatureLines(displayNames) + HeaderClosing
  }

  /**
   * The text of `<class>.fakgen.h`: it opens with the banner, the import,
   * the interface and the pragma, and closes with the `allNames`
   * declaration and `@end`.
   */
  function Header(className: string, displayNames: seq<string>): (r: string)
    ensures Unlines(HeaderOpening(className)) <= r
    ensures EndsWith(r, Unlines(HeaderClosing))
  {
    UnlinesAppend(HeaderOpening(className), SignatureLines(displayNames));
    UnlinesAppend(HeaderOpening(className) + SignatureLines(displayNames), HeaderClosing);
    Unlines(HeaderLines(className, displayNames))
  }

  predicate EndsWith(s: string, suffix: string)
  {
    |suffix| <= |s| && s[|s| - |suffix|..] == suffix
  }

  // ---------------------------------------------------------------------
  // the implementation document
  // ---------------------------------------------------------------------

  const FrameworkImports: seq<string> := ["#import <Foundation/Foundation.h>", "#import <UIKit/UIKit.h>"]
  const ImportStart := "#import \""
  const Quote := "\""

  function ImportLines(headerFile: string): seq<string>
  {
    FrameworkImports + [ImportStart + headerFile + Quote, ""]
  }

  const SymbolsPragma := "#pragma mark Symbol definitions"

  const SymbolStart := "static NSString *const "
  const SymbolMiddle := " = @\""
  const SymbolEnd := "\";"

  /** The string constant that binds one symbol to its code. */
  function SymbolLine(symbol: string, code: string): string
  {
    SymbolStart + symbol + SymbolMiddle + code + SymbolEnd
  }

  function SymbolLines(symbols: seq<string>, codes: seq<string>): (r: seq<string>)
    requires |symbols| == |codes|
    ensures |r| == |symbols|
  {
    seq(|symbols|, i requires 0 <= i < |symbols| => SymbolLine(symbols[i], codes[i]))
  }

  function SymbolBlockLines(symbols: seq<string>, codes: seq<string>): seq<string>
    requires |symbols| == |codes|
  {
    [SymbolsPragma, ""] + SymbolLines(symbols, codes) + [""]
  }

  const ImplementationStart := "@implementation "
  /** The class the implementation defines: always the FontAwesome class, whatever the font. */
  const ImplementedClass := "FAKFontAwesome"
  const ImplementationLine := ImplementationStart + ImplementedClass

  /** The start of the font-loading method, up to the one-time registration. */
  const FontBlockOpening: seq<string> :=
    [ ImplementationLine,
      "",
      "+ (UIFont *)iconFontWithSize:(CGFloat)size",
      "{",
      "#ifndef DISABLE_FONTAWESOME_AUTO_REGISTRATION",
      "    static dispatch_once_t onceToken;",
      "    dispatch_once(&onceToken, ^{" ]

  const RegisterStart := "        [self registerIconFontWithURL:[[NSBundle mainBundle] URLForResource:@\""
  const RegisterEnd := "\" withExtension:@\"otf\"]];"

  /** Registers the font file named after the font, once. */
  function RegisterLine(fontName: string): string
  {
    RegisterStart + fontName + RegisterEnd
  }

  const FontBlockMiddle: seq<string> := ["    });", "#endif", ""]

  const LookupStart := "    UIFont *font = [UIFont fontWithName:@\""
  const LookupEnd := "\" size:size];"

  /** Looks the font up by its name. */
  function LookupLine(fontName: string): string
  {
    LookupStart + fontName + LookupEnd
  }

  const FontBlockClosing: seq<string> :=
    [ "    NSAssert(font, @\"UIFont object should not be nil, check if the font file is added to the application bundle and you're using the correct font name.\");",
      "    return font;",
      "}",
      "" ]

  /** The font-loading method: registers the font file once, then looks the font up by name. */
  function FontBlockLines(fontName: string): seq<string>
  {
    FontBlockOpening + [RegisterLine(fontName)] + FontBlockMiddle + [LookupLine(fontName)] + FontBlockClosing
  }

  const FactoryIntro: seq<string> :=
    ["", "#pragma mark Generated class method for constructing icon methods", "// Do no edit", ""]

  const FactoryMiddle := "IconWithSize:(CGFloat)size { return [self iconWithCode:"
  const FactoryEnd := " size:size]; }"

  /** The factory method of one display name: it delegates to `iconWithCode:` with the icon's symbol. */
  function FactoryLine(displayName: string, symbol: string): string
  {
    MethodStart + displayName + FactoryMiddle + symbol + FactoryEnd
  }

  function FactoryLines(displayNames: seq<string>, symbols: seq<string>): (r: seq<string>)
    requires |displayNames| == |symbols|
    ensures |r| == |displayNames|
  {
    seq(|displayNames|, i requires 0 <= i < |displayNames| => FactoryLine(displayNames[i], symbols[i]))
  }

  const IconMapOpening: seq<string> :=
    [ "#pragma mark - Generated mapping methods",
      "// Do not edit",
      "",
      "/** method for providing a mapping of all unicode characters being assigned a name -",
      " note: duplicate keys may lead to alias names colliding with primary names.",
      " @return a NSDictionary containing unicode characters as keys and transformed names as values. names",
      " have been stripped of prefixes and are converted to camelCase to maintain compability.",
      "*/",
      "+ (NSDictionary *)allIcons {",
      "    return @{" ]

  /** The closing of a map literal, after the empty line that ends the entries. */
  const MapClosing: seq<string> := ["", "    };", "}"]

  const EntryIndent := "      "
  const IconEntryMiddle := " : @\""
  const QuotedEntryEnd := "\","

  /** One entry of `allIcons`: symbol to display name. */
  function IconEntry(symbol: string, displayName: string): string
  {
    EntryIndent + symbol + IconEntryMiddle + displayName + QuotedEntryEnd
  }

  function IconEntries(symbols: seq<string>, displayNames: seq<string>): (r: seq<string>)
    requires |symbols| == |displayNames|
    ensures |r| == |symbols|
  {
    seq(|symbols|, i requires 0 <= i < |symbols| => IconEntry(symbols[i], displayNames[i]))
  }

  function IconMapLines(symbols: seq<string>, displayNames: seq<string>): seq<string>
    requires |symbols| == |displayNames|
  {
    IconMapOpening + IconEntries(symbols, displayNames) + MapClosing
  }

  const NameMapOpening: seq<string> :=
    [ "/** method for providing a mapping of names as given by the font",
      " creator to the unicode character sequence producing the icon",
      "    @return a NSDictionary. The keys are the names, the values are the unicode character sequences",
      "  */",
      "+ (NSDictionary *)allNames {",
      "    return @{" ]

  const NameEntryStart := "@\""
  const NameEntryMiddle := "\" : "
  const EntryEnd := ","

  /** One entry of `allNames`: key to symbol. */
  function NameEntry(key: string, symbol: string): string
  {
    EntryIndent + NameEntryStart + key + NameEntryMiddle + symbol + EntryEnd
  }

  function NameEntries(prefix: string, sanitized: seq<string>, symbols: seq<string>): (r: seq<string>)
    requires |sanitized| == |symbols|
    ensures |r| == |sanitized|
  {
    var keys := NameKeys(prefix, sanitized);
    seq(|sanitized|, i requires 0 <= i < |sanitized| => NameEntry(keys[i], symbols[i]))
  }

  function NameMapLines(prefix: string, sanitized: seq<string>, symbols: seq<string>): seq<string>
    requires |sanitized| == |symbols|
  {
    NameMapOpening + NameEntries(prefix, sanitized, symbols) + MapClosing
  }

  /** The tail the implementation ends with: an empty line and the closing marker. */
  const ImplementationClosing: seq<string> := ["", End]

  /**
   * The lines of `<class>.fakgen.m`, in order: imports, symbol block, font
   * block, factory methods, `allIcons`, `allNames`, closing marker.
   */
  function ImplementationLines(headerFile: string, fontName: string, prefix: string, displayNames: seq<string>,
                               sanitized: seq<string>, symbols: seq<string>, codes: seq<string>): seq<string>
    requires |displayNames| == |sanitized| == |symbols| == |codes|
  {
    ImportLines(headerFile) + SymbolBlockLines(symbols, codes)
    + FontBlockLines(fontName) + FactoryIntro + FactoryLines(displayNames, symbols) + [""]
    + IconMapLines(symbols, displayNames) + [""]
    + NameMapLines(prefix, sanitized, symbols) + ImplementationClosing
  }

  /**
   * The text of `<class>.fakgen.m`: it opens with the imports and closes
   * with an empty line and `@end`.
   */
  function Implementation(headerFile: string, fontName: string, prefix: string, displayNames: seq<string>,
                          sanitized: seq<string>, symbols: seq<string>, codes: seq<string>): (r: string)
    requires |displayNames| == |sanitized| == |symbols| == |codes|
    ensures Unlines(ImportLines(headerFile)) <= r
    ensures EndsWith(r, Unlines(ImplementationClosing))
  {
    var lines := ImplementationLines(headerFile, fontName, prefix, displayNames, sanitized, symbols, codes);
    var body := lines[..|lines| - |ImplementationClosing|];
    assert lines == body + ImplementationClosing;
    UnlinesAppend(body, ImplementationClosing);
    UnlinesPrefix(ImportLines(headerFile), lines);
    Unlines(lines)
  }

  /** A document that starts with some lines starts with their text. */
  lemma UnlinesPrefix(a: seq<string>, b: seq<string>)
    requires a <= b
    ensures Unlines(a) <= Unlines(b)
  {
    assert b == a + b[|a|..];
    UnlinesAppend(a, b[|a|..]);
  }

  /**
   * The implementation is its sections' texts in order: imports, symbol
   * block, font block, factory methods, `allIcons`, `allNames`, closing
   * marker, with an empty line before each map and before the marker.
   */
  lemma ImplementationSections(headerFile: string, fontName: string, prefix: string, displayNames: seq<string>,
                               sanitized: seq<string>, symbols: seq<string>, codes: seq<string>)
    requires |displayNames| == |sanitized| == |symbols| == |codes|
    ensures Implementation(headerFile, fontName, prefix, displayNames, sanitized, symbols, codes)
         == Unlines(ImportLines(headerFile)) + Unlines(SymbolBlockLines(symbols, codes))
            + Unlines(FontBlockLines(fontName)) + Unlines(FactoryIntro) + Unlines(FactoryLines(displayNames, symbols))
            + "\n" + Unlines(IconMapLines(symbols, displayNames))
            + "\n" + Unlines(NameMapLines(prefix, sanitized, symbols)) + Unlines(ImplementationClosing)
  {
    var p := ImportLines(headerFile) + SymbolBlockLines(symbols, codes) + FontBlockLines(fontName) + FactoryIntro
             + FactoryLines(displayNames, symbols);
    UnlinesOfFive(ImportLines(headerFile), SymbolBlockLines(symbols, codes), FontBlockLines(fontName), FactoryIntro,
                  FactoryLines(displayNames, symbols));
    UnlinesOfSeparated(p, IconMapLines(symbols, displayNames), NameMapLines(prefix, sanitized, symbols), ImplementationClosing);
  }

  /** Five consecutive blocks of lines. */
  lemma UnlinesOfFive(a: seq<string>, b: seq<string>, c: seq<string>, d: seq<string>, e: seq<string>)
    ensures Unlines(a + b + c + d + e) == Unlines(a) + Unlines(b) + Unlines(c) + Unlines(d) + Unlines(e)
  {
    UnlinesAppend(a, b);
    UnlinesAppend(a + b, c);
    UnlinesAppend(a + b + c, d);
    UnlinesAppend(a + b + c + d, e);
  }

  /** Blocks of lines separated by single empty lines. */
  lemma UnlinesOfSeparated(p: seq<string>, f: seq<string>, g: seq<string>, h: seq<string>)
    ensures Unlines(p + [""] + f + [""] + g + h)
         == Unlines(p) + "\n" + Unlines(f) + "\n" + Unlines(g) + Unlines(h)
  {
    UnlinesOfFive(p, [""], f, [""], g);
    UnlinesAppend(p + [""] + f + [""] + g, h);
    BlankLine();
  }

  /** An empty line is just a newline. */
  lemma BlankLine()
    ensures Unlines([""]) == "\n"
  {
    assert [""][1..] == [];
  }
}
