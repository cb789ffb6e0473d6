/**
 * The generator object: construction derives the display names, sanitized
 * names and symbols from the icon names once, and each `generate_*` method
 * builds its text by appending one template line per icon to a buffer.
 */
module Generation {
  import opened Names
  import opened Templates

  datatype Result<T> = Ok(value: T) | Err(message: string)

  /** The message construction fails with. */
  const LengthMismatch := "names array should be same length as codes array"

  class CodeGenerator {
    const fontName: string
    const prefix: string
    /** `@camel_case_names` */
    const displayNames: seq<string>
    /** `@names`: the sanitized names. */
    const names: seq<string>
    const symbols: seq<string>
    const codes: seq<string>
    const className: string
    const headerFile: string
    const headerFileGen: string
    const implementationFile: string

    /** The derived arrays stay aligned by index with the codes. */
    ghost predicate Valid()
    {
      |displayNames| == |names| == |symbols| == |codes|
    }

    constructor (fontName: string, names: seq<string>, codes: seq<string>, namesAreCamelCase: bool, prefix: string)
      requires |names| == |codes|
      ensures Valid()
      ensures this.fontName == fontName && this.prefix == prefix && this.codes == codes
      ensures displayNames == DisplayNames(names, namesAreCamelCase)
      ensures this.names == SanitizedNames(names)
      ensures symbols == SymbolNames(prefix, displayNames)
      ensures className == "FAK" + fontName
      ensures headerFile == className + ".h"
      ensures headerFileGen == className + ".fakgen.h"
      ensures implementationFile == className + ".fakgen.m"
    {
      this.fontName := fontName;
      var display := DisplayNames(names, namesAreCamelCase);
      this.displayNames := display;
      this.prefix := prefix;
      this.names := SanitizedNames(names);
      this.symbols := SymbolNames(prefix, display);
      this.codes := codes;
      var cls := "FAK" + fontName;
      this.className := cls;
      this.headerFile := cls + ".h";
      this.headerFileGen := cls + ".fakgen.h";
      this.implementationFile := cls + ".fakgen.m";
    }

    /**
     * `CodeGenerator.new`: fails with the length-mismatch message exactly
     * when there are not as many codes as names.
     */
    static method New(fontName: string, names: seq<string>, codes: seq<string>, namesAreCamelCase: bool, prefix: string)
      returns (r: Result<CodeGenerator>)
      ensures r.Err? <==> |names| != |codes|
      ensures r.Err? ==> r.message == LengthMismatch
      ensures r.Ok? ==> fresh(r.value) && r.value.Valid()
      ensures r.Ok? ==> r.value.fontName == fontName && r.value.prefix == prefix && r.value.codes == codes
      ensures r.Ok? ==> r.value.displayNames == DisplayNames(names, namesAreCamelCase)
      ensures r.Ok? ==> r.value.names == SanitizedNames(names)
      ensures r.Ok? ==> r.value.symbols == SymbolNames(prefix, r.value.displayNames)
      ensures r.Ok? ==> r.value.className == "FAK" + fontName
      ensures r.Ok? ==> r.value.headerFile == r.value.className + ".h"
      ensures r.Ok? ==> r.value.headerFileGen == r.value.className + ".fakgen.h"
      ensures r.Ok? ==> r.value.implementationFile == r.value.className + ".fakgen.m"
    {
      if |names| != |codes| {
        return Err(LengthMismatch);
      }
      var g := new CodeGenerator(fontName, names, codes, namesAreCamelCase, prefix);
      return Ok(g);
    }

    /** `CodeGenerator.new` with the default keyword arguments: camelCase names and no prefix. */
    static method NewWithDefaults(fontName: string, names: seq<string>, codes: seq<string>)
      returns (r: Result<CodeGenerator>)
      ensures r.Err? <==> |names| != |codes|
      ensures r.Err? ==> r.message == LengthMismatch
      ensures r.Ok? ==> fresh(r.value) && r.value.Valid()
      ensures r.Ok? ==> r.value.fontName == fontName && r.value.prefix == "" && r.value.codes == codes
      ensures r.Ok? ==> r.value.displayNames == names
      ensures r.Ok? ==> r.value.names == SanitizedNames(names)
      ensures r.Ok? ==> r.value.symbols == SymbolNames("", names)
      ensures r.Ok? ==> r.value.className == "FAK" + fontName
      ensures r.Ok? ==> r.value.headerFile == r.value.className + ".h"
      ensures r.Ok? ==> r.value.headerFileGen == r.value.className + ".fakgen.h"
      ensures r.Ok? ==> r.value.implementationFile == r.value.className + ".fakgen.m"
    {
      r := New(fontName, names, codes, true, "");
    }

    /** The factory-method declarations of the header, one per display name, each followed by a newline. */
    method SignatureDeclarations() returns (text: string)
      ensures text == Unlines(SignatureLines(displayNames))
    {
      var lines := SignatureLines(displayNames);
      text := "";
      var i := 0;
      while i < |displayNames|
        invariant 0 <= i <= |displayNames|
        invariant text == Unlines(lines[..i])
      {
        assert lines[..i + 1] == lines[..i] + [lines[i]];
        UnlinesSnoc(lines[..i], lines[i]);
        text := text + SignatureLine(displayNames[i]) + "\n";
        i := i + 1;
      }
      assert lines[..i] == lines;
    }

    /** `generate_header` */
    method GenerateHeader() returns (header: string)
      ensures header == Header(className, displayNames)
    {
      var signatures := SignatureDeclarations();
      UnlinesAppend(HeaderOpening(className), SignatureLines(displayNames));
      UnlinesAppend(HeaderOpening(className) + SignatureLines(displayNames), HeaderClosing);
      header := Unlines(HeaderOpening(className)) + signatures + Unlines(HeaderClosing);
    }

    /** The string constants of the symbol block, one per symbol, each followed by a newline. */
    method SymbolDefinitions() returns (text: string)
      requires Valid()
      ensures text == Unlines(SymbolLines(symbols, codes))
    {
      var lines := SymbolLines(symbols, codes);
      text := "";
      var i := 0;
      while i < |symbols|
        invariant 0 <= i <= |symbols|
        invariant text == Unlines(lines[..i])
      {
        assert lines[..i + 1] == lines[..i] + [lines[i]];
        UnlinesSnoc(lines[..i], lines[i]);
        text := text + SymbolLine(symbols[i], codes[i]) + "\n";
        i := i + 1;
      }
      assert lines[..i] == lines;
    }

    /** `generate_symbols` */
    method GenerateSymbols() returns (block: string)
      requires Valid()
      ensures block == Unlines(SymbolBlockLines(symbols, codes))
    {
      var definitions := SymbolDefinitions();
      UnlinesAppend([SymbolsPragma, ""], SymbolLines(symbols, codes));
      UnlinesAppend([SymbolsPragma, ""] + SymbolLines(symbols, codes), [""]);
      BlankLine();
      block := Unlines([SymbolsPragma, ""]) + definitions + "\n";
    }

    /** The entry lines of `allIcons`, each followed by a newline. */
    method IconMapEntries() returns (entries: string)
      requires Valid()
      ensures entries == Unlines(IconEntries(symbols, displayNames))
    {
      var lines := IconEntries(symbols, displayNames);
      entries := "";
      var i := 0;
      while i < |displayNames|
        invariant 0 <= i <= |displayNames|
        invariant entries == Unlines(lines[..i])
      {
        assert lines[..i + 1] == lines[..i] + [lines[i]];
        UnlinesSnoc(lines[..i], lines[i]);
        entries := entries + IconEntry(symbols[i], displayNames[i]) + "\n";
        i := i + 1;
      }
      assert lines[..i] == lines;
    }

    /** `generate_icon_map` */
    method GenerateIconMap() returns (iconMap: string)
      requires Valid()
      ensures iconMap == Unlines(IconMapLines(symbols, displayNames))
    {
      var entries := IconMapEntries();
      UnlinesAppend(IconMapOpening, IconEntries(symbols, displayNames));
      UnlinesAppend(IconMapOpening + IconEntries(symbols, displayNames), MapClosing);
      iconMap := Unlines(IconMapOpening) + entries + Unlines(MapClosing);
    }

    /** The entry lines of `allNames`, each followed by a newline. */
    method NameMapEntries() returns (entries: string)
      requires Valid()
      ensures entries == Unlines(NameEntries(prefix, names, symbols))
    {
      var lines := NameEntries(prefix, names, symbols);
      entries := "";
      var i := 0;
      while i < |names|
        invariant 0 <= i <= |names|
        invariant entries == Unlines(lines[..i])
      {
        assert lines[..i + 1] == lines[..i] + [lines[i]];
        UnlinesSnoc(lines[..i], lines[i]);
        entries := entries + NameEntry(prefix + names[i], symbols[i]) + "\n";
        i := i + 1;
      }
      assert lines[..i] == lines;
    }

    /** `generate_name_map` */
    method GenerateNameMap() returns (nameMap: string)
      requires Valid()
      ensures nameMap == Unlines(NameMapLines(prefix, names, symbols))
    {
      var entries := NameMapEntries();
      UnlinesAppend(NameMapOpening, NameEntries(prefix, names, symbols));
      UnlinesAppend(NameMapOpening + NameEntries(prefix, names, symbols), MapClosing);
      nameMap := Unlines(NameMapOpening) + entries + Unlines(MapClosing);
    }

    /** The factory methods of the implementation, one per display name, each followed by a newline. */
    method FactoryMethods() returns (text: string)
      requires Valid()
      ensures text == Unlines(FactoryLines(displayNames, symbols))
    {
      var lines := FactoryLines(displayNames, symbols);
      text := "";
      var i := 0;
      while i < |displayNames|
        invariant 0 <= i <= |displayNames|
        invariant text == Unlines(lines[..i])
      {
        assert lines[..i + 1] == lines[..i] + [lines[i]];
        UnlinesSnoc(lines[..i], lines[i]);
        text := text + FactoryLine(displayNames[i], symbols[i]) + "\n";
        i := i + 1;
      }
      assert lines[..i] == lines;
    }

    /** `generate_implementation` */
    method GenerateImplementation() returns (implementation: string)
      requires Valid()
      ensures implementation == Implementation(headerFile, fontName, prefix, displayNames, names, symbols, codes)
    {
      var symbolBlock := GenerateSymbols();
      var factories := FactoryMethods();
      var iconMap := GenerateIconMap();
      var nameMap := GenerateNameMap();
      ImplementationSections(headerFile, fontName, prefix, displayNames, names, symbols, codes);
      implementation := Unlines(ImportLines(headerFile)) + symbolBlock + Unlines(FontBlockLines(fontName))
                        + Unlines(FactoryIntro) + factories
                        + "\n" + iconMap + "\n" + nameMap + Unlines(ImplementationClosing);
    }
  }
}
