# FontAwesomeKit code generator, modelled in Dafny

FontAwesomeKit ships a build-time Ruby class, `CodeGenerator`. It turns three inputs into two Objective-C files:

- a font name;
- a list of icon names;
- a list of code strings, aligned with the names.

It writes a header `FAK<font>.fakgen.h` and an implementation `FAK<font>.fakgen.m`. The header declares one factory method per icon. The implementation defines three things:

- a string constant per icon, holding its code;
- the factory methods;
- two dictionaries, `allIcons` and `allNames`.

This project models the generator's whole logic: construction with its derived arrays, the two name helpers, and the five document builders. It proves what the generated names and documents look like.

Modules:

- `RubyString` (RubyString.dfy) covers the parts of Ruby's String API the generator uses, over ASCII:
  - `downcase`, `capitalize`, and the upper-casing of the first character;
  - `split` on one character (leading empty fields kept, trailing ones dropped, `""` giving no fields);
  - `join`, and `gsub` of a single character.
- `Names` (Names.dfy) covers name mangling:
  - `string_to_camel_case` and `string_to_upper_case`;
  - the name filter `gsub(/[^0-9a-z\-]/i, '')`;
  - the symbol identifiers;
  - the three arrays the constructor derives, index by index, from the icon names.
- `NameExamples` (Examples.dfy) checks worked examples against these definitions.
- `Templates` (Templates.dfy) describes both documents as lists of lines. A document is its lines, each followed by a newline. Fixed boilerplate is constant. Every per-icon line is a template applied to the entries at one index.
- `Generation` (Generation.dfy) holds the class `CodeGenerator`:
  - Its fields are set once, by a constructor.
  - `CodeGenerator.New` returns an error value where the Ruby code raises for a length mismatch.
  - Each `generate_*` method appends one template line per icon to a string buffer in a loop. Each is proved equal to the document function of `Templates`.
- `Layout` (Layout.dfy) reads the documents back line by line. It says where each fixed line and each per-icon line sits.

Behaviours of the code worth noting, which the model follows:

- camelCase uses Ruby's `capitalize`, which lower-cases the rest of every later segment: `fa-BAR` becomes `faBar`.
- `string_to_upper_case` capitalizes rather than upper-cases. Prefix `fa-` with `bar` gives `Fa_Bar`, not the `FA_BAR` its comment announces.
- The comment on the name filter says it avoids non-ASCII characters. With the `/i` flag, Ruby's case folding also lets through non-ASCII characters that fold into the class, such as U+212A KELVIN SIGN (folds to `k`) and U+017F LATIN SMALL LETTER LONG S (folds to `s`). The model's filter is ASCII only and removes them.
- The name filter keeps the dash. So with prefix `fa-`, the `allNames` key of `fa-bar` is `fa-fa-bar`: the raw prefix followed by the whole sanitized name.
- Upper-casing the first character of an empty display name leaves it empty: `""[0] = ""[0,1].upcase` assigns at an index equal to the length, which Ruby accepts.
- The implementation always declares `@implementation FAKFontAwesome`, whatever the font name. The header uses the computed class name `FAK<font>`.

## Model

| member | source | states |
|---|---|---|
| RubyString.Capitalize | CodeGenerators/CodeGenerator.rb:55 | `capitalize` keeps the length and the letters up to case; the first character is not lower case and no later one is upper case |
| RubyString.CapitalizeIdempotent | CodeGenerators/CodeGenerator.rb:55 | capitalizing twice is capitalizing once |
| RubyString.UpcaseFirst | CodeGenerators/CodeGenerator.rb:25-26 | upper-casing the first character of a clone keeps the length and every later character unchanged; the first character is not lower case |
| RubyString.Delete | CodeGenerators/CodeGenerator.rb:23 | `gsub('-', '')` leaves no dash, adds no character and never lengthens |
| RubyString.Replace | CodeGenerators/CodeGenerator.rb:64 | `gsub('-', '_')` keeps the length, puts `_` wherever there was a dash, and keeps every other character in place |
| RubyString.Split | CodeGenerators/CodeGenerator.rb:50 | `split('-')` is the dash-separated fields with trailing empty ones dropped; no piece holds a dash and the last piece is not empty |
| RubyString.Concat | CodeGenerators/CodeGenerator.rb:59 | `join` without a separator: the result is exactly as long as all the parts together, so nothing is added or lost between them (where each part sits is stated by the three rows below) |
| RubyString.ConcatStartsWithFirst | CodeGenerators/CodeGenerator.rb:59 | the joined text starts with the first part |
| RubyString.ConcatEndsWithLast | CodeGenerators/CodeGenerator.rb:59 | the joined text ends with the last part |
| RubyString.ConcatAppend | CodeGenerators/CodeGenerator.rb:59 | joining two lists of parts one after the other is joining each and concatenating the results |
| RubyString.ConcatThree | CodeGenerators/CodeGenerator.rb:59 | three parts joined are the three parts one after another |
| RubyString.ConcatSplit | CodeGenerators/CodeGenerator.rb:50-59 | joining the pieces of a split without separator gives the input with every separator removed |
| RubyString.SplitAbsent | CodeGenerators/CodeGenerator.rb:50 | a string without the separator splits into itself, and the empty string into nothing |
| RubyString.JoinFields | CodeGenerators/CodeGenerator.rb:50 | joining the fields of a string back with the separator gives the string again |
| RubyString.FieldsJoin | CodeGenerators/CodeGenerator.rb:50 | when cut at every separator with empty fields kept (`Fields`, which `split` then trims of trailing empty fields), separator-free parts joined with the separator give back exactly those parts |
| Names.CapitalizeTail | CodeGenerators/CodeGenerator.rb:51-57 | its contract states one output segment per input segment; the rule itself (segment 0 verbatim, every later segment capitalized) is defined by the comprehension in its body, and Names.CamelCaseTwoSegments and Names.CamelCaseThreeSegments exhibit it on two- and three-segment names |
| Names.StringToCamelCase | CodeGenerators/CodeGenerator.rb:48-60 | `string_to_camel_case` contains no dash; Names.CamelCaseIsDashlessUpToCase, Names.CamelCaseOfSegments and the lemmas below state its content |
| Names.CapitalizedPartsHaveNoDash | CodeGenerators/CodeGenerator.rb:51-59 | capitalizing and joining dash-free parts yields no dash |
| Names.CamelCaseIsDashlessUpToCase | CodeGenerators/CodeGenerator.rb:48-60 | ignoring case, the camelCase form is the input with every dash deleted, and has its length |
| Names.CamelCaseKeepsDashFree | CodeGenerators/CodeGenerator.rb:48-60 | a dash-free name is returned unchanged |
| Names.CamelCaseIdempotent | CodeGenerators/CodeGenerator.rb:48-60 | converting a camelCase form again changes nothing |
| Names.CamelCaseKeepsFirstSegment | CodeGenerators/CodeGenerator.rb:50-53 | the text before the first dash is kept verbatim at the front |
| Names.CamelCaseOfSegments | CodeGenerators/CodeGenerator.rb:48-60 | for dash-joined segments, the result is the segments up to the last non-empty one, the first verbatim and the others capitalized, joined |
| Names.CamelCaseTwoSegments | CodeGenerators/CodeGenerator.rb:48-60 | `x-y` with `y` non-empty gives `x` followed by `y` capitalized |
| Names.CamelCaseThreeSegments | CodeGenerators/CodeGenerator.rb:48-60 | `x-y-z` with `z` non-empty gives `x`, then `y` capitalized, then `z` capitalized |
| Names.CamelCaseIgnoresTrailingDash | CodeGenerators/CodeGenerator.rb:50 | a trailing dash does not change the camelCase form, since `split` drops the trailing empty field |
| Names.StringToUpperCase | CodeGenerators/CodeGenerator.rb:62-65 | the result is as long as prefix and string together and holds no dash; up to case it is prefix then string with every dash turned into `_`; the first character of each non-empty part is not lower case and every other character is not upper case; `_` stands exactly where the input had `-` or `_` |
| Names.UpperCaseParts | CodeGenerators/CodeGenerator.rb:64 | the two converted parts, concatenated, keep the length, hold no dash, lower-case to the lower-cased inputs with dashes as `_`, and carry each part's case pattern and `_` positions over to the whole |
| Names.DowncaseUnderscored | CodeGenerators/CodeGenerator.rb:64 | lower-casing one capitalized, underscored part gives the lower-cased input with every dash turned into `_` |
| Names.CapitalizedWithUnderscores | CodeGenerators/CodeGenerator.rb:64 | one capitalized part with dashes turned into `_`: first character not lower case, the others not upper case, `_` exactly where a dash or an underscore was |
| Names.IsNameChar | CodeGenerators/CodeGenerator.rb:20 | a character is kept exactly when its lower-case form is a digit, a lower-case letter or the dash, which is `[0-9a-z\-]` matched case-insensitively over ASCII; Names.SanitizeCounts states the filter keeps exactly these |
| Names.Sanitize | CodeGenerators/CodeGenerator.rb:18-21 | the sanitized name holds only characters of `[0-9A-Za-z-]` and is no longer than the name |
| Names.SanitizeAppend | CodeGenerators/CodeGenerator.rb:20 | the filter works character by character, so it distributes over concatenation |
| Names.SanitizeIsSubsequence | CodeGenerators/CodeGenerator.rb:18-21 | the sanitized name is obtained from the name by deleting characters, so case and order are kept |
| Names.SanitizeCounts | CodeGenerators/CodeGenerator.rb:18-21 | each character of the class occurs as often as in the name, and no other character occurs |
| Names.SanitizeFixesExactlyNameStrings | CodeGenerators/CodeGenerator.rb:18-21 | a name is left unchanged exactly when all its characters are in the class |
| Names.SanitizeIdempotent | CodeGenerators/CodeGenerator.rb:18-21 | sanitizing twice is sanitizing once |
| Names.UppercasePrefix | CodeGenerators/CodeGenerator.rb:23 | the capitalized prefix without dashes holds no dash and is, up to case, the prefix with its dashes deleted; its first character is not lower case when the prefix starts with something other than a dash, and no other character is upper case |
| Names.UppercasePrefixCase | CodeGenerators/CodeGenerator.rb:23 | the case pattern of the mangled prefix: first character upper case unless the prefix starts with a dash, the rest lower case |
| Names.Symbol | CodeGenerators/CodeGenerator.rb:24-28 | a symbol starts with `FAKGlyph`, and its length is the tag, the mangled prefix and the display name together |
| Names.SymbolsCollideIff | CodeGenerators/CodeGenerator.rb:24-28 | two display names share a symbol exactly when they agree once their first characters are upper-cased |
| Names.DisplayNames | CodeGenerators/CodeGenerator.rb:7-14 | one display name per name; the names themselves when they are already camelCase, otherwise dash-free camelCase forms |
| Names.SanitizedNames | CodeGenerators/CodeGenerator.rb:18-21 | one sanitized name per name, in order, each within the class and a subsequence of its name |
| Names.SymbolNames | CodeGenerators/CodeGenerator.rb:23-28 | one symbol per display name, in order, each starting with `FAKGlyph` |
| Names.NameKeys | CodeGenerators/CodeGenerator.rb:168-170 | one `allNames` key per sanitized name; key i in the document is stated by Layout.NameEntriesInPlace |
| Names.NameKeysDistinctIff | CodeGenerators/CodeGenerator.rb:168-170 | the `allNames` keys are pairwise distinct exactly when the sanitized names are |
| NameExamples.CapitalizeShouted | CodeGenerators/CodeGenerator.rb:55 | `capitalize` turns `BAR` into `Bar` |
| NameExamples.CamelCaseFaBar | CodeGenerators/CodeGenerator.rb:48-60 | `fa-bar` becomes `faBar` |
| NameExamples.CamelCaseLowersSegmentTail | CodeGenerators/CodeGenerator.rb:48-60 | `fa-BAR` becomes `faBar` |
| NameExamples.CamelCaseThreeSegmentExample | CodeGenerators/CodeGenerator.rb:48-60 | `a-b-c` becomes `aBC` |
| NameExamples.CamelCaseLeadingDash | CodeGenerators/CodeGenerator.rb:48-60 | `-fa` becomes `Fa`: the empty first field is kept, so the next one is capitalized |
| NameExamples.CamelCaseDoubleDash | CodeGenerators/CodeGenerator.rb:48-60 | `a--b` becomes `aB` |
| NameExamples.CamelCaseTrailingDash | CodeGenerators/CodeGenerator.rb:48-60 | `fa-` becomes `fa` |
| NameExamples.CamelCaseFaSquare | CodeGenerators/CodeGenerator.rb:48-60 | `fa-square` becomes `faSquare` |
| NameExamples.SanitizeDropsAfter | CodeGenerators/CodeGenerator.rb:18-21 | a run of class characters is kept, and the character after it, outside the class, is removed |
| NameExamples.SanitizeDropsPunctuation | CodeGenerators/CodeGenerator.rb:18-21 | `fa_bar!` becomes `fabar` |
| NameExamples.SanitizeDropsBang | CodeGenerators/CodeGenerator.rb:18-21 | `bar!` becomes `bar` |
| NameExamples.SanitizeKeepsDash | CodeGenerators/CodeGenerator.rb:18-21 | `fa-bar` is unchanged |
| NameExamples.NameKeyKeepsRawPrefix | CodeGenerators/CodeGenerator.rb:168-170 | with prefix `fa-`, the key of `fa-bar` is `fa-fa-bar` |
| NameExamples.UppercasePrefixFa | CodeGenerators/CodeGenerator.rb:23 | prefix `fa-` is mangled to `Fa` |
| NameExamples.SymbolFaFaBar | CodeGenerators/CodeGenerator.rb:23-28 | prefix `fa-` and display name `faBar` give `FAKGlyphFaFaBar` |
| NameExamples.SymbolsCollideOnFirstLetter | CodeGenerators/CodeGenerator.rb:25-27 | `faBar` and `FaBar` get the same symbol |
| NameExamples.UpperCaseFaBar | CodeGenerators/CodeGenerator.rb:62-65 | prefix `fa-` with `bar` gives `Fa_Bar` |
| NameExamples.CamelCasePair | CodeGenerators/CodeGenerator.rb:11-13 | two names map to their two camelCase forms, in order |
| NameExamples.TwoIconDisplayNames | CodeGenerators/CodeGenerator.rb:7-14 | names `fa-bar`, `fa-square`, not camelCase, give display names `faBar`, `faSquare` |
| NameExamples.SymbolFaFaSquare | CodeGenerators/CodeGenerator.rb:23-28 | prefix `fa-` and display name `faSquare` give `FAKGlyphFaFaSquare` |
| NameExamples.TwoIconSymbols | CodeGenerators/CodeGenerator.rb:23-28 | with prefix `fa-`, those display names give symbols `FAKGlyphFaFaBar`, `FAKGlyphFaFaSquare` |
| NameExamples.TwoIconSanitizedNames | CodeGenerators/CodeGenerator.rb:18-21 | `fa-bar`, `fa-square` are left unchanged by sanitizing |
| NameExamples.TwoIconNameKeys | CodeGenerators/CodeGenerator.rb:168-170 | with prefix `fa-`, their `allNames` keys are `fa-fa-bar`, `fa-fa-square` |
| Templates.UnlinesAppend | CodeGenerators/CodeGenerator.rb:69-80 | appending a block of lines to a document appends its text |
| Templates.UnlinesSnoc | CodeGenerators/CodeGenerator.rb:77 | appending one line appends the line and a newline |
| Templates.LinesOfUnlines | CodeGenerators/CodeGenerator.rb:67-83 | splitting a document of newline-free lines at every newline gives its lines back, plus one empty field after the final newline |
| Templates.SignatureLines | CodeGenerators/CodeGenerator.rb:73-78 | one factory declaration per display name; Layout.HeaderLayout states the declaration at each index |
| Templates.SymbolLines | CodeGenerators/CodeGenerator.rb:130-135 | one string constant per symbol; Layout.SymbolLinesInPlace states the constant at each index |
| Templates.FactoryLines | CodeGenerators/CodeGenerator.rb:117-122 | one factory method per display name; Layout.FactoryLinesInPlace states the method at each index |
| Templates.IconEntries | CodeGenerators/CodeGenerator.rb:142-147 | one `allIcons` entry per symbol; Layout.IconEntriesInPlace states the entry at each index |
| Templates.NameEntries | CodeGenerators/CodeGenerator.rb:168-173 | one `allNames` entry per sanitized name; Layout.NameEntriesInPlace states the entry at each index |
| Templates.Header | CodeGenerators/CodeGenerator.rb:67-83 | the header text starts with the banner, the `FAKIcon.h` import, the interface and the pragma, and ends with the `allNames` declaration and `@end`; Layout.HeaderLayout states every line |
| Templates.Implementation | CodeGenerators/CodeGenerator.rb:85-125 | the implementation text starts with the imports and ends with an empty line and `@end`; Templates.ImplementationSections and the Layout lemmas state the rest |
| Templates.UnlinesPrefix | CodeGenerators/CodeGenerator.rb:87-92 | a document that starts with some lines starts with their text |
| Templates.ImplementationSections | CodeGenerators/CodeGenerator.rb:124 | the implementation is, in order: imports, symbol block, font block, factory methods, an empty line, `allIcons`, an empty line, `allNames`, then an empty line and `@end` |
| Generation.CodeGenerator.constructor | CodeGenerators/CodeGenerator.rb:4-41 | sets font name, prefix and codes, and the display names, sanitized names and symbols derived from the names, aligned by index; the class is `FAK` + font name, with files `<class>.h`, `<class>.fakgen.h` and `<class>.fakgen.m` |
| Generation.CodeGenerator.New | CodeGenerators/CodeGenerator.rb:4-41 | fails with `names array should be same length as codes array` exactly when the names and codes differ in number; otherwise yields a fresh generator whose fields are those of the constructor |
| Generation.CodeGenerator.NewWithDefaults | CodeGenerators/CodeGenerator.rb:4-41 | with the default arguments: fails with the length-mismatch message exactly when the names and codes differ in number; otherwise the display names are the names themselves, the prefix is empty, and font name, codes, sanitized names, symbols, class name and file names are as for New |
| Generation.CodeGenerator.SignatureDeclarations | CodeGenerators/CodeGenerator.rb:73-78 | the loop appends the declarations of all display names, in order |
| Generation.CodeGenerator.GenerateHeader | CodeGenerators/CodeGenerator.rb:67-83 | the header is Templates.Header of the class name and the display names |
| Generation.CodeGenerator.SymbolDefinitions | CodeGenerators/CodeGenerator.rb:130-135 | the loop appends the string constants of all symbols with their codes, in order |
| Generation.CodeGenerator.GenerateSymbols | CodeGenerators/CodeGenerator.rb:127-138 | the symbol block is the pragma, an empty line, the constants and an empty line |
| Generation.CodeGenerator.IconMapEntries | CodeGenerators/CodeGenerator.rb:142-147 | the loop appends the `allIcons` entries of all icons, in order |
| Generation.CodeGenerator.GenerateIconMap | CodeGenerators/CodeGenerator.rb:140-164 | the `allIcons` method is its fixed opening, the entries and the closing |
| Generation.CodeGenerator.NameMapEntries | CodeGenerators/CodeGenerator.rb:168-173 | the loop appends the `allNames` entries, keyed by the raw prefix and the sanitized name, in order |
| Generation.CodeGenerator.GenerateNameMap | CodeGenerators/CodeGenerator.rb:166-186 | the `allNames` method is its fixed opening, the entries and the closing |
| Generation.CodeGenerator.FactoryMethods | CodeGenerators/CodeGenerator.rb:117-122 | the loop appends the factory methods of all display names with their symbols, in order |
| Generation.CodeGenerator.GenerateImplementation | CodeGenerators/CodeGenerator.rb:85-125 | the implementation is Templates.Implementation of the generator's file name, font name, prefix and arrays |
| Layout.HeaderLinesBreakFree | CodeGenerators/CodeGenerator.rb:67-83 | no header line contains a newline when the class and display names do not |
| Layout.HeaderLayout | CodeGenerators/CodeGenerator.rb:67-83 | the header text is 12 lines plus one per icon; split at newlines it gives 13 fields plus one per icon, the last one empty: banner, `FAKIcon.h` import, interface of the class, pragma, one declaration per display name in order, then the `allNames` declaration and `@end` and an empty field after the final newline |
| Layout.ImplementationLength | CodeGenerators/CodeGenerator.rb:85-125 | the implementation has 53 lines plus four per icon |
| Layout.ImplementationOpeningLandmarks | CodeGenerators/CodeGenerator.rb:87-112 | the implementation imports the header file, has the symbol pragma, the `@implementation FAKFontAwesome` line, and registers and looks up the font by its name, each at a fixed line offset |
| Layout.ImplementationClosingLandmarks | CodeGenerators/CodeGenerator.rb:115-124 | the factory pragma, the `allIcons` and `allNames` method heads and the final `@end` sit at fixed offsets |
| Layout.ImplementedClassMatchesOnlyFontAwesome | CodeGenerators/CodeGenerator.rb:96 | the implemented class is the declared class `FAK<font>` exactly when the font is `FontAwesome` |
| Layout.SymbolLinesInPlace | CodeGenerators/CodeGenerator.rb:130-135 | line 6+i binds symbol i to code i |
| Layout.FactoryLinesInPlace | CodeGenerators/CodeGenerator.rb:117-122 | factory method i is named after display name i and delegates with symbol i |
| Layout.IconEntriesInPlace | CodeGenerators/CodeGenerator.rb:142-147 | `allIcons` entry i maps symbol i to display name i |
| Layout.NameEntriesInPlace | CodeGenerators/CodeGenerator.rb:168-173 | `allNames` entry i maps the raw prefix and sanitized name i to symbol i |

## Left out

- `generate` (CodeGenerators/CodeGenerator.rb:43-46) writes the two documents to files. File I/O is not modelled; the documents themselves are.
- The `attr_accessor` setters of line 2 are not modelled. Reassigning a field after construction would desynchronise the derived arrays, so the model keeps every field constant after construction.
- Runtime exceptions other than the length mismatch are not modelled, because names are sequences of characters: the FrozenError that `ucfirst[0] = …` (line 26) raises when a caller passes a frozen name with the default arguments, and the ArgumentError the regular expression of line 20 raises on a name with an invalid byte sequence.
- Aliasing is not modelled. With the default arguments, `@camel_case_names` is the caller's own `names` array (CodeGenerators/CodeGenerator.rb:8), and `@codes` is the caller's `codes` array (line 30). A caller that changes those arrays in place after construction changes the documents and can misalign them with `@symbols`. The model copies values, so it does not capture this.
- Case mapping is ASCII only. Ruby's `capitalize`, `upcase` and the `/i` flag of the name filter also map non-ASCII letters; the model leaves every non-ASCII character unchanged, and counts it outside the filter's class.
- The filter's regular expression is modelled as a character-class test, not by a regular-expression engine.
- The Objective-C text is opaque to the model: what `dispatch_once`, `NSAssert`, `UIFont` and duplicate dictionary keys do at run time is not modelled. `CGFloat` appears only as literal text.
- Layout.ImplementationOpeningLandmarks: the implementation's layout is stated on its list of lines, not on the text split at newlines as for the header. No proof is given that the long fixed lines contain no newline. `Templates.LinesOfUnlines` gives the text split for any newline-free lines.
- The builders append whole lines and blocks to their buffers, not the exact fragments the Ruby code passes to `<<`. The resulting texts are the same.
- `string_to_upper_case` reads the prefix from the object. The model passes it in as a parameter.
