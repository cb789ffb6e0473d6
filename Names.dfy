/**
 * Name mangling of the icon-code generator: dash-to-camelCase display names,
 * the define-style upper-case notation, sanitized names, the synthesized
 * symbol identifiers, and the three arrays the generator derives, index by
 * index, from its list of icon names.
 */
module Names {
  import opened RubyString

  // ---------------------------------------------------------------------
  // string_to_camel_case
  // ---------------------------------------------------------------------

  /** The first part as it is, every later part capitalized. */
  function CapitalizeTail(parts: seq<string>): (r: seq<string>)
    ensures |r| == |parts|
  {
    seq(|parts|, i requires 0 <= i < |parts| => if i < 1 then parts[i] else Capitalize(parts[i]))
  }

  /** `string_to_camel_case`: `s.split('-')`, all parts but the first capitalized, joined. */
  function StringToCamelCase(s: string): (r: string)
    ensures '-' !in r
  {
    var parts := Split(s, '-');
    CapitalizedPartsHaveNoDash(parts);
    Concat(CapitalizeTail(parts))
  }

  /** Capitalizing dash-free parts introduces no dash, so neither does joining them. */
  lemma CapitalizedPartsHaveNoDash(parts: seq<string>)
    requires forall i :: 0 <= i < |parts| ==> '-' !in parts[i]
    ensures '-' !in Concat(CapitalizeTail(parts))
  {
    var caps := CapitalizeTail(parts);
    forall i | 0 <= i < |caps| ensures '-' !in caps[i] {
      if i > 0 {
        forall j | 0 <= j < |caps[i]| ensures caps[i][j] != '-' {
          assert Downcase(caps[i])[j] == Downcase(parts[i])[j];
        }
      }
    }
    ConcatAvoids(caps, '-');
  }

  /**
   * camelCase only removes the dashes and changes the case of letters:
   * ignoring case, it is the input with every dash deleted.
   */
  lemma CamelCaseIsDashlessUpToCase(s: string)
    ensures Downcase(StringToCamelCase(s)) == Downcase(Delete(s, '-'))
    ensures |StringToCamelCase(s)| == |Delete(s, '-')|
  {
    var parts := Split(s, '-');
    DowncaseConcat(CapitalizeTail(parts), parts);
    ConcatSplit(s, '-');
  }

  /** A name without dashes is its own camelCase form. */
  lemma CamelCaseKeepsDashFree(s: string)
    requires '-' !in s
    ensures StringToCamelCase(s) == s
  {
    SplitAbsent(s, '-');
    if s != [] {
      assert CapitalizeTail([s]) == [s];
      assert Concat([s]) == s + Concat([]);
    }
  }

  lemma CamelCaseIdempotent(s: string)
    ensures StringToCamelCase(StringToCamelCase(s)) == StringToCamelCase(s)
  {
    CamelCaseKeepsDashFree(StringToCamelCase(s));
  }

  /** The text before the first dash (the first segment) is kept verbatim at the front. */
  lemma CamelCaseKeepsFirstSegment(s: string, k: nat)
    requires k <= |s| && '-' !in s[..k]
    ensures s[..k] <= StringToCamelCase(s)
  {
    if k > 0 {
      var fields := Fields(s, '-');
      FieldsHeadPrefix(s, '-', k);
      var parts := Split(s, '-');
      assert fields[0] != [];
      assert |parts| > 0 && parts[0] == fields[0];
      var caps := CapitalizeTail(parts);
      assert caps[0] == parts[0];
      assert Concat(caps) == caps[0] + Concat(caps[1..]);
    }
  }

  /**
   * The camelCase form of dash-separated segments: the segments up to the
   * last non-empty one, the first verbatim and the others capitalized.
   */
  lemma CamelCaseOfSegments(s: string, segments: seq<string>)
    requires |segments| >= 1 && s == JoinWith(segments, '-')
    requires forall i :: 0 <= i < |segments| ==> '-' !in segments[i]
    ensures StringToCamelCase(s) == Concat(CapitalizeTail(DropTrailingEmpty(segments)))
  {
    FieldsJoin(segments, '-');
  }

  /** Two segments: the first verbatim, the second capitalized. */
  lemma CamelCaseTwoSegments(s: string, x: string, y: string)
    requires s == x + "-" + y
    requires '-' !in x && '-' !in y && y != []
    ensures StringToCamelCase(s) == x + Capitalize(y)
  {
    assert [x, y][1..] == [y];
    assert s == JoinWith([x, y], '-');
    CamelCaseOfSegments(s, [x, y]);
    assert CapitalizeTail([x, y]) == [x, Capitalize(y)];
    var caps := [x, Capitalize(y)];
    assert caps[1..] == [Capitalize(y)] && caps[1..][1..] == [];
    assert Concat(caps) == x + (Capitalize(y) + Concat([]));
  }

  /** Three segments, the middle one possibly empty: the first verbatim, the others capitalized. */
  lemma CamelCaseThreeSegments(s: string, x: string, y: string, z: string)
    requires s == x + "-" + y + "-" + z
    requires '-' !in x && '-' !in y && '-' !in z && z != []
    ensures StringToCamelCase(s) == x + Capitalize(y) + Capitalize(z)
  {
    assert [x, y, z][1..] == [y, z] && [y, z][1..] == [z];
    assert JoinWith([y, z], '-') == y + "-" + z;
    assert s == x + "-" + (y + "-" + z);
    assert s == JoinWith([x, y, z], '-');
    CamelCaseOfSegments(s, [x, y, z]);
    assert CapitalizeTail([x, y, z]) == [x, Capitalize(y), Capitalize(z)];
    ConcatThree(x, Capitalize(y), Capitalize(z));
  }

  /** A trailing dash only adds a trailing empty field, which `split` drops. */
  lemma CamelCaseIgnoresTrailingDash(s: string)
    ensures StringToCamelCase(s + "-") == StringToCamelCase(s)
  {
    FieldsSnocSeparator(s, '-');
    var fs := Fields(s, '-');
    assert (fs + [[]])[..|fs + [[]]| - 1] == fs;
  }

  // ---------------------------------------------------------------------
  // string_to_upper_case
  // ---------------------------------------------------------------------

  /**
   * `string_to_upper_case`: capitalized prefix and capitalized string,
   * dashes turned into underscores. Only the first character of each part
   * is upper case; the rest is lower case.
   */
  function StringToUpperCase(prefix: string, s: string): (r: string)
    ensures |r| == |prefix| + |s|
    ensures '-' !in r
    ensures Downcase(r) == Replace(Downcase(prefix), '-', '_') + Replace(Downcase(s), '-', '_')
    ensures |prefix| > 0 ==> !IsLower(r[0])
    ensures |s| > 0 ==> !IsLower(r[|prefix|])
    ensures forall i :: 0 < i < |r| && i != |prefix| ==> !IsUpper(r[i])
    ensures forall i :: 0 <= i < |r| ==> (r[i] == '_' <==> (prefix + s)[i] == '-' || (prefix + s)[i] == '_')
  {
    var a := Replace(Capitalize(prefix), '-', '_');
    var b := Replace(Capitalize(s), '-', '_');
    UpperCaseParts(prefix, s, a, b);
    a + b
  }

  /** The case pattern and underscore positions of the two parts, carried over to their concatenation. */
  lemma UpperCaseParts(prefix: string, s: string, a: string, b: string)
    requires a == Replace(Capitalize(prefix), '-', '_')
    requires b == Replace(Capitalize(s), '-', '_')
    ensures |a + b| == |prefix| + |s|
    ensures '-' !in a + b
    ensures Downcase(a + b) == Replace(Downcase(prefix), '-', '_') + Replace(Downcase(s), '-', '_')
    ensures |prefix| > 0 ==> !IsLower((a + b)[0])
    ensures |s| > 0 ==> !IsLower((a + b)[|prefix|])
    ensures forall i :: 0 < i < |a + b| && i != |prefix| ==> !IsUpper((a + b)[i])
    ensures forall i :: 0 <= i < |a + b| ==> ((a + b)[i] == '_' <==> (prefix + s)[i] == '-' || (prefix + s)[i] == '_')
  {
    CapitalizedWithUnderscores(prefix);
    CapitalizedWithUnderscores(s);
    DowncaseUnderscored(prefix);
    DowncaseUnderscored(s);
    DowncaseAppend(a, b);
    forall i | 0 <= i < |a + b|
      ensures (a + b)[i] == (if i < |a| then a[i] else b[i - |a|])
      ensures (prefix + s)[i] == (if i < |a| then prefix[i] else s[i - |a|])
    {
    }
  }

  /** Lower-casing one part of the define-style notation gives the lower-cased name with its dashes turned into underscores. */
  lemma DowncaseUnderscored(x: string)
    ensures Downcase(Replace(Capitalize(x), '-', '_')) == Replace(Downcase(x), '-', '_')
  {
    var c := Capitalize(x);
    var y := Replace(c, '-', '_');
    forall i | 0 <= i < |x| ensures Downcase(y)[i] == Replace(Downcase(x), '-', '_')[i] {
      assert Downcase(c)[i] == Downcase(x)[i];
      assert DownChar(c[i]) == DownChar(x[i]);
    }
  }

  /** One part of the define-style notation: capitalized, with an underscore wherever a dash or an underscore was. */
  lemma CapitalizedWithUnderscores(x: string)
    ensures var y := Replace(Capitalize(x), '-', '_');
      && (|x| > 0 ==> !IsLower(y[0]))
      && (forall i :: 0 < i < |y| ==> !IsUpper(y[i]))
      && (forall i :: 0 <= i < |y| ==> (y[i] == '_' <==> x[i] == '-' || x[i] == '_'))
  {
    var c := Capitalize(x);
    forall i | 0 <= i < |x| ensures c[i] == '-' <==> x[i] == '-'
                            ensures c[i] == '_' <==> x[i] == '_' {
      if i > 0 {
        assert c[i] == Downcase(x[1..])[i - 1] == DownChar(x[i]);
      }
    }
  }

  // ---------------------------------------------------------------------
  // sanitized names
  // ---------------------------------------------------------------------

  /**
   * The characters the name filter keeps: `[0-9a-z\-]` matched
   * case-insensitively, that is, the characters whose lower-case form is
   * a digit, a lower-case letter or the dash.
   */
  predicate IsNameChar(c: char)
    ensures IsNameChar(c) <==> '0' <= DownChar(c) <= '9' || IsLower(DownChar(c)) || DownChar(c) == '-'
  {
    '0' <= c <= '9' || 'a' <= c <= 'z' || 'A' <= c <= 'Z' || c == '-'
  }

  predicate AllNameChars(s: string)
  {
    forall i :: 0 <= i < |s| ==> IsNameChar(s[i])
  }

  /** `name.gsub(/[^0-9a-z\-]/i, '')`: every character outside the class removed. */
  function Sanitize(s: string): (r: string)
    ensures AllNameChars(r)
    ensures |r| <= |s|
  {
    if s == [] then [] else (if IsNameChar(s[0]) then [s[0]] else []) + Sanitize(s[1..])
  }

  /** The filter works character by character, so it distributes over concatenation. */
  lemma {:induction false} SanitizeAppend(a: string, b: string)
    ensures Sanitize(a + b) == Sanitize(a) + Sanitize(b)
  {
    if a != [] {
      assert (a + b)[0] == a[0];
      assert (a + b)[1..] == a[1..] + b;
      SanitizeAppend(a[1..], b);
    } else {
      assert a + b == b;
    }
  }

  /** `a` is obtained from `b` by deleting characters. */
  predicate IsSubsequence(a: string, b: string)
  {
    if a == [] then true
    else if b == [] then false
    else if a[0] == b[0] then IsSubsequence(a[1..], b[1..])
    else IsSubsequence(a, b[1..])
  }

  lemma {:induction false} SanitizeIsSubsequence(s: string)
    ensures IsSubsequence(Sanitize(s), s)
  {
    if s != [] {
      SanitizeIsSubsequence(s[1..]);
      if IsNameChar(s[0]) {
        assert Sanitize(s)[0] == s[0] && Sanitize(s)[1..] == Sanitize(s[1..]);
      } else {
        assert Sanitize(s) == Sanitize(s[1..]);
      }
    }
  }

  /** Every kept character occurs as often as in the input; nothing else occurs. */
  lemma {:induction false} SanitizeCounts(s: string, c: char)
    ensures multiset(Sanitize(s))[c] == if IsNameChar(c) then multiset(s)[c] else 0
  {
    if s != [] {
      SanitizeCounts(s[1..], c);
      assert s == [s[0]] + s[1..];
      assert multiset(s) == multiset([s[0]]) + multiset(s[1..]);
    } else {
      assert multiset(Sanitize(s)) == multiset{};
    }
  }

  /** A name is left unchanged exactly when all its characters are in the class. */
  lemma {:induction false} SanitizeFixesExactlyNameStrings(s: string)
    ensures Sanitize(s) == s <==> AllNameChars(s)
  {
    if AllNameChars(s) && s != [] {
      assert AllNameChars(s[1..]) by {
        forall i | 0 <= i < |s[1..]| ensures IsNameChar(s[1..][i]) { assert s[1..][i] == s[i + 1]; }
      }
      SanitizeFixesExactlyNameStrings(s[1..]);
      assert IsNameChar(s[0]);
      assert [s[0]] + s[1..] == s;
    }
  }

  lemma SanitizeIdempotent(s: string)
    ensures Sanitize(Sanitize(s)) == Sanitize(s)
  {
    SanitizeFixesExactlyNameStrings(Sanitize(s));
  }

  // ---------------------------------------------------------------------
  // symbol identifiers
  // ---------------------------------------------------------------------

  const GlyphTag := "FAKGlyph"

  /**
   * `prefix.capitalize.gsub('-', '')`: the first character upper case
   * unless it was a dash, every other character lower case.
   */
  function UppercasePrefix(prefix: string): (r: string)
    ensures '-' !in r
    ensures Downcase(r) == Delete(Downcase(prefix), '-')
    ensures |prefix| > 0 && prefix[0] != '-' ==> |r| > 0 && !IsLower(r[0])
    ensures forall i :: 0 <= i < |r| && (i > 0 || |prefix| == 0 || prefix[0] == '-') ==> !IsUpper(r[i])
  {
    DeleteCommutesWithDowncase(Capitalize(prefix));
    UppercasePrefixCase(prefix);
    Delete(Capitalize(prefix), '-')
  }

  lemma UppercasePrefixCase(prefix: string)
    ensures var r := Delete(Capitalize(prefix), '-');
      && (|prefix| > 0 && prefix[0] != '-' ==> |r| > 0 && !IsLower(r[0]))
      && (forall i :: 0 <= i < |r| && (i > 0 || |prefix| == 0 || prefix[0] == '-') ==> !IsUpper(r[i]))
  {
    var c := Capitalize(prefix);
    var r := Delete(c, '-');
    if |prefix| > 0 {
      var tail := Downcase(prefix[1..]);
      assert c[1..] == tail;
      var rest := Delete(tail, '-');
      assert forall x :: x in rest ==> !IsUpper(x);
      if prefix[0] == '-' {
        assert c[0] == '-';
        assert r == rest;
      } else {
        assert c[0] != '-';
        assert r == [c[0]] + rest;
        forall i | 0 < i < |r| ensures !IsUpper(r[i]) {
          assert r[i] == rest[i - 1];
        }
      }
    }
  }

  lemma {:induction false} DeleteCommutesWithDowncase(s: string)
    ensures Downcase(Delete(s, '-')) == Delete(Downcase(s), '-')
  {
    if s != [] {
      DeleteCommutesWithDowncase(s[1..]);
      assert Downcase(s)[1..] == Downcase(s[1..]);
      DowncaseAppend(if s[0] == '-' then [] else [s[0]], Delete(s[1..], '-'));
    }
  }

  /** The symbol of one display name: tag, upper-case prefix, display name with its first character upper case. */
  function Symbol(prefix: string, displayName: string): (r: string)
    ensures |r| == |GlyphTag| + |UppercasePrefix(prefix)| + |displayName|
    ensures GlyphTag <= r
  {
    GlyphTag + UppercasePrefix(prefix) + UpcaseFirst(displayName)
  }

  /**
   * Two display names give the same symbol exactly when they agree after
   * upper-casing their first characters: symbols are not unique in general.
   */
  lemma SymbolsCollideIff(prefix: string, a: string, b: string)
    ensures Symbol(prefix, a) == Symbol(prefix, b) <==> UpcaseFirst(a) == UpcaseFirst(b)
  {
    var head := GlyphTag + UppercasePrefix(prefix);
    if Symbol(prefix, a) == Symbol(prefix, b) {
      assert Symbol(prefix, a)[|head|..] == UpcaseFirst(a);
      assert Symbol(prefix, b)[|head|..] == UpcaseFirst(b);
    }
  }

  // ---------------------------------------------------------------------
  // the arrays derived at construction
  // ---------------------------------------------------------------------

  /** `@camel_case_names`: the names themselves, or their camelCase forms. */
  function DisplayNames(names: seq<string>, namesAreCamelCase: bool): (r: seq<string>)
    ensures |r| == |names|
    ensures namesAreCamelCase ==> r == names
    ensures !namesAreCamelCase ==> forall i :: 0 <= i < |r| ==> '-' !in r[i]
  {
    if namesAreCamelCase then names
    else
      var r := seq(|names|, i requires 0 <= i < |names| => StringToCamelCase(names[i]));
      assert forall i :: 0 <= i < |r| ==> '-' !in r[i] by {
        forall i | 0 <= i < |r| ensures '-' !in r[i] { assert r[i] == StringToCamelCase(names[i]); }
      }
      r
  }

  /** `@names`: every name sanitized, in order. */
  function SanitizedNames(names: seq<string>): (r: seq<string>)
    ensures |r| == |names|
    ensures forall i :: 0 <= i < |r| ==> AllNameChars(r[i]) && IsSubsequence(r[i], names[i])
  {
    var r := seq(|names|, i requires 0 <= i < |names| => Sanitize(names[i]));
    assert forall i :: 0 <= i < |r| ==> IsSubsequence(r[i], names[i]) by {
      forall i | 0 <= i < |r| ensures IsSubsequence(r[i], names[i]) { SanitizeIsSubsequence(names[i]); }
    }
    r
  }

  /** `@symbols`: one symbol per display name, in order. */
  function SymbolNames(prefix: string, displayNames: seq<string>): (r: seq<string>)
    ensures |r| == |displayNames|
    ensures forall i :: 0 <= i < |r| ==> GlyphTag <= r[i]
  {
    seq(|displayNames|, i requires 0 <= i < |displayNames| => Symbol(prefix, displayNames[i]))
  }

  /** The keys of the generated `allNames` map: the raw prefix before each sanitized name. */
  function NameKeys(prefix: string, sanitized: seq<string>): (r: seq<string>)
    ensures |r| == |sanitized|
  {
    seq(|sanitized|, i requires 0 <= i < |sanitized| => prefix + sanitized[i])
  }

  /** The `allNames` keys are pairwise distinct exactly when the sanitized names are. */
  lemma NameKeysDistinctIff(prefix: string, sanitized: seq<string>)
    ensures (forall i, j :: 0 <= i < j < |sanitized| ==> NameKeys(prefix, sanitized)[i] != NameKeys(prefix, sanitized)[j])
        <==> (forall i, j :: 0 <= i < j < |sanitized| ==> sanitized[i] != sanitized[j])
  {
    var keys := NameKeys(prefix, sanitized);
    forall i, j | 0 <= i < j < |sanitized| ensures keys[i] == keys[j] <==> sanitized[i] == sanitized[j] {
      assert keys[i][|prefix|..] == sanitized[i];
      assert keys[j][|prefix|..] == sanitized[j];
    }
  }
}
