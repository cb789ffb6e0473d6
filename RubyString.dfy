/**
 * The parts of Ruby's String API that the icon-code generator relies on,
 * over ASCII: character case mapping, `downcase`, `capitalize`, `split`
 * with a one-character separator, `join` without a separator, and `gsub`
 * of one character by a string of at most one character.
 */
module RubyString {

  predicate IsLower(c: char) { 'a' <= c <= 'z' }

  predicate IsUpper(c: char) { 'A' <= c <= 'Z' }

  /** Ruby's `downcase` on one character (ASCII letters only). */
  function DownChar(c: char): (r: char)
    ensures !IsUpper(r)
    ensures r == c || (IsUpper(c) && IsLower(r))
  {
    if IsUpper(c) then (c as int + 32) as char else c
  }

  /** Ruby's `upcase` on one character (ASCII letters only). */
  function UpChar(c: char): (r: char)
    ensures !IsLower(r)
    ensures DownChar(r) == DownChar(c)
    ensures r == c || IsLower(c)
  {
    if IsLower(c) then (c as int - 32) as char else c
  }

  /** Ruby's `String#downcase`. */
  function Downcase(s: string): (r: string)
    ensures |r| == |s|
    ensures forall i :: 0 <= i < |s| ==> !IsUpper(r[i])
  {
    seq(|s|, i requires 0 <= i < |s| => DownChar(s[i]))
  }

  lemma DowncaseAppend(a: string, b: string)
    ensures Downcase(a + b) == Downcase(a) + Downcase(b)
  {
  }

  /**
   * Ruby's `String#capitalize`: the first character upper case, all the
   * others lower case.
   */
  function Capitalize(s: string): (r: string)
    ensures |r| == |s|
    ensures Downcase(r) == Downcase(s)
    ensures |r| > 0 ==> !IsLower(r[0])
    ensures forall i :: 0 < i < |r| ==> !IsUpper(r[i])
  {
    if s == [] then [] else [UpChar(s[0])] + Downcase(s[1..])
  }

  lemma CapitalizeIdempotent(s: string)
    ensures Capitalize(Capitalize(s)) == Capitalize(s)
  {
  }

  /**
   * `t = s.clone; t[0] = t[0,1].upcase`: the first character upper case,
   * the rest as it was.
   */
  function UpcaseFirst(s: string): (r: string)
    ensures |r| == |s|
    ensures Downcase(r) == Downcase(s)
    ensures |r| > 0 ==> !IsLower(r[0]) && r[1..] == s[1..]
  {
    if s == [] then [] else [UpChar(s[0])] + s[1..]
  }

  /** Ruby's `String#gsub(c, '')`: every occurrence of `c` removed. */
  function Delete(s: string, c: char): (r: string)
    ensures c !in r
    ensures |r| <= |s|
    ensures forall x :: x in r ==> x in s
  {
    if s == [] then [] else (if s[0] == c then [] else [s[0]]) + Delete(s[1..], c)
  }

  /** Ruby's `String#gsub(c, d)` for single characters `c` and `d`. */
  function Replace(s: string, c: char, d: char): (r: string)
    ensures |r| == |s|
    ensures c != d ==> c !in r
    ensures forall i :: 0 <= i < |s| && s[i] == c ==> r[i] == d
    ensures forall i :: 0 <= i < |s| && s[i] != c ==> r[i] == s[i]
  {
    seq(|s|, i requires 0 <= i < |s| => if s[i] == c then d else s[i])
  }

  /** The number of characters in all the parts together. */
  function TotalLength(parts: seq<string>): nat
  {
    if parts == [] then 0 else |parts[0]| + TotalLength(parts[1..])
  }

  /**
   * Ruby's `Array#join` without a separator: the parts one after another,
   * so it is as long as all of them together; ConcatStartsWithFirst,
   * ConcatEndsWithLast and ConcatAppend state where each part sits.
   */
  function Concat(parts: seq<string>): (r: string)
    ensures |r| == TotalLength(parts)
  {
    if parts == [] then [] else parts[0] + Concat(parts[1..])
  }

  lemma {:induction false} ConcatAppend(a: seq<string>, b: seq<string>)
    ensures Concat(a + b) == Concat(a) + Concat(b)
  {
    if a != [] {
      assert (a + b)[0] == a[0];
      assert (a + b)[1..] == a[1..] + b;
      ConcatAppend(a[1..], b);
    } else {
      assert a + b == b;
    }
  }

  /** The joined text starts with the first part. */
  /** Three parts joined are the three parts one after another. */
  lemma ConcatThree(x: string, y: string, z: string)
    ensures Concat([x, y, z]) == x + y + z
  {
    assert [x, y, z][1..] == [y, z] && [y, z][1..] == [z] && [z][1..] == [];
    assert Concat([z]) == z + Concat([]);
    assert Concat([y, z]) == y + Concat([z]);
  }

  lemma ConcatStartsWithFirst(parts: seq<string>)
    requires |parts| > 0
    ensures parts[0] <= Concat(parts)
  {
    assert Concat(parts) == parts[0] + Concat(parts[1..]);
  }

  /** The joined text ends with the last part. */
  lemma ConcatEndsWithLast(parts: seq<string>)
    requires |parts| > 0
    ensures var last := parts[|parts| - 1];
      |last| <= |Concat(parts)| && Concat(parts)[|Concat(parts)| - |last|..] == last
  {
    var init := parts[..|parts| - 1];
    var last := parts[|parts| - 1];
    assert parts == init + [last];
    ConcatAppend(init, [last]);
    assert Concat([last]) == last + Concat([]);
  }

  lemma {:induction false} ConcatAvoids(parts: seq<string>, c: char)
    requires forall i :: 0 <= i < |parts| ==> c !in parts[i]
    ensures c !in Concat(parts)
  {
    if parts != [] {
      ConcatAvoids(parts[1..], c);
    }
  }

  /** Two lists of parts that agree piecewise up to case join to strings that agree up to case. */
  lemma {:induction false} DowncaseConcat(ps: seq<string>, qs: seq<string>)
    requires |ps| == |qs|
    requires forall i :: 0 <= i < |ps| ==> Downcase(ps[i]) == Downcase(qs[i])
    ensures Downcase(Concat(ps)) == Downcase(Concat(qs))
  {
    if ps != [] {
      DowncaseConcat(ps[1..], qs[1..]);
      DowncaseAppend(ps[0], Concat(ps[1..]));
      DowncaseAppend(qs[0], Concat(qs[1..]));
    }
  }

  /** Joins the parts with `sep` between neighbours: the inverse of Fields. */
  function JoinWith(parts: seq<string>, sep: char): string
  {
    if parts == [] then []
    else if |parts| == 1 then parts[0]
    else parts[0] + [sep] + JoinWith(parts[1..], sep)
  }

  /**
   * All the fields of `s` between occurrences of `sep`, empty ones
   * included: one more field than there are separators.
   */
  function Fields(s: string, sep: char): (r: seq<string>)
    ensures |r| >= 1
    ensures forall i :: 0 <= i < |r| ==> sep !in r[i]
  {
    if s == [] then [[]]
    else
      var rest := Fields(s[1..], sep);
      if s[0] == sep then [[]] + rest
      else [[s[0]] + rest[0]] + rest[1..]
  }

  /** Joining the fields back with the separator gives the string again. */
  lemma {:induction false} JoinFields(s: string, sep: char)
    ensures JoinWith(Fields(s, sep), sep) == s
  {
    if s != [] {
      var rest := Fields(s[1..], sep);
      JoinFields(s[1..], sep);
      if s[0] == sep {
        assert ([[]] + rest)[1..] == rest;
      } else if |rest| > 1 {
        assert ([[s[0]] + rest[0]] + rest[1..])[1..] == rest[1..];
      }
    }
  }

  /** A field, the separator and the rest: the field comes first, then the fields of the rest. */
  lemma {:induction false} FieldsCons(x: string, sep: char, t: string)
    requires sep !in x
    ensures Fields(x + [sep] + t, sep) == [x] + Fields(t, sep)
  {
    if x == [] {
      assert (x + [sep] + t)[1..] == t;
    } else {
      assert (x + [sep] + t)[0] == x[0] != sep;
      assert (x + [sep] + t)[1..] == x[1..] + [sep] + t;
      FieldsCons(x[1..], sep, t);
      assert [x[0]] + x[1..] == x;
    }
  }

  lemma {:induction false} FieldsAbsent(s: string, sep: char)
    requires sep !in s
    ensures Fields(s, sep) == [s]
  {
    if s != [] {
      assert s[0] != sep;
      FieldsAbsent(s[1..], sep);
      assert [s[0]] + s[1..] == s;
    }
  }

  /** A separator at the end adds one empty field. */
  lemma {:induction false} FieldsSnocSeparator(s: string, sep: char)
    ensures Fields(s + [sep], sep) == Fields(s, sep) + [[]]
  {
    if s == [] {
      assert Fields([sep], sep) == [[]] + Fields([], sep);
    } else {
      assert (s + [sep])[1..] == s[1..] + [sep];
      FieldsSnocSeparator(s[1..], sep);
    }
  }

  /** Separator-free parts joined with the separator split back into the same parts. */
  lemma {:induction false} FieldsJoin(parts: seq<string>, sep: char)
    requires |parts| >= 1
    requires forall i :: 0 <= i < |parts| ==> sep !in parts[i]
    ensures Fields(JoinWith(parts, sep), sep) == parts
  {
    if |parts| == 1 {
      FieldsAbsent(parts[0], sep);
    } else {
      FieldsJoin(parts[1..], sep);
      FieldsCons(parts[0], sep, JoinWith(parts[1..], sep));
    }
  }

  /** A separator-free prefix of `s` is a prefix of its first field. */
  lemma {:induction false} FieldsHeadPrefix(s: string, sep: char, k: nat)
    requires k <= |s| && sep !in s[..k]
    ensures s[..k] <= Fields(s, sep)[0]
  {
    if k > 0 {
      assert s[0] in s[..k];
      assert s[1..][..k - 1] == s[1..k];
      assert s[1..k] == s[..k][1..];
      FieldsHeadPrefix(s[1..], sep, k - 1);
    }
  }

  /** Joining the fields without separator removes exactly the separators. */
  lemma {:induction false} ConcatFields(s: string, sep: char)
    ensures Concat(Fields(s, sep)) == Delete(s, sep)
  {
    if s != [] {
      var rest := Fields(s[1..], sep);
      ConcatFields(s[1..], sep);
      if s[0] == sep {
        assert ([[]] + rest)[1..] == rest;
      } else {
        var fields := [[s[0]] + rest[0]] + rest[1..];
        assert fields[0] == [s[0]] + rest[0] && fields[1..] == rest[1..];
        calc {
          Concat(fields);
          fields[0] + Concat(fields[1..]);
          [s[0]] + (rest[0] + Concat(rest[1..]));
          [s[0]] + Concat(rest);
          [s[0]] + Delete(s[1..], sep);
        }
      }
    }
  }

  /** The longest prefix of `xs` that does not end with an empty string. */
  function DropTrailingEmpty(xs: seq<string>): (r: seq<string>)
    ensures r <= xs
    ensures forall i :: |r| <= i < |xs| ==> xs[i] == []
    ensures |r| > 0 ==> r[|r| - 1] != []
  {
    if xs != [] && xs[|xs| - 1] == [] then DropTrailingEmpty(xs[..|xs| - 1]) else xs
  }

  lemma {:induction false} ConcatDropTrailing(xs: seq<string>)
    ensures Concat(DropTrailingEmpty(xs)) == Concat(xs)
  {
    if xs != [] && xs[|xs| - 1] == [] {
      var init := xs[..|xs| - 1];
      ConcatDropTrailing(init);
      assert xs == init + [[]];
      ConcatAppend(init, [[]]);
    }
  }

  /**
   * Ruby's `String#split(sep)` for a one-character separator: the fields,
   * leading empty ones kept and trailing empty ones dropped, so that the
   * empty string splits into no fields at all.
   */
  function Split(s: string, sep: char): (r: seq<string>)
    ensures r <= Fields(s, sep)
    ensures forall i :: |r| <= i < |Fields(s, sep)| ==> Fields(s, sep)[i] == []
    ensures |r| > 0 ==> r[|r| - 1] != []
    ensures forall i :: 0 <= i < |r| ==> sep !in r[i]
  {
    DropTrailingEmpty(Fields(s, sep))
  }

  /** Joining the pieces of a split without separator removes exactly the separators. */
  lemma ConcatSplit(s: string, sep: char)
    ensures Concat(Split(s, sep)) == Delete(s, sep)
  {
    ConcatDropTrailing(Fields(s, sep));
    ConcatFields(s, sep);
  }

  /** A string without the separator splits into itself, or into nothing when empty. */
  lemma SplitAbsent(s: string, sep: char)
    requires sep !in s
    ensures Split(s, sep) == if s == [] then [] else [s]
  {
    FieldsAbsent(s, sep);
  }
}
