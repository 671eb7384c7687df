/**
 * Text operations of the Java platform that the harness relies on:
 * decimal rendering of a `long` (as `StringBuilder.append(long)` and
 * `Long.toString` produce it), Guava's `Joiner`, the natural order of
 * `String` (`String.compareTo`), sorting a list of names by that order,
 * and `String.format` with a single `%s` placeholder.
 *
 * A `string` here is a sequence of Unicode code points, while a Java
 * `String` is a sequence of UTF-16 code units: the two agree on text within
 * the Basic Multilingual Plane, which is all that is claimed here.
 */
module JavaText {

  datatype Option<+T> = None | Some(value: T)

  // ---------------------------------------------------------------------
  // Decimal rendering of integers

  predicate IsDigit(c: char) {
    '0' <= c <= '9'
  }

  predicate AllDigits(s: string) {
    forall i :: 0 <= i < |s| ==> IsDigit(s[i])
  }

  function DigitChar(d: nat): (c: char)
    requires d < 10
    ensures IsDigit(c)
  {
    ('0' as int + d) as char
  }

  function DigitValue(c: char): nat
    requires IsDigit(c)
  {
    c as int - '0' as int
  }

  /** The decimal digits of a non-negative number, most significant first, without leading zeros. */
  function NatToDecimal(n: nat): (s: string)
    ensures |s| >= 1 && AllDigits(s)
  {
    if n < 10 then [DigitChar(n)] else NatToDecimal(n / 10) + [DigitChar(n % 10)]
  }

  /** The value of a string of decimal digits. */
  function DecimalToNat(s: string): nat
    requires AllDigits(s)
  {
    if s == [] then 0 else DecimalToNat(s[..|s| - 1]) * 10 + DigitValue(s[|s| - 1])
  }

  /** `Long.toString(n)`: a minus sign for negative values, then the digits of the magnitude. */
  function LongToString(n: int): string {
    if n < 0 then "-" + NatToDecimal(-n) else NatToDecimal(n)
  }

  /** `Long.parseLong` restricted to what `LongToString` produces: an optional minus sign and at least one digit. */
  function ParseLong(s: string): Option<int> {
    if |s| > 1 && s[0] == '-' && AllDigits(s[1..]) then Some(-(DecimalToNat(s[1..]) as int))
    else if |s| > 0 && AllDigits(s) then Some(DecimalToNat(s))
    else None
  }

  lemma {:induction false} NatToDecimalRoundTrip(n: nat)
    ensures DecimalToNat(NatToDecimal(n)) == n
  {
    if n >= 10 {
      var s := NatToDecimal(n);
      assert s[..|s| - 1] == NatToDecimal(n / 10);
      NatToDecimalRoundTrip(n / 10);
    }
  }

  /** Rendering a `long` in decimal loses nothing: parsing the text gives the number back. */
  lemma LongToStringRoundTrip(n: int)
    ensures ParseLong(LongToString(n)) == Some(n)
  {
    if n < 0 {
      NatToDecimalRoundTrip(-n);
      ParseSigned(NatToDecimal(-n));
    } else {
      NatToDecimalRoundTrip(n);
      ParseUnsigned(NatToDecimal(n));
    }
  }

  lemma ParseSigned(digits: string)
    requires |digits| >= 1 && AllDigits(digits)
    ensures ParseLong("-" + digits) == Some(-(DecimalToNat(digits) as int))
  {
    assert ("-" + digits)[1..] == digits;
  }

  lemma ParseUnsigned(digits: string)
    requires |digits| >= 1 && AllDigits(digits)
    ensures ParseLong(digits) == Some(DecimalToNat(digits))
  {
    assert IsDigit(digits[0]);
  }

  // ---------------------------------------------------------------------
  // Guava Joiner

  /** `Joiner.on(sep).join(parts)`: the parts with `sep` between consecutive ones. */
  function Join(parts: seq<string>, sep: string): string {
    if |parts| == 0 then ""
    else if |parts| == 1 then parts[0]
    else Join(parts[..|parts| - 1], sep) + sep + parts[|parts| - 1]
  }

  /** Every part preceded by `sep`: the independent description of a join after a leading separator. */
  function PrefixEach(parts: seq<string>, sep: string): string {
    if parts == [] then "" else sep + parts[0] + PrefixEach(parts[1..], sep)
  }

  lemma {:induction false} PrefixEachAppend(parts: seq<string>, last: string, sep: string)
    ensures PrefixEach(parts + [last], sep) == PrefixEach(parts, sep) + sep + last
  {
    if parts != [] {
      assert (parts + [last])[1..] == parts[1..] + [last];
      PrefixEachAppend(parts[1..], last, sep);
    }
  }

  /** A separator followed by the join of a non-empty list is the list with each part preceded by the separator. */
  lemma {:induction false} SepJoinIsPrefixEach(parts: seq<string>, sep: string)
    requires |parts| >= 1
    ensures sep + Join(parts, sep) == PrefixEach(parts, sep)
  {
    if |parts| == 1 {
      assert PrefixEach(parts[1..], sep) == "";
    } else {
      var init, last := parts[..|parts| - 1], parts[|parts| - 1];
      SepJoinIsPrefixEach(init, sep);
      PrefixEachAppend(init, last, sep);
      assert init + [last] == parts;
    }
  }

  function TotalLength(parts: seq<string>): nat {
    if parts == [] then 0 else TotalLength(parts[..|parts| - 1]) + |parts[|parts| - 1]|
  }

  /** A join of n parts has all their characters and n - 1 separators. */
  lemma {:induction false} JoinLength(parts: seq<string>, sep: string)
    requires |parts| >= 1
    ensures |Join(parts, sep)| == TotalLength(parts) + (|parts| - 1) * |sep|
  {
    if |parts| > 1 {
      var init := parts[..|parts| - 1];
      JoinLength(init, sep);
      assert init[..|init| - 1] == parts[..|parts| - 2];
    } else {
      assert parts[..0] == [];
    }
  }

  // ---------------------------------------------------------------------
  // The natural order of strings

  /**
   * `a.compareTo(b) < 0` for text in the Basic Multilingual Plane:
   * lexicographic by character, a proper prefix first.
   */
  predicate StrLess(a: string, b: string) {
    |b| > 0 && (|a| == 0 || a[0] < b[0] || (a[0] == b[0] && StrLess(a[1..], b[1..])))
  }

  lemma {:induction false} StrLessIrreflexive(a: string)
    ensures !StrLess(a, a)
  {
    if |a| > 0 {
      StrLessIrreflexive(a[1..]);
    }
  }

  lemma {:induction false} StrLessTransitive(a: string, b: string, c: string)
    requires StrLess(a, b) && StrLess(b, c)
    ensures StrLess(a, c)
  {
    if |a| > 0 && a[0] == b[0] && b[0] == c[0] {
      StrLessTransitive(a[1..], b[1..], c[1..]);
    }
  }

  lemma {:induction false} StrLessTotal(a: string, b: string)
    ensures a == b || StrLess(a, b) || StrLess(b, a)
  {
    if |a| > 0 && |b| > 0 && a[0] == b[0] {
      StrLessTotal(a[1..], b[1..]);
      if a[1..] == b[1..] {
        assert a == [a[0]] + a[1..] && b == [b[0]] + b[1..];
      }
    }
  }

  lemma StrLessAsymmetric(a: string, b: string)
    requires StrLess(a, b)
    ensures !StrLess(b, a)
  {
  }

  // ---------------------------------------------------------------------
  // Sorting names

  predicate Sorted(s: seq<string>) {
    forall i, j :: 0 <= i < j < |s| ==> !StrLess(s[j], s[i])
  }

  /** Every element of `s` is at least `x`. */
  predicate AllAtLeast(x: string, s: seq<string>) {
    forall j :: 0 <= j < |s| ==> !StrLess(s[j], x)
  }

  function Insert(x: string, s: seq<string>): (r: seq<string>)
    ensures multiset(r) == multiset(s) + multiset{x}
  {
    if s == [] then [x]
    else if !StrLess(s[0], x) then [x] + s
    else
      assert s == [s[0]] + s[1..];
      [s[0]] + Insert(x, s[1..])
  }

  lemma AtLeastHead(x: string, s: seq<string>)
    requires Sorted(s) && s != [] && !StrLess(s[0], x)
    ensures AllAtLeast(x, s)
  {
    forall j | 0 < j < |s| ensures !StrLess(s[j], x) {
      assert !StrLess(s[j], s[0]);
      StrLessTotal(s[j], s[0]);
      if StrLess(s[j], x) {
        if s[j] != s[0] {
          StrLessTransitive(s[0], s[j], x);
        }
      }
    }
  }

  lemma {:induction false} InsertSorted(x: string, s: seq<string>)
    requires Sorted(s)
    ensures Sorted(Insert(x, s))
  {
    if s != [] {
      if !StrLess(s[0], x) {
        AtLeastHead(x, s);
      } else {
        var t := Insert(x, s[1..]);
        InsertSorted(x, s[1..]);
        StrLessAsymmetric(s[0], x);
        assert forall k :: 0 <= k < |t| ==> !StrLess(t[k], s[0]) by {
          forall k | 0 <= k < |t| ensures !StrLess(t[k], s[0]) {
            assert t[k] in multiset(t);
            assert t[k] in multiset(s[1..]) + multiset{x};
            if t[k] != x {
              assert t[k] in s[1..];
            }
          }
        }
      }
    }
  }

  /** Every name is strictly less than those after it: ascending, with no name twice. */
  predicate StrictlySorted(s: seq<string>) {
    forall i, j :: 0 <= i < j < |s| ==> StrLess(s[i], s[j])
  }

  /** A sorted list in which no name occurs twice is strictly sorted. */
  lemma SortedDistinctIsStrict(s: seq<string>)
    requires Sorted(s) && forall n :: multiset(s)[n] <= 1
    ensures StrictlySorted(s)
  {
    forall i, j | 0 <= i < j < |s| ensures StrLess(s[i], s[j]) {
      assert s == s[..j] + s[j..];
      assert s[i] in s[..j] && s[j] in s[j..];
      assert multiset(s) == multiset(s[..j]) + multiset(s[j..]);
      assert multiset(s[..j])[s[i]] >= 1 && multiset(s[j..])[s[j]] >= 1;
      assert multiset(s)[s[j]] == multiset(s[..j])[s[j]] + multiset(s[j..])[s[j]];
      assert multiset(s)[s[j]] <= 1;
      assert s[i] != s[j];
      StrLessTotal(s[i], s[j]);
    }
  }

  /** The names in ascending natural order, duplicates kept. */
  function SortStrings(s: seq<string>): (r: seq<string>)
    ensures Sorted(r) && multiset(r) == multiset(s)
  {
    if s == [] then []
    else
      assert s == s[..|s| - 1] + [s[|s| - 1]];
      InsertSorted(s[|s| - 1], SortStrings(s[..|s| - 1]));
      Insert(s[|s| - 1], SortStrings(s[..|s| - 1]))
  }

  /** Nothing in a sorted list is less than its head. */
  lemma SortedHeadIsLeast(s: seq<string>, x: string)
    requires Sorted(s) && x in s
    ensures !StrLess(x, s[0])
  {
    var k :| 0 <= k < |s| && s[k] == x;
    if k == 0 {
      StrLessIrreflexive(x);
    }
  }

  lemma TailMultiset(s: seq<string>)
    requires s != []
    ensures multiset(s[1..]) == multiset(s) - multiset{s[0]}
  {
    assert s == [s[0]] + s[1..];
  }

  /** A sorted arrangement is unique: two sorted lists with the same elements are the same list. */
  lemma {:induction false} SortedUnique(a: seq<string>, b: seq<string>)
    requires Sorted(a) && Sorted(b) && multiset(a) == multiset(b)
    ensures a == b
  {
    if a != [] {
      assert |b| == |a| by { assert |multiset(a)| == |multiset(b)|; }
      assert a[0] in multiset(b);
      assert b[0] in multiset(a);
      SortedHeadIsLeast(b, a[0]);
      SortedHeadIsLeast(a, b[0]);
      StrLessTotal(a[0], b[0]);
      TailMultiset(a);
      TailMultiset(b);
      SortedUnique(a[1..], b[1..]);
      assert a == [a[0]] + a[1..] && b == [b[0]] + b[1..];
    } else {
      assert |multiset(b)| == 0;
    }
  }

  /** The names sorted do not depend on the order they were given in. */
  lemma SortStringsOrderInsensitive(s: seq<string>, t: seq<string>)
    requires multiset(s) == multiset(t)
    ensures SortStrings(s) == SortStrings(t)
  {
    SortedUnique(SortStrings(s), SortStrings(t));
  }

  // ---------------------------------------------------------------------
  // String.format with one %s

  /** `String.format(template, arg)` for a template whose only conversion is `%s`: the first `%s` becomes `arg`. */
  function FormatOne(template: string, arg: string): string {
    if |template| < 2 then template
    else if template[0] == '%' && template[1] == 's' then arg + template[2..]
    else [template[0]] + FormatOne(template[1..], arg)
  }

  /** A template that does not start with `%` keeps its first character and formats the rest. */
  lemma FormatOneSkips(t: string, arg: string)
    requires |t| >= 2 && t[0] != '%'
    ensures FormatOne(t, arg) == [t[0]] + FormatOne(t[1..], arg)
  {
  }

  /**
   * Formatting `prefix + "%s" + suffix` puts the argument exactly between the
   * two, when `prefix` holds no `%` (which would start a conversion of its own).
   */
  lemma {:induction false} FormatOneSplits(prefix: string, suffix: string, arg: string)
    requires '%' !in prefix
    ensures FormatOne(prefix + "%s" + suffix, arg) == prefix + arg + suffix
  {
    var t := prefix + "%s" + suffix;
    if prefix == [] {
      assert t == "%s" + suffix;
      assert t[2..] == suffix;
    } else {
      var rest := prefix[1..];
      assert prefix == [prefix[0]] + rest;
      assert prefix[0] in prefix;
      assert t[0] == prefix[0];
      assert t[1..] == rest + "%s" + suffix;
      FormatOneSkips(t, arg);
      assert '%' !in rest by {
        forall i | 0 <= i < |rest| ensures rest[i] != '%' {
          assert rest[i] == prefix[i + 1];
          assert prefix[i + 1] in prefix;
        }
      }
      FormatOneSplits(rest, suffix, arg);
    }
  }
}
