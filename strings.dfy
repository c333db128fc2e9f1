/** The JavaScript string built-ins the core relies on, on `seq<char>`:
    `toLowerCase` (ASCII letters only), the `\s` whitespace class, `split`
    on one character, `trim`, `replaceAll` of one character, and decimal
    integer parsing and printing. */
module Strings {
  import opened Wrappers

  predicate IsUpper(c: char) { 'A' <= c <= 'Z' }

  /** `toLowerCase` of one character, restricted to ASCII. */
  function LowerChar(c: char): (r: char)
    ensures !IsUpper(r)
    ensures !IsUpper(c) ==> r == c
  {
    if IsUpper(c) then (c as int + 32) as char else c
  }

  /** `toLowerCase`: character by character, so no upper-case letter is
      left and a string without one is unchanged. */
  function ToLower(s: string): (r: string)
    ensures |r| == |s|
    ensures forall i :: 0 <= i < |s| ==> r[i] == LowerChar(s[i])
    ensures forall i :: 0 <= i < |r| ==> !IsUpper(r[i])
    ensures (forall i :: 0 <= i < |s| ==> !IsUpper(s[i])) ==> r == s
  {
    seq(|s|, i requires 0 <= i < |s| => LowerChar(s[i]))
  }

  /** Lower-casing works piece by piece. */
  lemma ToLowerAppend(a: string, b: string)
    ensures ToLower(a + b) == ToLower(a) + ToLower(b)
  {
    assert forall i :: 0 <= i < |a + b| ==> ToLower(a + b)[i] == (ToLower(a) + ToLower(b))[i];
  }

  /** The characters matched by JavaScript's `\s` (and removed by `trim`):
      the ASCII spaces and line breaks, NBSP, the Unicode space separators,
      the line and paragraph separators and the byte-order mark. */
  predicate IsWhitespace(c: char) {
    c == ' ' || c == '\t' || c == '\n' || c == '\r' || c == '\U{000B}' || c == '\U{000C}'
    || c == '\U{00A0}' || c == '\U{1680}' || ('\U{2000}' <= c <= '\U{200A}')
    || c == '\U{2028}' || c == '\U{2029}' || c == '\U{202F}' || c == '\U{205F}'
    || c == '\U{3000}' || c == '\U{FEFF}'
  }

  /** `replace(/\s/g, '')`. */
  function StripWhitespace(s: string): (r: string)
    ensures |r| <= |s|
    ensures forall i :: 0 <= i < |r| ==> !IsWhitespace(r[i])
  {
    if s == [] then []
    else if IsWhitespace(s[0]) then StripWhitespace(s[1..])
    else [s[0]] + StripWhitespace(s[1..])
  }

  /** `replace(/\s/g, '')` works piece by piece ... */
  lemma {:induction false} StripWhitespaceAppend(a: string, b: string)
    ensures StripWhitespace(a + b) == StripWhitespace(a) + StripWhitespace(b)
  {
    if a == [] {
      assert a + b == b;
    } else {
      assert (a + b)[0] == a[0] && (a + b)[1..] == a[1..] + b;
      StripWhitespaceAppend(a[1..], b);
    }
  }

  /** ... and on one character it drops whitespace and keeps anything
      else, so every other character survives, in order. */
  lemma StripWhitespaceChar(c: char)
    ensures StripWhitespace([c]) == if IsWhitespace(c) then [] else [c]
  {
    assert [c][1..] == [];
  }

  /** Leading whitespace is removed ... */
  lemma {:induction false} StripWhitespaceDropsPrefix(w: string, t: string)
    requires forall i :: 0 <= i < |w| ==> IsWhitespace(w[i])
    ensures StripWhitespace(w + t) == StripWhitespace(t)
  {
    if w == [] {
      assert w + t == t;
    } else {
      assert (w + t)[0] == w[0] && (w + t)[1..] == w[1..] + t;
      StripWhitespaceDropsPrefix(w[1..], t);
    }
  }

  /** ... and a leading part without whitespace is kept. */
  lemma {:induction false} StripWhitespaceKeepsPrefix(a: string, t: string)
    requires forall i :: 0 <= i < |a| ==> !IsWhitespace(a[i])
    ensures StripWhitespace(a + t) == a + StripWhitespace(t)
  {
    if a == [] {
      assert a + t == t;
    } else {
      assert (a + t)[0] == a[0] && (a + t)[1..] == a[1..] + t;
      StripWhitespaceKeepsPrefix(a[1..], t);
      assert [a[0]] + (a[1..] + StripWhitespace(t)) == a + StripWhitespace(t);
    }
  }

  /** Whitespace between two pieces without whitespace is removed. */
  lemma StripWhitespaceBetween(a: string, w: string, b: string)
    requires forall i :: 0 <= i < |a| ==> !IsWhitespace(a[i])
    requires forall i :: 0 <= i < |b| ==> !IsWhitespace(b[i])
    requires forall i :: 0 <= i < |w| ==> IsWhitespace(w[i])
    ensures StripWhitespace(a + w + b) == a + b
  {
    assert a + w + b == a + (w + b);
    StripWhitespaceKeepsPrefix(a, w + b);
    StripWhitespaceDropsPrefix(w, b);
    StripWhitespaceFixed(b);
  }

  /** A string without whitespace is its own `replace(/\s/g, '')`. */
  lemma {:induction false} StripWhitespaceFixed(s: string)
    requires forall i :: 0 <= i < |s| ==> !IsWhitespace(s[i])
    ensures StripWhitespace(s) == s
  {
    if s != [] {
      StripWhitespaceFixed(s[1..]);
    }
  }

  /** Removing whitespace keeps a string free of upper-case letters. */
  lemma {:induction false} StripWhitespaceNoUpper(s: string)
    requires forall i :: 0 <= i < |s| ==> !IsUpper(s[i])
    ensures forall i :: 0 <= i < |StripWhitespace(s)| ==> !IsUpper(StripWhitespace(s)[i])
  {
    if s != [] {
      StripWhitespaceNoUpper(s[1..]);
    }
  }

  /** `replaceAll(c, '')` for a one-character pattern. */
  function RemoveAll(s: string, c: char): (r: string)
    ensures |r| <= |s|
    ensures forall i :: 0 <= i < |r| ==> r[i] != c
    ensures forall i :: 0 <= i < |r| ==> r[i] in s
  {
    if s == [] then []
    else if s[0] == c then RemoveAll(s[1..], c)
    else [s[0]] + RemoveAll(s[1..], c)
  }

  /** `replaceAll(c, '')` works piece by piece ... */
  lemma {:induction false} RemoveAllAppend(a: string, b: string, c: char)
    ensures RemoveAll(a + b, c) == RemoveAll(a, c) + RemoveAll(b, c)
  {
    if a == [] {
      assert a + b == b;
    } else {
      assert (a + b)[0] == a[0] && (a + b)[1..] == a[1..] + b;
      RemoveAllAppend(a[1..], b, c);
    }
  }

  /** ... and on one character it drops `c` and keeps anything else. */
  lemma RemoveAllChar(x: char, c: char)
    ensures RemoveAll([x], c) == if x == c then [] else [x]
  {
    assert [x][1..] == [];
  }

  /** A string without `c` is its own `replaceAll(c, '')`. */
  lemma {:induction false} RemoveAllAbsent(s: string, c: char)
    requires c !in s
    ensures RemoveAll(s, c) == s
  {
    if s != [] {
      RemoveAllAbsent(s[1..], c);
    }
  }

  /** Leading occurrences of `c` are removed ... */
  lemma {:induction false} RemoveAllDropsPrefix(w: string, t: string, c: char)
    requires forall i :: 0 <= i < |w| ==> w[i] == c
    ensures RemoveAll(w + t, c) == RemoveAll(t, c)
  {
    if w == [] {
      assert w + t == t;
    } else {
      assert (w + t)[0] == w[0] && (w + t)[1..] == w[1..] + t;
      RemoveAllDropsPrefix(w[1..], t, c);
    }
  }

  /** ... and a leading part without `c` is kept. */
  lemma {:induction false} RemoveAllKeepsPrefix(a: string, t: string, c: char)
    requires forall i :: 0 <= i < |a| ==> a[i] != c
    ensures RemoveAll(a + t, c) == a + RemoveAll(t, c)
  {
    if a == [] {
      assert a + t == t;
    } else {
      assert (a + t)[0] == a[0] && (a + t)[1..] == a[1..] + t;
      RemoveAllKeepsPrefix(a[1..], t, c);
      assert [a[0]] + (a[1..] + RemoveAll(t, c)) == a + RemoveAll(t, c);
    }
  }

  /** A run of `c` between two pieces without `c` is removed. */
  lemma RemoveAllBetween(a: string, w: string, b: string, c: char)
    requires forall i :: 0 <= i < |a| ==> a[i] != c
    requires forall i :: 0 <= i < |b| ==> b[i] != c
    requires forall i :: 0 <= i < |w| ==> w[i] == c
    ensures RemoveAll(a + w + b, c) == a + b
  {
    assert a + w + b == a + (w + b);
    RemoveAllKeepsPrefix(a, w + b, c);
    RemoveAllDropsPrefix(w, b, c);
    RemoveAllAbsent(b, c);
  }

  /** The leading half of `trim`: drop the whitespace at the front. */
  function TrimStart(s: string): (r: string)
    ensures |r| <= |s|
    ensures r == s[|s| - |r|..]
    ensures forall k :: 0 <= k < |s| - |r| ==> IsWhitespace(s[k])
    ensures r != [] ==> !IsWhitespace(r[0])
  {
    if s != [] && IsWhitespace(s[0]) then TrimStart(s[1..]) else s
  }

  /** The trailing half of `trim`: drop the whitespace at the back. */
  function TrimEnd(s: string): (r: string)
    ensures |r| <= |s|
    ensures r == s[..|r|]
    ensures forall k :: |r| <= k < |s| ==> IsWhitespace(s[k])
    ensures r != [] ==> !IsWhitespace(r[|r| - 1])
  {
    if s != [] && IsWhitespace(s[|s| - 1]) then TrimEnd(s[..|s| - 1]) else s
  }

  /** What `trim` keeps: a contiguous part of the string, everything cut
      off on either side being whitespace. */
  ghost predicate TrimmedFrom(r: string, s: string) {
    exists i, j ::
      0 <= i <= j <= |s| && r == s[i..j] && (forall k :: 0 <= k < i || j <= k < |s| ==> IsWhitespace(s[k]))
  }

  /** `TrimStart` removes whitespace in front, then `TrimEnd` removes
      whitespace behind. */
  lemma TrimCut(s: string)
    ensures TrimmedFrom(TrimEnd(TrimStart(s)), s)
  {
    var t := TrimStart(s);
    var r := TrimEnd(t);
    var i, j := |s| - |t|, |s| - |t| + |r|;
    assert forall k :: 0 <= k < i ==> IsWhitespace(s[k]);
    assert forall k :: j <= k < |s| ==> IsWhitespace(s[k]) by {
      forall k | j <= k < |s| ensures IsWhitespace(s[k]) {
        assert s[k] == t[k - i];
      }
    }
    assert r == s[i..j] by {
      assert t == s[i..];
      assert r == t[..|r|];
    }
  }

  /** `trim`: what is left is a contiguous part of the string, everything
      cut off on either side is whitespace, and the part has no whitespace
      at either end. */
  function Trim(s: string): (r: string)
    ensures |r| <= |s|
    ensures TrimmedFrom(r, s)
    ensures r != [] ==> !IsWhitespace(r[0]) && !IsWhitespace(r[|r| - 1])
  {
    TrimCut(s);
    TrimEnd(TrimStart(s))
  }

  /** `s.split(sep)` for a one-character separator: the pieces between
      separators, in order, empty pieces included. */
  function Split(s: string, sep: char): (parts: seq<string>)
    ensures |parts| >= 1
    ensures forall i :: 0 <= i < |parts| ==> sep !in parts[i]
  {
    if s == [] then [""]
    else
      var rest := Split(s[1..], sep);
      if s[0] == sep then [""] + rest
      else [[s[0]] + rest[0]] + rest[1..]
  }

  /** `parts.join(sep)`. */
  function Join(parts: seq<string>, sep: string): string {
    if parts == [] then ""
    else if |parts| == 1 then parts[0]
    else parts[0] + sep + Join(parts[1..], sep)
  }

  /** Every character of every piece occurs in the joined string. */
  lemma {:induction false} JoinHoldsPiece(parts: seq<string>, sep: string, piece: string)
    ensures piece in parts ==> forall x :: x in piece ==> x in Join(parts, sep)
  {
    if |parts| > 1 {
      JoinHoldsPiece(parts[1..], sep, piece);
      if piece in parts && piece != parts[0] {
        assert piece in parts[1..];
      }
    }
  }

  /** A string without the separator is a single piece. */
  lemma {:induction false} SplitNoSeparator(s: string, sep: char)
    requires sep !in s
    ensures Split(s, sep) == [s]
  {
    if s != [] {
      SplitNoSeparator(s[1..], sep);
      assert [s[0]] + s[1..] == s;
    }
  }

  /** A first piece free of the separator, then the separator: the piece
      splits off and the rest is split on its own. */
  lemma {:induction false} SplitFirstPiece(w: string, t: string, sep: char)
    requires sep !in w
    ensures Split(w + [sep] + t, sep) == [w] + Split(t, sep)
  {
    if w == [] {
      assert (w + [sep] + t)[0] == sep && (w + [sep] + t)[1..] == t;
    } else {
      assert (w + [sep] + t)[0] == w[0] && (w + [sep] + t)[1..] == w[1..] + [sep] + t;
      SplitFirstPiece(w[1..], t, sep);
      assert [w[0]] + w[1..] == w;
    }
  }

  /** Joining pieces free of the separator and splitting again gives back
      the pieces. */
  lemma {:induction false} SplitJoin(parts: seq<string>, sep: char)
    requires |parts| >= 1
    requires forall i :: 0 <= i < |parts| ==> sep !in parts[i]
    ensures Split(Join(parts, [sep]), sep) == parts
  {
    if |parts| == 1 {
      SplitNoSeparator(parts[0], sep);
    } else {
      SplitJoin(parts[1..], sep);
      SplitFirstPiece(parts[0], Join(parts[1..], [sep]), sep);
      assert [parts[0]] + parts[1..] == parts;
    }
  }

  /** Splitting and joining again with the same separator gives back the
      original string. */
  lemma {:induction false} JoinSplit(s: string, sep: char)
    ensures Join(Split(s, sep), [sep]) == s
  {
    if s != [] {
      var rest := Split(s[1..], sep);
      JoinSplit(s[1..], sep);
      if s[0] == sep {
        assert Split(s, sep) == [""] + rest;
      } else {
        var parts := Split(s, sep);
        assert parts == [[s[0]] + rest[0]] + rest[1..];
        if |rest| == 1 {
          assert Join(rest, [sep]) == rest[0];
        } else {
          assert Join(rest, [sep]) == rest[0] + [sep] + Join(rest[1..], [sep]);
          assert parts[1..] == rest[1..];
        }
      }
    }
  }

  predicate IsDigit(c: char) { '0' <= c <= '9' }

  predicate IsDigits(s: string) {
    |s| > 0 && forall i :: 0 <= i < |s| ==> IsDigit(s[i])
  }

  /** A string with a comma in it is no decimal numeral. */
  lemma CommaNotDecimal(s: string, k: int)
    requires 0 <= k < |s| && s[k] == ','
    ensures !IsDecimal(s)
  {
    if |s| > 0 && s[0] == '-' {
      assert s[1..][k - 1] == ',';
    }
  }

  function DigitValue(c: char): nat
    requires IsDigit(c)
  {
    c as int - '0' as int
  }

  function DigitChar(d: nat): (c: char)
    requires d < 10
    ensures IsDigit(c) && DigitValue(c) == d
  {
    ('0' as int + d) as char
  }

  /** The value of a string of decimal digits. */
  function ParseNat(s: string): nat
    requires forall i :: 0 <= i < |s| ==> IsDigit(s[i])
  {
    if s == [] then 0 else ParseNat(s[..|s| - 1]) * 10 + DigitValue(s[|s| - 1])
  }

  /** Digits, optionally after one minus sign. */
  predicate IsDecimal(s: string) {
    IsDigits(s) || (|s| > 0 && s[0] == '-' && IsDigits(s[1..]))
  }

  /** The number a query or form string denotes: a decimal integer with an
      optional leading minus sign; `None` stands for JavaScript's `NaN`.
      Only a minus sign gives a negative number. */
  function ParseInt(s: string): (r: Option<int>)
    ensures r.Some? <==> IsDecimal(s)
    ensures r.Some? && s[0] != '-' ==> r.value >= 0
    ensures r.Some? && r.value < 0 ==> s[0] == '-'
  {
    if |s| > 0 && s[0] == '-' then
      if IsDigits(s[1..]) then Some(0 - ParseNat(s[1..]) as int) else None
    else if IsDigits(s) then Some(ParseNat(s))
    else None
  }

  function NatToString(n: nat): (s: string)
    ensures IsDigits(s)
  {
    if n < 10 then [DigitChar(n)] else NatToString(n / 10) + [DigitChar(n % 10)]
  }

  /** The decimal numeral of an integer, which starts with a minus sign
      exactly when the integer is negative. `String` prints it for integers
      below 10^21 in magnitude (`NumberToString`). */
  function IntToString(n: int): (r: string)
    ensures IsDecimal(r)
    ensures r[0] == '-' <==> n < 0
  {
    if n < 0 then "-" + NatToString(-n) else NatToString(n)
  }

  lemma {:induction false} ParseNatToString(n: nat)
    ensures ParseNat(NatToString(n)) == n
  {
    if n >= 10 {
      ParseNatToString(n / 10);
      var s := NatToString(n);
      assert s[..|s| - 1] == NatToString(n / 10);
    }
  }

  /** Printing an integer and parsing it back gives the integer. */
  lemma ParseIntToString(n: int)
    ensures ParseInt(IntToString(n)) == Some(n)
  {
    if n < 0 {
      ParseNatToString(-n);
      assert IntToString(n)[1..] == NatToString(-n);
    } else {
      ParseNatToString(n);
    }
  }

  // ---------------------------------------------------------------------
  // Numbers as JavaScript's `parseInt` reads them and `String` prints them.
  // Numbers are unbounded integers here; a double's rounding above 2^53 - 1
  // is not modelled.

  /** The leading run of digits of `s`. */
  function LeadingDigits(s: string): (r: string)
    ensures |r| <= |s| && r == s[..|r|]
    ensures forall i :: 0 <= i < |r| ==> IsDigit(r[i])
    ensures |r| < |s| ==> !IsDigit(s[|r|])
  {
    if s == [] || !IsDigit(s[0]) then [] else [s[0]] + LeadingDigits(s[1..])
  }

  lemma {:induction false} LeadingDigitsAll(s: string)
    requires forall i :: 0 <= i < |s| ==> IsDigit(s[i])
    ensures LeadingDigits(s) == s
  {
    if s != [] {
      LeadingDigitsAll(s[1..]);
    }
  }

  /** A run of digits followed by anything that does not start with a digit
      has that run as its leading digits. */
  lemma {:induction false} LeadingDigitsBefore(a: string, b: string)
    requires forall i :: 0 <= i < |a| ==> IsDigit(a[i])
    requires b == [] || !IsDigit(b[0])
    ensures LeadingDigits(a + b) == a
  {
    if a == [] {
      assert a + b == b;
    } else {
      assert (a + b)[1..] == a[1..] + b;
      LeadingDigitsBefore(a[1..], b);
    }
  }

  /** A string that starts with a digit or a minus sign has no leading
      whitespace to trim. */
  lemma TrimStartKeeps(s: string)
    requires s != [] && (IsDigit(s[0]) || s[0] == '-')
    ensures TrimStart(s) == s
  {
    assert !IsWhitespace(s[0]);
  }

  /** `parseInt(s, 10)`: leading whitespace is skipped, then an optional
      sign, then the longest run of digits is read and the rest ignored;
      `None` stands for `NaN` when there is no digit. */
  function ParseIntPrefix(s: string): (r: Option<int>)
    ensures s == [] ==> r.None?
    ensures r.Some? && r.value < 0 ==> '-' in s
  {
    var t := TrimStart(s);
    var unsigned := if t != [] && (t[0] == '-' || t[0] == '+') then t[1..] else t;
    var digits := LeadingDigits(unsigned);
    if digits == [] then None
    else if t[0] == '-' then Some(0 - ParseNat(digits) as int)
    else Some(ParseNat(digits))
  }

  /** On a decimal numeral `parseInt` and the strict `ParseInt` agree. */
  lemma ParseIntPrefixDecimal(s: string)
    requires IsDecimal(s)
    ensures ParseIntPrefix(s) == ParseInt(s)
  {
    TrimStartKeeps(s);
    if s[0] == '-' {
      LeadingDigitsAll(s[1..]);
    } else {
      LeadingDigitsAll(s);
    }
  }

  /** `parseInt` reads the digits at the front and ignores what follows
      them: `parseInt("700abc", 10)` is 700. */
  lemma ParseIntPrefixTrailing(a: string, b: string)
    requires IsDigits(a) && (b == [] || !IsDigit(b[0]))
    ensures ParseIntPrefix(a + b) == Some(ParseNat(a))
  {
    var s := a + b;
    assert s[0] == a[0];
    TrimStartKeeps(s);
    LeadingDigitsBefore(a, b);
  }

  /** The magnitude from which `String` prints a number in exponent form. */
  const ExponentFrom: int := 1_000_000_000_000_000_000_000

  /** An integer `String` prints as a plain numeral. */
  predicate Plain(n: int) { -ExponentFrom < n < ExponentFrom }

  lemma {:induction false} NatToStringLeading(n: nat)
    requires n >= 1
    ensures NatToString(n)[0] != '0'
  {
    if n >= 10 {
      NatToStringLeading(n / 10);
      assert NatToString(n)[0] == NatToString(n / 10)[0];
    }
  }

  /** `s` without its trailing zeros. */
  function DropTrailingZeros(s: string): (r: string)
    ensures |r| <= |s| && r == s[..|r|]
  {
    if s != [] && s[|s| - 1] == '0' then DropTrailingZeros(s[..|s| - 1]) else s
  }

  /** The exponent form of a positive integer: its first digit, then a point
      and its other significant digits when it has any, then "e+" and the
      exponent. It starts with a non-zero digit followed by no digit. */
  function ExponentForm(n: nat): (r: string)
    requires n >= 1
    ensures |r| >= 4 && IsDigit(r[0]) && r[0] != '0' && !IsDigit(r[1])
  {
    var digits := NatToString(n);
    var significant := DropTrailingZeros(digits);
    NatToStringLeading(n);
    [digits[0]] + (if |significant| > 1 then "." + significant[1..] else "") + "e+" + NatToString(|digits| - 1)
  }

  /** `String(n)` for an integer-valued number: the plain numeral below
      10^21 in magnitude, the exponent form from there on, which is no
      decimal numeral. */
  function NumberToString(n: int): (r: string)
    ensures Plain(n) ==> r == IntToString(n)
    ensures !Plain(n) ==> !IsDecimal(r)
  {
    if n <= -ExponentFrom then
      var e := ExponentForm(-n);
      assert ("-" + e)[1..] == e && !IsDigit(e[1]);
      "-" + e
    else if n < ExponentFrom then IntToString(n)
    else ExponentForm(n)
  }

  /** `parseInt(String(n), 10)` gives back a number `String` prints
      plainly ... */
  lemma ParsePrintedPlain(n: int)
    requires Plain(n)
    ensures ParseIntPrefix(NumberToString(n)) == Some(n)
  {
    ParseIntPrefixDecimal(IntToString(n));
    ParseIntToString(n);
  }

  /** ... but reads only the first digit of the exponent form, so from
      10^21 up it gives a number from 1 to 9. */
  lemma ParsePrintedExponent(n: int)
    requires n >= ExponentFrom
    ensures ParseIntPrefix(NumberToString(n)).Some?
    ensures 1 <= ParseIntPrefix(NumberToString(n)).value <= 9
  {
    var s := ExponentForm(n);
    TrimStartKeeps(s);
    LeadingDigitsBefore([s[0]], s[1..]);
    assert [s[0]] + s[1..] == s;
    assert ParseNat([s[0]]) == DigitValue(s[0]);
  }
}
