/**
 * The JavaScript string built-ins the screens rely on, stated on `seq<char>`:
 * `replace(/\D/g, '')` and its relatives as filters, `trim`, `startsWith`,
 * `includes`, `Array.prototype.join`, number-to-string conversion and `parseInt`.
 */
module Text {
  import opened Options

  predicate IsDigit(c: char) { '0' <= c <= '9' }

  predicate AllDigits(s: string) { forall i :: 0 <= i < |s| ==> IsDigit(s[i]) }

  /**
   * The characters that JavaScript's `\s` class and `String.prototype.trim`
   * treat as white space (WhiteSpace and LineTerminator of ECMAScript).
   */
  predicate IsWhitespace(c: char) {
    c == ' ' || c == '\t' || c == '\n' || c == '\r' || c == '\U{B}' || c == '\U{C}'
    || c == '\U{A0}' || c == '\U{1680}' || ('\U{2000}' <= c <= '\U{200A}')
    || c == '\U{2028}' || c == '\U{2029}' || c == '\U{202F}' || c == '\U{205F}'
    || c == '\U{3000}' || c == '\U{FEFF}'
  }

  predicate IsNonWhitespace(c: char) { !IsWhitespace(c) }

  /** A digit or a plus sign: what the sign-up phone field lets through. */
  predicate IsPhoneChar(c: char) { IsDigit(c) || c == '+' }

  /** The characters of `s` that satisfy `keep`, in their original order. */
  function Filter(s: string, keep: char -> bool): (r: string)
    ensures |r| <= |s|
    ensures forall i :: 0 <= i < |r| ==> keep(r[i])
  {
    if s == [] then [] else (if keep(s[0]) then [s[0]] else []) + Filter(s[1..], keep)
  }

  /** Filtering commutes with concatenation: the order of the kept characters is preserved. */
  lemma {:induction false} FilterConcat(a: string, b: string, keep: char -> bool)
    ensures Filter(a + b, keep) == Filter(a, keep) + Filter(b, keep)
  {
    if a == [] {
      assert a + b == b;
    } else {
      assert (a + b)[1..] == a[1..] + b;
      FilterConcat(a[1..], b, keep);
    }
  }

  /** A string all of whose characters are kept comes through unchanged. */
  lemma {:induction false} FilterKeepsAll(s: string, keep: char -> bool)
    requires forall i :: 0 <= i < |s| ==> keep(s[i])
    ensures Filter(s, keep) == s
  {
    if s != [] {
      FilterKeepsAll(s[1..], keep);
    }
  }

  /** A string none of whose characters is kept filters to the empty string. */
  lemma {:induction false} FilterDropsAll(s: string, keep: char -> bool)
    requires forall i :: 0 <= i < |s| ==> !keep(s[i])
    ensures Filter(s, keep) == []
  {
    if s != [] {
      FilterDropsAll(s[1..], keep);
    }
  }

  /** Filtering twice with the same test changes nothing. */
  lemma FilterIdempotent(s: string, keep: char -> bool)
    ensures Filter(Filter(s, keep), keep) == Filter(s, keep)
  {
    FilterKeepsAll(Filter(s, keep), keep);
  }

  /** Filtering with a looser test first, then a stricter one, is filtering with the stricter one. */
  lemma {:induction false} FilterNarrows(s: string, loose: char -> bool, strict: char -> bool)
    requires forall c :: strict(c) ==> loose(c)
    ensures Filter(Filter(s, loose), strict) == Filter(s, strict)
  {
    if s != [] {
      FilterNarrows(s[1..], loose, strict);
      var head := if loose(s[0]) then [s[0]] else [];
      assert Filter(s, loose) == head + Filter(s[1..], loose);
      FilterConcat(head, Filter(s[1..], loose), strict);
      if loose(s[0]) {
        assert head[1..] == [];
      }
    }
  }

  /** `s.replace(/\D/g, '')`: the digit characters of `s`, in order. */
  function Digits(s: string): (r: string)
    ensures AllDigits(r) && |r| <= |s|
  {
    Filter(s, IsDigit)
  }

  /** `s.replace(/\s/g, '')`. */
  function RemoveWhitespace(s: string): (r: string)
    ensures forall i :: 0 <= i < |r| ==> !IsWhitespace(r[i])
  {
    Filter(s, IsNonWhitespace)
  }

  /** Extracting the digits of a string that already consists of digits is the identity. */
  lemma DigitsOfDigits(s: string)
    requires AllDigits(s)
    ensures Digits(s) == s
  {
    FilterKeepsAll(s, IsDigit);
  }

  lemma DigitsConcat(a: string, b: string)
    ensures Digits(a + b) == Digits(a) + Digits(b)
  {
    FilterConcat(a, b, IsDigit);
  }

  /** `replace(/\D/g, '')` applied twice equals applying it once. */
  lemma DigitsIdempotent(s: string)
    ensures Digits(Digits(s)) == Digits(s)
  {
    DigitsOfDigits(Digits(s));
  }

  lemma SpaceHasNoDigits()
    ensures Digits(" ") == []
  {
    assert !IsDigit(" "[0]);
    assert " "[1..] == [];
  }

  lemma GroupThenSpace(g: string)
    requires AllDigits(g)
    ensures Digits(g + " ") == g
  {
    DigitsOfDigits(g);
    SpaceHasNoDigits();
    DigitsConcat(g, " ");
  }

  /** The test card `4111 1111 1111 1111`, as the card field shows it, loses only its spaces. */
  lemma DigitsOfGroupedCard()
    ensures Digits("4111 1111 1111 1111") == "4111111111111111"
  {
    var g, h := "4111", "1111";
    var gs, hs := g + " ", h + " ";
    GroupThenSpace(g);
    GroupThenSpace(h);
    DigitsOfDigits(h);
    var card := gs + hs + hs + h;
    DigitsConcat(gs + hs + hs, h);
    DigitsConcat(gs + hs, hs);
    DigitsConcat(gs, hs);
    assert Digits(card) == "4111111111111111";
    assert card == "4111 1111 1111 1111";
  }

  /** Removing white space from a string that has none is the identity. */
  lemma RemoveWhitespaceOfNone(s: string)
    requires forall i :: 0 <= i < |s| ==> !IsWhitespace(s[i])
    ensures RemoveWhitespace(s) == s
  {
    FilterKeepsAll(s, IsNonWhitespace);
  }

  lemma RemoveWhitespaceConcat(a: string, b: string)
    ensures RemoveWhitespace(a + b) == RemoveWhitespace(a) + RemoveWhitespace(b)
  {
    FilterConcat(a, b, IsNonWhitespace);
  }

  /** The number of white-space characters `s` starts with. */
  function LeadingSpace(s: string): (n: nat)
    ensures n <= |s|
    ensures forall i :: 0 <= i < n ==> IsWhitespace(s[i])
    ensures n < |s| ==> !IsWhitespace(s[n])
  {
    if s != [] && IsWhitespace(s[0]) then
      var n := 1 + LeadingSpace(s[1..]);
      assert forall i :: 1 <= i < n ==> s[i] == s[1..][i - 1];
      n
    else 0
  }

  /** The number of white-space characters `s` ends with. */
  function TrailingSpace(s: string): (n: nat)
    ensures n <= |s|
    ensures forall i :: |s| - n <= i < |s| ==> IsWhitespace(s[i])
    ensures n < |s| ==> !IsWhitespace(s[|s| - n - 1])
  {
    if s != [] && IsWhitespace(s[|s| - 1]) then
      var n := 1 + TrailingSpace(s[..|s| - 1]);
      assert forall i :: |s| - n <= i < |s| - 1 ==> s[i] == s[..|s| - 1][i];
      n
    else 0
  }

  /** Leading white space of `s` removed. */
  function TrimStart(s: string): string {
    s[LeadingSpace(s)..]
  }

  /** Trailing white space of `s` removed. */
  function TrimEnd(s: string): string {
    s[..|s| - TrailingSpace(s)]
  }

  lemma TrimStartDropsOnlyWhitespace(s: string)
    ensures RemoveWhitespace(TrimStart(s)) == RemoveWhitespace(s)
  {
    var n := LeadingSpace(s);
    assert s == s[..n] + s[n..];
    FilterDropsAll(s[..n], IsNonWhitespace);
    RemoveWhitespaceConcat(s[..n], s[n..]);
  }

  lemma TrimEndDropsOnlyWhitespace(s: string)
    ensures RemoveWhitespace(TrimEnd(s)) == RemoveWhitespace(s)
  {
    var k := |s| - TrailingSpace(s);
    assert s == s[..k] + s[k..];
    FilterDropsAll(s[k..], IsNonWhitespace);
    RemoveWhitespaceConcat(s[..k], s[k..]);
  }

  /** `String.prototype.trim`: `s` without its leading and trailing white space. */
  function Trim(s: string): (r: string)
    ensures |r| <= |s|
    ensures r == [] || (!IsWhitespace(r[0]) && !IsWhitespace(r[|r| - 1]))
  {
    TrimEnd(TrimStart(s))
  }

  /** The trimmed string is a slice of `s`, and everything cut off before and after it is white space. */
  lemma TrimIsSlice(s: string)
    ensures exists a, b ::
              && 0 <= a <= b <= |s| && Trim(s) == s[a..b]
              && (forall i :: 0 <= i < a ==> IsWhitespace(s[i]))
              && (forall i :: b <= i < |s| ==> IsWhitespace(s[i]))
  {
    var a := LeadingSpace(s);
    var t := s[a..];
    var b := a + (|t| - TrailingSpace(t));
    assert Trim(s) == s[a..b];
    assert forall i :: b <= i < |s| ==> s[i] == t[i - a];
  }

  /** Only white space was removed: the other characters are those of `s`, in order. */
  lemma TrimDropsOnlyWhitespace(s: string)
    ensures RemoveWhitespace(Trim(s)) == RemoveWhitespace(s)
  {
    TrimStartDropsOnlyWhitespace(s);
    TrimEndDropsOnlyWhitespace(TrimStart(s));
  }

  /** A trimmed string is empty exactly when the input is all white space. */
  lemma TrimEmptyIff(s: string)
    ensures Trim(s) == [] <==> forall i :: 0 <= i < |s| ==> IsWhitespace(s[i])
  {
    TrimDropsOnlyWhitespace(s);
    if forall i :: 0 <= i < |s| ==> IsWhitespace(s[i]) {
      FilterDropsAll(s, IsNonWhitespace);
    } else {
      var i :| 0 <= i < |s| && !IsWhitespace(s[i]);
      assert s == s[..i] + [s[i]] + s[i + 1..];
      RemoveWhitespaceConcat(s[..i] + [s[i]], s[i + 1..]);
      RemoveWhitespaceConcat(s[..i], [s[i]]);
      assert RemoveWhitespace(s) != [];
    }
  }

  /** Trimming a string with no white space at either end changes nothing; in particular trim is idempotent. */
  lemma TrimOfTrimmed(s: string)
    requires s == [] || (!IsWhitespace(s[0]) && !IsWhitespace(s[|s| - 1]))
    ensures Trim(s) == s
  {
    assert TrimStart(s) == s;
  }

  lemma TrimIdempotent(s: string)
    ensures Trim(Trim(s)) == Trim(s)
  {
    TrimOfTrimmed(Trim(s));
  }

  predicate StartsWith(s: string, prefix: string) {
    |prefix| <= |s| && s[..|prefix|] == prefix
  }

  /** `part` occurs in `s` starting at index `i`. */
  predicate OccursAt(s: string, part: string, i: int) {
    0 <= i <= |s| - |part| && s[i..i + |part|] == part
  }

  /** `s.includes(part)`: true exactly when `part` occurs somewhere in `s`. */
  function Contains(s: string, part: string): (r: bool)
    ensures r <==> exists i :: OccursAt(s, part, i)
    decreases |s|
  {
    if StartsWith(s, part) then
      assert OccursAt(s, part, 0);
      true
    else if |s| <= |part| then
      assert forall i :: OccursAt(s, part, i) ==> i == 0;
      false
    else
      var r := Contains(s[1..], part);
      OccursShift(s, part);
      r
  }

  /** An occurrence in `s` after its first character is an occurrence in `s[1..]`, one place earlier. */
  lemma OccursShift(s: string, part: string)
    requires s != []
    ensures forall i :: OccursAt(s, part, i) && i >= 1 ==> OccursAt(s[1..], part, i - 1)
    ensures forall i :: OccursAt(s[1..], part, i) ==> OccursAt(s, part, i + 1)
  {
    forall i | 1 <= i <= |s| - |part|
      ensures OccursAt(s, part, i) <==> OccursAt(s[1..], part, i - 1)
    {
      assert s[i..i + |part|] == s[1..][i - 1..i - 1 + |part|];
    }
  }

  /** `parts.join(sep)`. */
  function Join(parts: seq<string>, sep: string): string
    decreases |parts|
  {
    if parts == [] then []
    else if |parts| == 1 then parts[0]
    else Join(parts[..|parts| - 1], sep) + sep + parts[|parts| - 1]
  }

  /** The number of times `c` occurs in `s`. */
  function Count(s: string, c: char): nat
  {
    if s == [] then 0 else (if s[0] == c then 1 else 0) + Count(s[1..], c)
  }

  lemma {:induction false} CountConcat(a: string, b: string, c: char)
    ensures Count(a + b, c) == Count(a, c) + Count(b, c)
  {
    if a == [] {
      assert a + b == b;
    } else {
      assert (a + b)[1..] == a[1..] + b;
      CountConcat(a[1..], b, c);
    }
  }

  /**
   * Joining parts that do not contain `c` with the one-character separator `c`
   * puts exactly one `c` between neighbours: |parts| - 1 of them in all.
   */
  lemma {:induction false} JoinCount(parts: seq<string>, c: char)
    requires parts != []
    requires forall k :: 0 <= k < |parts| ==> Count(parts[k], c) == 0
    ensures Count(Join(parts, [c]), c) == |parts| - 1
  {
    if |parts| > 1 {
      var init := parts[..|parts| - 1];
      JoinCount(init, c);
      CountConcat(Join(init, [c]) + [c], parts[|parts| - 1], c);
      CountConcat(Join(init, [c]), [c], c);
    }
  }

  /** Joining parts without `c` using a separator without `c` gives a string without `c`. */
  lemma {:induction false} JoinAvoids(parts: seq<string>, sep: string, c: char)
    requires Count(sep, c) == 0
    requires forall k :: 0 <= k < |parts| ==> Count(parts[k], c) == 0
    ensures Count(Join(parts, sep), c) == 0
    decreases |parts|
  {
    if |parts| > 1 {
      var init := parts[..|parts| - 1];
      JoinAvoids(init, sep, c);
      CountConcat(Join(init, sep) + sep, parts[|parts| - 1], c);
      CountConcat(Join(init, sep), sep, c);
    }
  }

  function DigitChar(d: nat): char
    requires d < 10
  {
    ['0', '1', '2', '3', '4', '5', '6', '7', '8', '9'][d]
  }

  /** Decimal rendering of a natural number, as `String(n)` gives it. */
  function NatToString(n: nat): (r: string)
    ensures r != [] && AllDigits(r)
    ensures n < 10 ==> |r| == 1
    ensures n < 100 ==> |r| <= 2
    ensures n < 1000 ==> |r| <= 3
    ensures n < 10000 ==> |r| <= 4
  {
    if n < 10 then [DigitChar(n)] else NatToString(n / 10) + [DigitChar(n % 10)]
  }

  /** Decimal rendering of an integer, with a leading '-' for a negative one. */
  function IntToString(n: int): (r: string)
    ensures r != []
    ensures n >= 0 ==> AllDigits(r)
  {
    if n >= 0 then NatToString(n) else "-" + NatToString(-n)
  }

  /** The value of a string of decimal digits (what `parseInt` gives for it). */
  function DigitsValue(s: string): (v: nat)
    requires AllDigits(s)
  {
    if s == [] then 0 else 10 * DigitsValue(s[..|s| - 1]) + (s[|s| - 1] as int - '0' as int)
  }

  /** Rendering a number in decimal and reading it back gives the number. */
  lemma {:induction false} NatToStringRoundTrip(n: nat)
    ensures DigitsValue(NatToString(n)) == n
  {
    if n >= 10 {
      NatToStringRoundTrip(n / 10);
      var s := NatToString(n);
      assert s[..|s| - 1] == NatToString(n / 10);
    }
  }

  /** The longest prefix of `s` made of decimal digits. */
  function LeadingDigits(s: string): (r: string)
    ensures AllDigits(r) && StartsWith(s, r)
    ensures |r| < |s| ==> !IsDigit(s[|r|])
  {
    if s != [] && IsDigit(s[0]) then [s[0]] + LeadingDigits(s[1..]) else []
  }

  /**
   * `parseInt(s)` without a radix: leading white space, an optional sign,
   * then the longest run of decimal digits; `None` stands for NaN.
   */
  function ParseInt(s: string): (r: Option<int>)
  {
    var t := TrimStart(s);
    var negative := t != [] && t[0] == '-';
    var rest := if t != [] && (t[0] == '-' || t[0] == '+') then t[1..] else t;
    var d := LeadingDigits(rest);
    var magnitude: int := if d == [] then 0 else DigitsValue(d);
    var value: int := if negative then -magnitude else magnitude;
    if d == [] then None else Some(value)
  }

  /** `parseInt` reads back what `String(n)` writes, and gives NaN when no digit follows the sign. */
  lemma ParseIntOfNatToString(n: nat)
    ensures ParseInt(NatToString(n)) == Some(n)
    ensures ParseInt("") == None
  {
    var s := NatToString(n);
    assert !IsWhitespace(s[0]);
    assert TrimStart(s) == s;
    LeadingDigitsOfDigits(s);
    NatToStringRoundTrip(n);
  }

  lemma {:induction false} LeadingDigitsOfDigits(s: string)
    requires AllDigits(s)
    ensures LeadingDigits(s) == s
  {
    if s != [] {
      LeadingDigitsOfDigits(s[1..]);
    }
  }

  /** ASCII upper-casing, the part of `toUpperCase` that the card-holder field sees in practice. */
  function ToUpperAscii(s: string): (r: string)
    ensures |r| == |s|
    ensures forall i :: 0 <= i < |s| ==> r[i] == (if 'a' <= s[i] <= 'z' then s[i] - 'a' + 'A' else s[i])
  {
    seq(|s|, i requires 0 <= i < |s| => if 'a' <= s[i] <= 'z' then s[i] - 'a' + 'A' else s[i])
  }

  /**
   * Upper-casing leaves no lower-case ASCII letter, so doing it again changes
   * nothing, and it keeps every digit and white-space character where it was.
   */
  lemma UpperCaseLaws(s: string)
    ensures forall i :: 0 <= i < |s| ==> !('a' <= ToUpperAscii(s)[i] <= 'z')
    ensures ToUpperAscii(ToUpperAscii(s)) == ToUpperAscii(s)
    ensures forall i :: 0 <= i < |s| && (IsDigit(s[i]) || IsWhitespace(s[i])) ==> ToUpperAscii(s)[i] == s[i]
  {
    var u := ToUpperAscii(s);
    forall i | 0 <= i < |s|
      ensures !('a' <= u[i] <= 'z')
    {
      assert u[i] == (if 'a' <= s[i] <= 'z' then s[i] - 'a' + 'A' else s[i]);
    }
    assert ToUpperAscii(u) == u;
  }
}
