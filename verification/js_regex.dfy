/**
 The JavaScript regular-expression character classes the frontend validators use (`\s`, `\d`,
 `\w`) and the two global replacements built on them: `replace(/\s/g, '')` and
 `replace(/\D/g, '')`.
 */
module JsRegex {

  /** `\s`: the ECMAScript white space and line terminator characters. */
  predicate IsWhitespace(c: char)
  {
    var n := c as int;
    || (9 <= n <= 13) || n == 0x20 || n == 0xA0 || n == 0x1680
    || (0x2000 <= n <= 0x200A) || n == 0x2028 || n == 0x2029
    || n == 0x202F || n == 0x205F || n == 0x3000 || n == 0xFEFF
  }

  /** `\d`: an ASCII digit. */
  predicate IsDigit(c: char)
  {
    '0' <= c <= '9'
  }

  /** `\w`: an ASCII letter, digit or underscore. */
  predicate IsWordChar(c: char)
  {
    ('A' <= c <= 'Z') || ('a' <= c <= 'z') || IsDigit(c) || c == '_'
  }

  predicate AllDigits(s: string)
  {
    forall i :: 0 <= i < |s| ==> IsDigit(s[i])
  }

  /** The numeric value of a digit. */
  function DigitValue(c: char): int
  {
    c as int - '0' as int
  }

  /** `s.replace(/\s/g, '')`. */
  function StripWhitespace(s: string): (r: string)
    ensures |r| <= |s|
    ensures forall i :: 0 <= i < |r| ==> !IsWhitespace(r[i])
    ensures (forall i :: 0 <= i < |s| ==> !IsWhitespace(s[i])) ==> r == s
  {
    if s == [] then []
    else (if IsWhitespace(s[0]) then [] else [s[0]]) + StripWhitespace(s[1..])
  }

  /** `s.replace(/\D/g, '')`: the digits of s, in order. */
  function KeepDigits(s: string): (r: string)
    ensures |r| <= |s|
    ensures AllDigits(r)
    ensures AllDigits(s) ==> r == s
  {
    if s == [] then []
    else (if IsDigit(s[0]) then [s[0]] else []) + KeepDigits(s[1..])
  }

  /** Deleting white space keeps every other character as often as it occurs. */
  lemma {:induction false} StripWhitespaceCounts(s: string)
    ensures forall c :: multiset(StripWhitespace(s))[c] == (if IsWhitespace(c) then 0 else multiset(s)[c])
    decreases |s|
  {
    if s != [] {
      StripWhitespaceCounts(s[1..]);
      assert s == [s[0]] + s[1..];
    }
  }

  /** Deleting non-digits keeps every digit as often as it occurs. */
  lemma {:induction false} KeepDigitsCounts(s: string)
    ensures forall c :: multiset(KeepDigits(s))[c] == (if IsDigit(c) then multiset(s)[c] else 0)
    decreases |s|
  {
    if s != [] {
      KeepDigitsCounts(s[1..]);
      assert s == [s[0]] + s[1..];
    }
  }

  /** Deleting digits distributes over concatenation. */
  lemma {:induction false} KeepDigitsConcat(a: string, b: string)
    ensures KeepDigits(a + b) == KeepDigits(a) + KeepDigits(b)
    decreases |a|
  {
    if a == [] {
      assert a + b == b;
    } else {
      assert (a + b)[0] == a[0];
      assert (a + b)[1..] == a[1..] + b;
      KeepDigitsConcat(a[1..], b);
    }
  }

  /** Deleting white space distributes over concatenation. */
  lemma {:induction false} StripWhitespaceConcat(a: string, b: string)
    ensures StripWhitespace(a + b) == StripWhitespace(a) + StripWhitespace(b)
    decreases |a|
  {
    if a == [] {
      assert a + b == b;
    } else {
      assert (a + b)[0] == a[0];
      assert (a + b)[1..] == a[1..] + b;
      StripWhitespaceConcat(a[1..], b);
    }
  }

  /** White space holds no digits, so deleting white space before the non-digits changes
      nothing: `replace(/\s/g, '').replace(/\D/g, '')` is `replace(/\D/g, '')`. */
  lemma {:induction false} StripThenKeepDigits(s: string)
    ensures KeepDigits(StripWhitespace(s)) == KeepDigits(s)
    decreases |s|
  {
    if s != [] {
      StripThenKeepDigits(s[1..]);
      KeepDigitsConcat(if IsWhitespace(s[0]) then [] else [s[0]], StripWhitespace(s[1..]));
    }
  }
}
