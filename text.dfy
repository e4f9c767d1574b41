/**
 * The few .NET string primitives the configuration code relies on:
 * whitespace tests, ordinal case-insensitive comparison, Trim, Replace
 * of a character by nothing, LastIndexOf, StartsWith and int.TryParse.
 */
module Text {
  import opened Wrappers

  /** Char.IsWhiteSpace: the Unicode space, line and paragraph separators
      plus U+0009..U+000D and U+0085. */
  predicate IsWhiteSpace(c: char)
    ensures IsWhiteSpace(c) ==> !('0' <= c <= '9') && !('a' <= c <= 'z') && !('A' <= c <= 'Z')
    ensures c == ' ' || c == '\t' || c == '\n' || c == '\r' ==> IsWhiteSpace(c)
  {
    || c == ' '
    || '\U{9}' <= c <= '\U{D}'
    || c == '\U{85}' || c == '\U{A0}' || c == '\U{1680}'
    || '\U{2000}' <= c <= '\U{200A}'
    || c == '\U{2028}' || c == '\U{2029}' || c == '\U{202F}' || c == '\U{205F}'
    || c == '\U{3000}'
  }

  /** string.IsNullOrEmpty */
  predicate IsNullOrEmpty(s: Option<string>) {
    s.None? || s.value == ""
  }

  /** Every character of `s` is whitespace (vacuously true of ""). */
  predicate IsBlank(s: string) {
    forall i :: 0 <= i < |s| ==> IsWhiteSpace(s[i])
  }

  /** string.IsNullOrWhiteSpace */
  predicate IsNullOrWhiteSpace(s: Option<string>)
    ensures IsNullOrEmpty(s) ==> IsNullOrWhiteSpace(s)
    ensures s.Some? && s.value != [] && !IsWhiteSpace(s.value[0]) ==> !IsNullOrWhiteSpace(s)
  {
    s.None? || IsBlank(s.value)
  }

  /** Case folding used by StringComparison.OrdinalIgnoreCase, on ASCII letters. */
  function LowerChar(c: char): (r: char)
    ensures 'A' <= c <= 'Z' ==> r != c && 'a' <= r <= 'z'
    ensures !('A' <= c <= 'Z') ==> r == c
  {
    if 'A' <= c <= 'Z' then (c as int + 32) as char else c
  }

  function Lower(s: string): (r: string)
    ensures |r| == |s|
  {
    seq(|s|, i requires 0 <= i < |s| => LowerChar(s[i]))
  }

  /** Text without upper-case ASCII letters is its own folding. */
  lemma LowerOfLowerCase(s: string)
    requires forall i :: 0 <= i < |s| ==> !('A' <= s[i] <= 'Z')
    ensures Lower(s) == s
  {
  }

  /** string.Equals(a, b, StringComparison.OrdinalIgnoreCase) */
  predicate EqualsIgnoreCase(a: string, b: string)
    ensures a == b ==> EqualsIgnoreCase(a, b)
    ensures EqualsIgnoreCase(a, b) ==> |a| == |b|
  {
    Lower(a) == Lower(b)
  }

  /** Folding never turns a non-whitespace character into whitespace or back. */
  lemma LowerCharKeepsWhiteSpace(c: char)
    ensures IsWhiteSpace(LowerChar(c)) == IsWhiteSpace(c)
  {
  }

  /** Two strings equal up to case are blank together. */
  lemma {:induction false} SameLowerSameBlank(a: string, b: string)
    requires Lower(a) == Lower(b)
    ensures IsBlank(a) == IsBlank(b)
  {
    forall i | 0 <= i < |a|
      ensures IsWhiteSpace(a[i]) == IsWhiteSpace(b[i])
    {
      assert Lower(a)[i] == Lower(b)[i];
      LowerCharKeepsWhiteSpace(a[i]);
      LowerCharKeepsWhiteSpace(b[i]);
    }
  }

  /** Drops the leading characters satisfying `p`. */
  function TrimStartWhere(s: string, p: char -> bool): (r: string)
    ensures |r| <= |s| && r == s[|s| - |r|..]
    ensures forall i :: 0 <= i < |s| - |r| ==> p(s[i])
    ensures r == [] || !p(r[0])
  {
    if s != [] && p(s[0]) then TrimStartWhere(s[1..], p) else s
  }

  /** Drops the trailing characters satisfying `p`. */
  function TrimEndWhere(s: string, p: char -> bool): (r: string)
    ensures |r| <= |s| && r == s[..|r|]
    ensures forall i :: |r| <= i < |s| ==> p(s[i])
    ensures r == [] || !p(r[|r| - 1])
  {
    if s != [] && p(s[|s| - 1]) then TrimEndWhere(s[..|s| - 1], p) else s
  }

  /** string.Trim(): removes leading and trailing Char.IsWhiteSpace characters. */
  function Trim(s: string): (r: string)
    ensures r == [] || (!IsWhiteSpace(r[0]) && !IsWhiteSpace(r[|r| - 1]))
  {
    TrimEndWhere(TrimStartWhere(s, IsWhiteSpace), IsWhiteSpace)
  }

  /** s.Replace(c.ToString(), ""): every occurrence of `c` removed, the rest kept in order. */
  function RemoveChar(s: string, c: char): (r: string)
    ensures forall i :: 0 <= i < |r| ==> r[i] != c
    ensures |r| <= |s|
    ensures (forall i :: 0 <= i < |s| ==> s[i] != c) ==> r == s
  {
    if s == [] then []
    else if s[0] == c then RemoveChar(s[1..], c)
    else [s[0]] + RemoveChar(s[1..], c)
  }

  /** Removing a character distributes over concatenation. */
  lemma {:induction false} RemoveCharAppend(x: string, y: string, c: char)
    ensures RemoveChar(x + y, c) == RemoveChar(x, c) + RemoveChar(y, c)
    decreases |x|
  {
    if x != [] {
      assert (x + y)[1..] == x[1..] + y;
      RemoveCharAppend(x[1..], y, c);
    } else {
      assert x + y == y;
    }
  }

  /** Removing `c` from a text with one more `c` inserted gives the same result. */
  lemma RemoveCharInserted(x: string, y: string, c: char)
    ensures RemoveChar(x + [c] + y, c) == RemoveChar(x + y, c)
  {
    RemoveCharAppend(x + [c], y, c);
    RemoveCharAppend(x, [c], c);
    RemoveCharAppend(x, y, c);
    assert RemoveChar([c], c) == [] by {
      assert [c][1..] == [];
    }
  }

  /** string.LastIndexOf(char): the index of the last `c`, or -1. */
  function LastIndexOf(s: string, c: char): (r: int)
    ensures -1 <= r < |s|
    ensures r >= 0 ==> s[r] == c
    ensures forall j :: r < j < |s| ==> s[j] != c
  {
    if s == [] then -1
    else if s[|s| - 1] == c then |s| - 1
    else LastIndexOf(s[..|s| - 1], c)
  }

  /** s.StartsWith(prefix, StringComparison.Ordinal) */
  predicate StartsWithOrdinal(s: string, prefix: string) {
    |prefix| <= |s| && s[..|prefix|] == prefix
  }

  // ----- int.TryParse(s, out int) with NumberStyles.Integer -----

  /** A NUL character; int.TryParse ignores a run of these at the very end. */
  predicate IsNul(c: char) {
    c == '\U{0}'
  }

  /** The whitespace NumberStyles.AllowLeadingWhite/AllowTrailingWhite accept. */
  predicate IsNumberWhite(c: char) {
    c == ' ' || '\U{9}' <= c <= '\U{D}'
  }

  predicate IsDigit(c: char) {
    '0' <= c <= '9'
  }

  predicate AllDigits(s: string) {
    forall i :: 0 <= i < |s| ==> IsDigit(s[i])
  }

  function DigitValue(c: char): nat
    requires IsDigit(c)
  {
    c as int - '0' as int
  }

  /** The value of a run of decimal digits, most significant first. */
  function DigitsValue(s: string): nat
    requires AllDigits(s)
  {
    if s == [] then 0 else DigitsValue(s[..|s| - 1]) * 10 + DigitValue(s[|s| - 1])
  }

  const Int32Min: int := -0x8000_0000
  const Int32Max: int := 0x7FFF_FFFF

  /**
   * int.TryParse: optional surrounding white, an optional sign, at least one
   * decimal digit, and a value that fits in 32 bits; NUL characters after
   * the trailing white are ignored, as .NET's number parser does.
   */
  function ParseInt32(s: string): (r: Option<int>)
    ensures r.Some? ==> Int32Min <= r.value <= Int32Max
  {
    var t := TrimEndWhere(TrimEndWhere(TrimStartWhere(s, IsNumberWhite), IsNul), IsNumberWhite);
    if t == [] then None
    else
      var digits := if t[0] == '-' || t[0] == '+' then t[1..] else t;
      if digits == [] || !AllDigits(digits) then None
      else
        var v: int := if t[0] == '-' then -(DigitsValue(digits) as int) else DigitsValue(digits);
        if Int32Min <= v <= Int32Max then Some(v) else None
  }

  function DigitChar(d: nat): (c: char)
    requires d < 10
    ensures IsDigit(c) && DigitValue(c) == d
  {
    ('0' as int + d) as char
  }

  /** The shortest decimal text of `n`, as int.ToString() writes it. */
  function NatToString(n: nat): (r: string)
    ensures r != [] && AllDigits(r)
    decreases n
  {
    if n < 10 then [DigitChar(n)] else NatToString(n / 10) + [DigitChar(n % 10)]
  }

  lemma {:induction false} DigitsValueOfNatToString(n: nat)
    ensures DigitsValue(NatToString(n)) == n
    decreases n
  {
    if n >= 10 {
      var s := NatToString(n);
      assert s[..|s| - 1] == NatToString(n / 10);
      DigitsValueOfNatToString(n / 10);
    }
  }

  /** Round trip: the text of an index parses back to that index. */
  lemma ParseInt32OfNatToString(n: nat)
    requires n <= Int32Max
    ensures ParseInt32(NatToString(n)) == Some(n)
  {
    var s := NatToString(n);
    assert !IsNumberWhite(s[0]) && !IsNumberWhite(s[|s| - 1]);
    assert TrimStartWhere(s, IsNumberWhite) == s;
    assert TrimEndWhere(s, IsNul) == s;
    assert TrimEndWhere(s, IsNumberWhite) == s;
    DigitsValueOfNatToString(n);
  }
}
