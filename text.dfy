/**
 * Text helpers shared by the model: the whitespace trimming, ASCII case
 * mapping, splitting and joining, and signed 32-bit integer parsing that the
 * Rust standard library performs for the source (`str::trim`,
 * `str::to_lowercase`, `str::split`, `slice::join`, `str::parse::<i32>`).
 */
module Text {
  import opened Wrappers

  const I32Min: int := -0x8000_0000
  const I32Max: int := 0x7FFF_FFFF

  /**
   * An `i32` result as a release build computes it: the exact value taken
   * modulo 2^32 into the `i32` range, so one step past either end wraps to
   * the other.
   */
  function Wrap32(n: int): (r: int)
    ensures I32Min <= r <= I32Max
    ensures (n - r) % 0x1_0000_0000 == 0
    ensures I32Min <= n <= I32Max ==> r == n
    ensures I32Min - 0x1_0000_0000 <= n < I32Min ==> r == n + 0x1_0000_0000
    ensures I32Max < n <= I32Max + 0x1_0000_0000 ==> r == n - 0x1_0000_0000
  {
    (n - I32Min) % 0x1_0000_0000 + I32Min
  }

  /** Rust's fixed-width integer types used by the source. */
  type U8 = x: int | 0 <= x < 0x100
  type U32 = x: int | 0 <= x < 0x1_0000_0000
  type I64 = x: int | -0x8000_0000_0000_0000 <= x < 0x8000_0000_0000_0000

  /** Rust's `char::is_whitespace`: the Unicode White_Space property. */
  predicate IsWhitespace(c: char) {
    var n := c as int;
    (0x09 <= n <= 0x0D) || n == 0x20 || n == 0x85 || n == 0xA0 || n == 0x1680
    || (0x2000 <= n <= 0x200A) || n == 0x2028 || n == 0x2029 || n == 0x202F
    || n == 0x205F || n == 0x3000
  }

  predicate AllWhitespace(s: string) {
    forall i :: 0 <= i < |s| ==> IsWhitespace(s[i])
  }

  /** True of a string that `str::trim` leaves as it is. */
  predicate IsTrimmed(s: string) {
    s == [] || (!IsWhitespace(s[0]) && !IsWhitespace(s[|s| - 1]))
  }

  /** The first position at or after `i` that does not hold whitespace, or `|s|`. */
  function SkipForward(s: string, i: nat): (j: nat)
    requires i <= |s|
    ensures i <= j <= |s|
    ensures forall k :: i <= k < j ==> IsWhitespace(s[k])
    ensures j < |s| ==> !IsWhitespace(s[j])
    decreases |s| - i
  {
    if i < |s| && IsWhitespace(s[i]) then SkipForward(s, i + 1) else i
  }

  /** The end of `s[lo..j]` once its trailing whitespace is dropped. */
  function SkipBackward(s: string, lo: nat, j: nat): (i: nat)
    requires lo <= j <= |s|
    ensures lo <= i <= j
    ensures forall k :: i <= k < j ==> IsWhitespace(s[k])
    ensures i > lo ==> !IsWhitespace(s[i - 1])
    decreases j
  {
    if j > lo && IsWhitespace(s[j - 1]) then SkipBackward(s, lo, j - 1) else j
  }

  /**
   * `str::trim`: the string without leading and trailing whitespace, that
   * is, the slice between the first and after the last character that is not
   * whitespace.
   */
  function Trim(s: string): (r: string)
    ensures IsTrimmed(r)
  {
    var a := SkipForward(s, 0);
    s[a..SkipBackward(s, a, |s|)]
  }

  /** `SkipForward` stops at the first non-whitespace position. */
  lemma {:induction false} SkipForwardAt(s: string, i: nat, j: nat)
    requires i <= j <= |s|
    requires forall k :: i <= k < j ==> IsWhitespace(s[k])
    requires j < |s| ==> !IsWhitespace(s[j])
    ensures SkipForward(s, i) == j
    decreases j - i
  {
    if i < j {
      SkipForwardAt(s, i + 1, j);
    }
  }

  /** `SkipBackward` stops after the last non-whitespace position. */
  lemma {:induction false} SkipBackwardAt(s: string, lo: nat, i: nat, j: nat)
    requires lo <= i <= j <= |s|
    requires forall k :: i <= k < j ==> IsWhitespace(s[k])
    requires i > lo ==> !IsWhitespace(s[i - 1])
    ensures SkipBackward(s, lo, j) == i
    decreases j
  {
    if i < j {
      SkipBackwardAt(s, lo, i, j - 1);
    }
  }

  /** Trimming a trimmed string wrapped in whitespace gives that string back. */
  lemma TrimPadded(pre: string, s: string, post: string)
    requires AllWhitespace(pre) && AllWhitespace(post) && IsTrimmed(s)
    ensures Trim(pre + s + post) == s
  {
    var t := pre + s + post;
    var m, n := |pre|, |pre| + |s|;
    assert forall k :: 0 <= k < m ==> t[k] == pre[k];
    assert forall k :: n <= k < |t| ==> t[k] == post[k - n];
    assert t[m..n] == s;
    if s == [] {
      SkipForwardAt(t, 0, |t|);
    } else {
      assert t[m] == s[0] && t[n - 1] == s[|s| - 1];
      SkipForwardAt(t, 0, m);
      SkipBackwardAt(t, m, n, |t|);
    }
  }

  /** Trimming is idempotent. */
  lemma TrimIdempotent(s: string)
    ensures Trim(Trim(s)) == Trim(s)
  {
    TrimPadded([], Trim(s), []);
    assert [] + Trim(s) + [] == Trim(s);
  }

  function LowerChar(c: char): char {
    if 'A' <= c <= 'Z' then (c as int + 32) as char else c
  }

  function UpperChar(c: char): char {
    if 'a' <= c <= 'z' then (c as int - 32) as char else c
  }

  /** `str::to_lowercase` on ASCII letters. */
  function ToLower(s: string): string {
    seq(|s|, i requires 0 <= i < |s| => LowerChar(s[i]))
  }

  /** `str::to_uppercase` on ASCII letters. */
  function ToUpper(s: string): string {
    seq(|s|, i requires 0 <= i < |s| => UpperChar(s[i]))
  }

  /** A string without lower-case letters is its own upper case. */
  lemma UpperFixed(s: string)
    requires forall i :: 0 <= i < |s| ==> !('a' <= s[i] <= 'z')
    ensures ToUpper(s) == s
  {
  }

  /** A string without upper-case letters is its own lower case. */
  lemma LowerFixed(s: string)
    requires forall i :: 0 <= i < |s| ==> !('A' <= s[i] <= 'Z')
    ensures ToLower(s) == s
  {
  }

  /** Two strings that differ only in letter case upper-case alike. */
  lemma UpperOfLower(s: string)
    ensures ToUpper(ToLower(s)) == ToUpper(s)
  {
    forall i | 0 <= i < |s| ensures ToUpper(ToLower(s))[i] == ToUpper(s)[i] {
      assert UpperChar(LowerChar(s[i])) == UpperChar(s[i]);
    }
  }

  lemma LowerOfUpper(s: string)
    ensures ToLower(ToUpper(s)) == ToLower(s)
  {
    forall i | 0 <= i < |s| ensures ToLower(ToUpper(s))[i] == ToLower(s)[i] {
      assert LowerChar(UpperChar(s[i])) == LowerChar(s[i]);
    }
  }

  /** `str::split` on a single character: the pieces between separators. */
  function Split(s: string, c: char): (parts: seq<string>)
    ensures |parts| >= 1
    ensures forall k :: 0 <= k < |parts| ==> c !in parts[k]
    decreases |s|
  {
    if |s| == 0 then [""]
    else
      var rest := Split(s[1..], c);
      if s[0] == c then [""] + rest else [[s[0]] + rest[0]] + rest[1..]
  }

  /** `slice::join`: the parts with `sep` between neighbours. */
  function Join(parts: seq<string>, sep: string): string {
    if |parts| == 0 then ""
    else if |parts| == 1 then parts[0]
    else parts[0] + sep + Join(parts[1..], sep)
  }

  /** Joining the pieces of a split with the separator restores the string. */
  lemma {:induction false} JoinSplit(s: string, c: char)
    ensures Join(Split(s, c), [c]) == s
    decreases |s|
  {
    if |s| > 0 {
      var rest := Split(s[1..], c);
      JoinSplit(s[1..], c);
      if s[0] == c {
        assert s == [c] + s[1..];
      } else {
        assert s == [s[0]] + s[1..];
        if |rest| > 1 {
          assert ([s[0]] + rest[0]) + [c] + Join(rest[1..], [c])
              == [s[0]] + (rest[0] + [c] + Join(rest[1..], [c]));
          assert ([[s[0]] + rest[0]] + rest[1..])[1..] == rest[1..];
        }
      }
    }
  }

  /** A piece without the separator splits into itself. */
  lemma {:induction false} SplitWithout(s: string, c: char)
    requires c !in s
    ensures Split(s, c) == [s]
    decreases |s|
  {
    if |s| > 0 {
      assert s[0] != c;
      SplitWithout(s[1..], c);
      assert [s[0]] + s[1..] == s;
    }
  }

  /** Splitting after one separator-free prefix and a separator. */
  lemma {:induction false} SplitAfter(a: string, c: char, b: string)
    requires c !in a
    ensures Split(a + [c] + b, c) == [a] + Split(b, c)
    decreases |a|
  {
    if a == [] {
      assert [] + [c] + b == [c] + b;
      assert ([c] + b)[1..] == b;
    } else {
      var s := a + [c] + b;
      assert s[0] == a[0] && a[0] != c;
      assert s[1..] == a[1..] + [c] + b;
      SplitAfter(a[1..], c, b);
      assert [a[0]] + a[1..] == a;
    }
  }

  /** Splitting the join of separator-free pieces gives the pieces back. */
  lemma {:induction false} SplitJoin(parts: seq<string>, c: char)
    requires |parts| >= 1
    requires forall k :: 0 <= k < |parts| ==> c !in parts[k]
    ensures Split(Join(parts, [c]), c) == parts
  {
    if |parts| == 1 {
      SplitWithout(parts[0], c);
    } else {
      SplitJoin(parts[1..], c);
      SplitAfter(parts[0], c, Join(parts[1..], [c]));
      assert [parts[0]] + parts[1..] == parts;
    }
  }

  predicate IsDigit(c: char) { '0' <= c <= '9' }

  predicate AllDigits(s: string) {
    forall i :: 0 <= i < |s| ==> IsDigit(s[i])
  }

  /** The value of a string of decimal digits. */
  function DigitsValue(s: string): (n: nat)
    requires AllDigits(s)
  {
    if |s| == 0 then 0
    else DigitsValue(s[..|s| - 1]) * 10 + (s[|s| - 1] as int - '0' as int)
  }

  /** The decimal digits of a natural number, without leading zeros. */
  function NatToString(n: nat): (s: string)
    ensures |s| >= 1 && AllDigits(s)
  {
    if n < 10 then [('0' as int + n) as char]
    else NatToString(n / 10) + [('0' as int + n % 10) as char]
  }

  /** Reading the decimal digits of `n` gives `n`. */
  lemma {:induction false} DigitsOfNat(n: nat)
    ensures DigitsValue(NatToString(n)) == n
  {
    if n >= 10 {
      var s := NatToString(n);
      assert s[..|s| - 1] == NatToString(n / 10);
      DigitsOfNat(n / 10);
    }
  }

  /** The decimal rendering of an integer: optional minus sign and digits without leading zeros. */
  function IntToString(n: int): string {
    if n < 0 then "-" + NatToString(-n) else NatToString(n)
  }

  /** An optional `+` or `-`, then one or more decimal digits: their signed value. */
  function ParseInteger(s: string): (r: Option<int>)
    ensures r.Some? ==> |s| >= 1 && (IsDigit(s[0]) || s[0] == '-' || s[0] == '+')
    ensures r.Some? ==> IsDigit(s[|s| - 1])
  {
    if |s| == 0 then None
    else
      var digits := if s[0] == '-' || s[0] == '+' then s[1..] else s;
      if |digits| == 0 || !AllDigits(digits) then None
      else
        var v: int := DigitsValue(digits);
        Some(if s[0] == '-' then -v else v)
  }

  /** A string with whitespace at either end is no integer. */
  lemma UntrimmedIsNoInteger(s: string)
    requires !IsTrimmed(s)
    ensures ParseInteger(s).None?
  {
  }

  /** `str::parse::<i32>`: a signed decimal integer in the `i32` range; anything else is an error. */
  function ParseI32(s: string): (r: Option<int>)
    ensures r.Some? ==> I32Min <= r.value <= I32Max && ParseInteger(s) == r
    ensures ParseInteger(s).Some? && I32Min <= ParseInteger(s).value <= I32Max ==> r == ParseInteger(s)
  {
    match ParseInteger(s)
    case Some(n) => if I32Min <= n <= I32Max then Some(n) else None
    case None => None
  }

  /** The rendering of a number starts with a digit or `-`, ends with a digit, and so is trimmed. */
  lemma RenderedIntIsTrimmed(n: int)
    ensures IsTrimmed(IntToString(n))
  {
    var s := IntToString(n);
    var d := NatToString(if n < 0 then -n else n);
    assert s[|s| - 1] == d[|d| - 1];
  }

  /** Parsing the rendering of any integer gives that integer back. */
  lemma ParseRenderInteger(n: int)
    ensures ParseInteger(IntToString(n)) == Some(n)
  {
    var s := IntToString(n);
    if n < 0 {
      var d := NatToString(-n);
      DigitsOfNat(-n);
      assert s[0] == '-' && s[1..] == d;
    } else {
      var d := NatToString(n);
      DigitsOfNat(n);
      assert s == d && IsDigit(s[0]);
    }
  }
}
