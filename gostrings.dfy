/**
 * The parts of Go's `strings` and `strconv` packages the core relies on:
 * `strings.LastIndex`, `strings.Split`, `strings.TrimSpace` and `strconv.Atoi`
 * (for a 64-bit `int`), each with the contract its documentation gives.
 */
module GoStrings {
  import opened Wrappers

  // ---------------------------------------------------------------- searching

  /** The last index below `n` holding `c`, or -1. */
  function LastIndexBelow(s: string, c: char, n: nat): (r: int)
    requires n <= |s|
    ensures -1 <= r < n
    ensures r >= 0 ==> s[r] == c
    ensures forall k :: r < k < n ==> s[k] != c
    decreases n
  {
    if n == 0 then -1
    else if s[n - 1] == c then n - 1
    else LastIndexBelow(s, c, n - 1)
  }

  /** `strings.LastIndex(s, string(c))`: the index of the last `c` in `s`, or -1. */
  function LastIndex(s: string, c: char): (r: int)
    ensures -1 <= r < |s|
    ensures r == -1 <==> c !in s
    ensures r >= 0 ==> s[r] == c && c !in s[r + 1..]
  {
    var r := LastIndexBelow(s, c, |s|);
    if r >= 0 then
      var tail := s[r + 1..];
      assert forall k :: 0 <= k < |tail| ==> tail[k] == s[r + 1 + k];
      r
    else r
  }

  /** The first index from `i` on holding `c`, or -1. */
  function IndexFrom(s: string, c: char, i: nat): (r: int)
    requires i <= |s|
    ensures r == -1 || i <= r < |s|
    ensures r >= 0 ==> s[r] == c
    ensures forall k :: i <= k < |s| && (r == -1 || k < r) ==> s[k] != c
    decreases |s| - i
  {
    if i == |s| then -1
    else if s[i] == c then i
    else IndexFrom(s, c, i + 1)
  }

  /** `strings.Index(s, string(c))`: the index of the first `c` in `s`, or -1. */
  function Index(s: string, c: char): (r: int)
    ensures -1 <= r < |s|
    ensures r == -1 <==> c !in s
    ensures r >= 0 ==> s[r] == c && c !in s[..r]
  {
    IndexFrom(s, c, 0)
  }

  // ---------------------------------------------------------------- splitting

  /** `strings.Join(parts, string(sep))`. */
  function Join(parts: seq<string>, sep: char): string
  {
    if |parts| == 0 then ""
    else if |parts| == 1 then parts[0]
    else parts[0] + [sep] + Join(parts[1..], sep)
  }

  /**
   * `strings.Split(s, string(sep))`: the pieces of `s` between occurrences of `sep`.
   * There is always at least one piece, and no piece contains the separator.
   */
  function Split(s: string, sep: char): (parts: seq<string>)
    ensures |parts| >= 1
    ensures forall k :: 0 <= k < |parts| ==> sep !in parts[k]
    decreases |s|
  {
    var i := Index(s, sep);
    if i == -1 then [s]
    else
      var rest := Split(s[i + 1..], sep);
      var parts := [s[..i]] + rest;
      assert forall k :: 1 <= k < |parts| ==> parts[k] == rest[k - 1];
      parts
  }

  /** Splitting and joining again gives back the original text. */
  lemma {:induction false} JoinSplit(s: string, sep: char)
    ensures Join(Split(s, sep), sep) == s
    decreases |s|
  {
    var i := Index(s, sep);
    if i != -1 {
      var rest := Split(s[i + 1..], sep);
      JoinSplit(s[i + 1..], sep);
      var parts := Split(s, sep);
      assert parts == [s[..i]] + rest;
      assert |parts| > 1 && parts[0] == s[..i] && parts[1..] == rest;
      assert Join(parts, sep) == s[..i] + [sep] + Join(rest, sep);
      assert s == s[..i] + [sep] + s[i + 1..];
    }
  }

  /**
   * The first piece of a split is the text before the first separator,
   * or the whole text when it has none.
   */
  lemma SplitFirst(s: string, sep: char)
    ensures var i := Index(s, sep);
      Split(s, sep)[0] == if i == -1 then s else s[..i]
  {
  }

  // ---------------------------------------------------------------- trimming

  /** The characters `unicode.IsSpace` accepts: Latin-1 spaces and the White_Space characters above it. */
  const SpaceChars: set<char> := {
    '\t', '\n', '\U{000B}', '\U{000C}', '\r', ' ', '\U{0085}', '\U{00A0}', '\U{1680}',
    '\U{2000}', '\U{2001}', '\U{2002}', '\U{2003}', '\U{2004}', '\U{2005}', '\U{2006}',
    '\U{2007}', '\U{2008}', '\U{2009}', '\U{200A}',
    '\U{2028}', '\U{2029}', '\U{202F}', '\U{205F}', '\U{3000}'}

  /** `unicode.IsSpace`. */
  predicate IsSpace(c: char)
  {
    c in SpaceChars
  }

  predicate AllSpace(s: string)
  {
    forall k :: 0 <= k < |s| ==> IsSpace(s[k])
  }

  /** A text with no white space at either end. */
  predicate Trimmed(s: string)
  {
    |s| == 0 || (!IsSpace(s[0]) && !IsSpace(s[|s| - 1]))
  }

  /** The first index from `i` on that is not white space, or `|s|`. */
  function FirstNonSpace(s: string, i: nat): (n: nat)
    requires i <= |s|
    ensures i <= n <= |s|
    ensures forall k :: i <= k < n ==> IsSpace(s[k])
    ensures n < |s| ==> !IsSpace(s[n])
    decreases |s| - i
  {
    if i == |s| || !IsSpace(s[i]) then i else FirstNonSpace(s, i + 1)
  }

  /** The end of `s[..j]` once its trailing white space is dropped. */
  function TrimmedEnd(s: string, j: nat): (n: nat)
    requires j <= |s|
    ensures n <= j
    ensures forall k :: n <= k < j ==> IsSpace(s[k])
    ensures n > 0 ==> !IsSpace(s[n - 1])
    decreases j
  {
    if j == 0 || !IsSpace(s[j - 1]) then j else TrimmedEnd(s, j - 1)
  }

  /**
   * `strings.TrimSpace`: `s` with leading and trailing white space removed.
   * The result is a slice of `s` that is trimmed, and only white space was cut off.
   */
  function TrimSpace(s: string): (r: string)
    ensures Trimmed(r)
    ensures exists i :: 0 <= i <= |s| - |r| && r == s[i..i + |r|] && AllSpace(s[..i]) && AllSpace(s[i + |r|..])
  {
    var a := FirstNonSpace(s, 0);
    var b := if a == |s| then a else TrimmedEnd(s, |s|);
    var r := s[a..b];
    assert AllSpace(s[..a]) by {
      forall k | 0 <= k < a ensures IsSpace(s[..a][k]) {
        assert s[..a][k] == s[k];
      }
    }
    assert AllSpace(s[b..]) by {
      forall k | 0 <= k < |s| - b ensures IsSpace(s[b..][k]) {
        assert s[b..][k] == s[b + k];
      }
    }
    assert |r| > 0 ==> r[0] == s[a] && r[|r| - 1] == s[b - 1];
    r
  }

  /** Trimming removes exactly the white-space margin around a trimmed text. */
  lemma TrimSpacePadded(pre: string, t: string, post: string)
    requires AllSpace(pre) && AllSpace(post) && Trimmed(t)
    ensures TrimSpace(pre + t + post) == t
  {
    var s := pre + t + post;
    forall k | 0 <= k < |pre| ensures IsSpace(s[k]) {
      assert s[k] == pre[k];
    }
    forall k | |pre| + |t| <= k < |s| ensures IsSpace(s[k]) {
      assert s[k] == post[k - |pre| - |t|];
    }
    var a := FirstNonSpace(s, 0);
    if |t| == 0 {
      assert a == |s|;
      assert s[a..a] == t;
    } else {
      assert s[|pre|] == t[0] && s[|pre| + |t| - 1] == t[|t| - 1];
      assert a == |pre|;
      var b := TrimmedEnd(s, |s|);
      assert b == |pre| + |t|;
      assert s[a..b] == t;
    }
  }

  // ---------------------------------------------------------------- integers

  const MinInt64: int := -0x8000_0000_0000_0000
  const MaxInt64: int := 0x7FFF_FFFF_FFFF_FFFF

  /** Fits Go's `int` on a 64-bit platform. */
  predicate IsInt64(n: int)
  {
    MinInt64 <= n <= MaxInt64
  }

  /** Two's-complement wrap-around of a 64-bit `int`. */
  function WrapInt64(x: int): (r: int)
    ensures IsInt64(r)
    ensures (r - x) % 0x1_0000_0000_0000_0000 == 0
    ensures IsInt64(x) ==> r == x
  {
    (x - MinInt64) % 0x1_0000_0000_0000_0000 + MinInt64
  }

  predicate IsDigit(c: char)
  {
    '0' <= c <= '9'
  }

  predicate AllDigits(s: string)
  {
    forall k :: 0 <= k < |s| ==> IsDigit(s[k])
  }

  /** The value of a string of decimal digits, most significant first. */
  function DigitsValue(s: string): nat
    requires AllDigits(s)
  {
    if |s| == 0 then 0
    else DigitsValue(s[..|s| - 1]) * 10 + ((s[|s| - 1] as int) - ('0' as int))
  }

  /**
   * `strconv.Atoi`: an optional `+` or `-` followed by at least one decimal
   * digit, whose value fits a 64-bit `int`; anything else (empty text, spaces,
   * a fraction, an underscore, a value out of range) is an error.
   */
  function Atoi(s: string): (r: Option<int>)
    ensures r.Some? ==> IsInt64(r.value)
    ensures r.Some? ==> |s| > 0 && (IsDigit(s[0]) || s[0] == '+' || s[0] == '-')
  {
    if |s| == 0 then None
    else
      var digits := if s[0] == '+' || s[0] == '-' then s[1..] else s;
      if |digits| == 0 || !AllDigits(digits) then None
      else
        var n: int := DigitsValue(digits);
        var v := if s[0] == '-' then -n else n;
        if IsInt64(v) then Some(v) else None
  }

  /**
   * Every text Atoi accepts is an optional sign, then leading zeros, then the
   * reference formatting of the magnitude of the value returned; a negative
   * value comes only with `-`, and `-` never gives a positive value.
   */
  lemma AtoiAccepts(s: string, v: int)
    requires Atoi(s) == Some(v)
    ensures exists z: nat :: s == SignOf(s) + Zeros(z) + NatToDigits(Abs(v))
    ensures v < 0 ==> SignOf(s) == "-"
    ensures SignOf(s) == "-" ==> v <= 0
  {
    var digits := if s[0] == '+' || s[0] == '-' then s[1..] else s;
    assert s == SignOf(s) + digits;
    AcceptedShape(s, digits, v);
  }

  /** The sign a text starts with: `+`, `-`, or nothing. */
  function SignOf(s: string): (sign: string)
    ensures sign == "" || sign == "+" || sign == "-"
    ensures |sign| <= |s| && sign == s[..|sign|]
  {
    if |s| > 0 && (s[0] == '+' || s[0] == '-') then s[..1] else ""
  }

  function Abs(v: int): nat
  {
    if v < 0 then -v else v
  }

  /** `z` zero digits. */
  function Zeros(z: nat): (r: string)
    ensures |r| == z && forall k :: 0 <= k < z ==> r[k] == '0'
  {
    if z == 0 then "" else "0" + Zeros(z - 1)
  }

  lemma {:induction false} ZerosValue(z: nat)
    ensures AllDigits(Zeros(z)) && DigitsValue(Zeros(z)) == 0
    decreases z
  {
    if z > 0 {
      assert Zeros(z)[..z - 1] == Zeros(z - 1);
      ZerosValue(z - 1);
    }
  }

  /** Leading zeros do not change the value of a decimal. */
  lemma {:induction false} LeadingZerosValue(z: nat, d: string)
    requires AllDigits(d)
    ensures AllDigits(Zeros(z) + d) && DigitsValue(Zeros(z) + d) == DigitsValue(d)
    decreases |d|
  {
    var s := Zeros(z) + d;
    if |d| == 0 {
      assert s == Zeros(z);
      ZerosValue(z);
    } else {
      assert s[..|s| - 1] == Zeros(z) + d[..|d| - 1];
      LeadingZerosValue(z, d[..|d| - 1]);
      assert s[|s| - 1] == d[|d| - 1];
    }
  }

  lemma {:induction false} LeadingDigitPositive(d: string)
    requires AllDigits(d) && |d| > 0 && d[0] != '0'
    ensures DigitsValue(d) > 0
    decreases |d|
  {
    var init := d[..|d| - 1];
    if |d| == 1 {
      assert init == [];
    } else {
      assert init[0] == d[0];
      LeadingDigitPositive(init);
    }
  }

  /** A decimal without leading zeros is the reference formatting of its value. */
  lemma {:induction false} CanonicalDigits(d: string)
    requires AllDigits(d) && |d| > 0 && (d[0] != '0' || |d| == 1)
    ensures NatToDigits(DigitsValue(d)) == d
    decreases |d|
  {
    var last := d[|d| - 1];
    var init := d[..|d| - 1];
    var x := (last as int) - ('0' as int);
    assert DigitChar(x) == last;
    if |d| == 1 {
      assert init == [];
      assert DigitsValue(d) == x;
      assert d == [last];
    } else {
      assert init[0] == d[0];
      LeadingDigitPositive(init);
      CanonicalDigits(init);
      var v := DigitsValue(d);
      assert v == DigitsValue(init) * 10 + x;
      assert v / 10 == DigitsValue(init) && v % 10 == x;
      assert d == init + [last];
    }
  }

  /** Every decimal is some leading zeros followed by the reference formatting of its value. */
  lemma {:induction false} StripLeadingZeros(d: string) returns (z: nat)
    requires AllDigits(d) && |d| > 0
    ensures d == Zeros(z) + NatToDigits(DigitsValue(d))
    decreases |d|
  {
    if d[0] == '0' && |d| > 1 {
      var rest := d[1..];
      var z' := StripLeadingZeros(rest);
      var digits := NatToDigits(DigitsValue(rest));
      assert d == Zeros(1) + rest;
      LeadingZerosValue(1, rest);
      assert DigitsValue(d) == DigitsValue(rest);
      assert Zeros(z' + 1) == "0" + Zeros(z');
      assert d == "0" + (Zeros(z') + digits);
      z := z' + 1;
    } else {
      CanonicalDigits(d);
      z := 0;
      assert d == Zeros(0) + NatToDigits(DigitsValue(d));
    }
  }

  /** A sign followed by a decimal of magnitude `|v|` is the sign, leading zeros and the formatting of `|v|`. */
  lemma AcceptedShape(s: string, digits: string, v: int)
    requires AllDigits(digits) && |digits| > 0
    requires s == SignOf(s) + digits && Abs(v) == DigitsValue(digits)
    ensures exists z: nat :: s == SignOf(s) + Zeros(z) + NatToDigits(Abs(v))
  {
    var z := StripLeadingZeros(digits);
    assert s == SignOf(s) + Zeros(z) + NatToDigits(Abs(v));
  }

  /**
   * The converse of Atoi's contract: an optional sign, any number of leading
   * zeros and the digits of a magnitude parse to the signed value when it fits.
   */
  lemma AtoiOfPadded(sign: string, z: nat, n: nat)
    requires sign == "" || sign == "+" || sign == "-"
    ensures var v := if sign == "-" then 0 - (n as int) else n as int;
      Atoi(sign + Zeros(z) + NatToDigits(n)) == (if IsInt64(v) then Some(v) else None)
  {
    NatToDigitsValue(n);
    AtoiOfPaddedDigits(sign, z, NatToDigits(n), n);
  }

  /** An optional sign, leading zeros and digits worth `n` parse to the signed `n` when it fits. */
  lemma AtoiOfPaddedDigits(sign: string, z: nat, t: string, n: nat)
    requires sign == "" || sign == "+" || sign == "-"
    requires AllDigits(t) && |t| > 0 && DigitsValue(t) == n
    ensures var v := if sign == "-" then 0 - (n as int) else n as int;
      Atoi(sign + Zeros(z) + t) == (if IsInt64(v) then Some(v) else None)
  {
    LeadingZerosValue(z, t);
    ConcatAssociative(sign, Zeros(z), t);
    AtoiOfDigits(sign, Zeros(z) + t, n);
  }

  lemma ConcatAssociative(a: string, b: string, c: string)
    ensures a + b + c == a + (b + c)
  {
  }

  /** An optional sign followed by decimal digits parses to their signed value when it fits. */
  lemma AtoiOfDigits(sign: string, d: string, n: nat)
    requires sign == "" || sign == "+" || sign == "-"
    requires AllDigits(d) && |d| > 0 && DigitsValue(d) == n
    ensures var v := if sign == "-" then 0 - (n as int) else n as int;
      Atoi(sign + d) == (if IsInt64(v) then Some(v) else None)
  {
    if sign == "" {
      assert sign + d == d;
      AtoiOfUnsigned(d);
    } else {
      AtoiOfSigned(sign + d, sign, d);
    }
  }

  /** Decimal digits alone parse to their value when it fits. */
  lemma AtoiOfUnsigned(d: string)
    requires AllDigits(d) && |d| > 0
    ensures Atoi(d) == (if IsInt64(DigitsValue(d)) then Some(DigitsValue(d)) else None)
  {
    assert IsDigit(d[0]);
  }

  /** A sign followed by decimal digits parses to their signed value when it fits. */
  lemma AtoiOfSigned(s: string, sign: string, d: string)
    requires sign == "+" || sign == "-"
    requires AllDigits(d) && |d| > 0
    requires s == sign + d
    ensures var v := if sign == "-" then 0 - DigitsValue(d) else DigitsValue(d);
      Atoi(s) == (if IsInt64(v) then Some(v) else None)
  {
    assert s[0] == sign[0] && s[1..] == d;
  }

  // Reference decimal formatting (`strconv.Itoa`), used to state what Atoi accepts.

  function DigitChar(d: nat): char
    requires d < 10
  {
    (('0' as int) + d) as char
  }

  function NatToDigits(n: nat): string
    decreases n
  {
    if n < 10 then [DigitChar(n)] else NatToDigits(n / 10) + [DigitChar(n % 10)]
  }

  function Itoa(n: int): string
  {
    if n < 0 then "-" + NatToDigits(-n) else NatToDigits(n)
  }

  lemma {:induction false} NatToDigitsValue(n: nat)
    ensures |NatToDigits(n)| > 0 && AllDigits(NatToDigits(n))
    ensures DigitsValue(NatToDigits(n)) == n
    decreases n
  {
    if n >= 10 {
      NatToDigitsValue(n / 10);
      var s := NatToDigits(n);
      assert s[..|s| - 1] == NatToDigits(n / 10);
    }
  }

  /** A decimal parses back to its value exactly when that value fits a 64-bit `int`. */
  lemma AtoiOfItoa(n: int)
    ensures Atoi(Itoa(n)) == if IsInt64(n) then Some(n) else None
  {
    var s := Itoa(n);
    if n < 0 {
      var d := NatToDigits(-n);
      NatToDigitsValue(-n);
      assert s == "-" + d;
      assert s[0] == '-' && s[1..] == d;
    } else {
      NatToDigitsValue(n);
      assert s == NatToDigits(n);
      assert IsDigit(s[0]);
    }
  }

  /** Texts that are not decimals: nothing, a word, a leading space, a fraction, a bare sign. */
  lemma AtoiRejectsNonDecimals()
    ensures Atoi("").None?
    ensures Atoi("abc").None?
    ensures Atoi(" 1").None?
    ensures Atoi("1.5").None?
    ensures Atoi("-").None?
    ensures Atoi("1_000").None?
  {
    assert !IsDigit("abc"[0]);
    assert !IsDigit(" 1"[0]);
    assert !IsDigit("1.5"[1]);
    assert !IsDigit("1_000"[1]);
  }
}
