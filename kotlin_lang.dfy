/**
 * The few pieces of the Kotlin standard library the client's decisions depend on:
 * nullable values, the 32- and 64-bit integer ranges, decimal rendering
 * (`Int.toString`, `Long.toString`, string templates), decimal parsing
 * (`String.toIntOrNull`, `String.toLongOrNull`), `String.isBlank` and
 * `String.length` (which counts UTF-16 code units).
 */
module KotlinLang {

  /** A Kotlin nullable value `T?`: `None` is `null`. */
  datatype Option<+T> = None | Some(value: T)
  {
    /** `this?.let(f)`: applies `f` to a present value, keeps `null`. */
    function Map<U>(f: T -> U): (r: Option<U>)
      ensures r.Some? <==> this.Some?
      ensures r.Some? ==> r.value == f(this.value)
    {
      match this
      case None => None
      case Some(v) => Some(f(v))
    }

    /** `this?.let(f)` with a nullable `f`: `null` when either step gives `null`. */
    function FlatMap<U>(f: T -> Option<U>): (r: Option<U>)
      ensures r.Some? ==> this.Some? && f(this.value) == r
      ensures this.Some? ==> r == f(this.value)
    {
      match this
      case None => None
      case Some(v) => f(v)
    }
  }

  /**
   * The outcome of Kotlin `require(cond) { message }` checks: the value built
   * after every check held, or the `IllegalArgumentException` of the first
   * check that failed.
   */
  datatype Checked<+T> = Passed(value: T) | IllegalArgument(message: string)

  const INT_MIN: int := -0x8000_0000
  const INT_MAX: int := 0x7FFF_FFFF
  const LONG_MIN: int := -0x8000_0000_0000_0000
  const LONG_MAX: int := 0x7FFF_FFFF_FFFF_FFFF

  /** Kotlin `Int`. */
  type Int32 = x: int | -0x8000_0000 <= x <= 0x7FFF_FFFF
  /** Kotlin `Long`. */
  type Int64 = x: int | -0x8000_0000_0000_0000 <= x <= 0x7FFF_FFFF_FFFF_FFFF

  // ---------------------------------------------------------------------------
  // Decimal digits

  predicate IsDigit(c: char) { '0' <= c <= '9' }

  predicate AllDigits(s: string) { forall i :: 0 <= i < |s| ==> IsDigit(s[i]) }

  function DigitChar(d: nat): (c: char)
    requires d < 10
    ensures IsDigit(c) && c as int - '0' as int == d
  {
    ('0' as int + d) as char
  }

  function DigitValue(c: char): (d: nat)
    requires IsDigit(c)
    ensures d < 10 && DigitChar(d) == c
  {
    c as int - '0' as int
  }

  /** The number a non-empty run of decimal digits denotes (leading zeros allowed). */
  function DigitsValue(s: string): nat
    requires AllDigits(s)
  {
    if s == [] then 0 else DigitsValue(s[..|s| - 1]) * 10 + DigitValue(s[|s| - 1])
  }

  /** The shortest decimal digits of `n`: no leading zero unless `n` is 0. */
  function NatToDigits(n: nat): (s: string)
    ensures |s| >= 1 && AllDigits(s)
    ensures s[0] == '0' <==> n == 0
  {
    if n < 10 then [DigitChar(n)] else NatToDigits(n / 10) + [DigitChar(n % 10)]
  }

  /**
   * `Int.toString()` / `Long.toString()` / `"$n"`: the shortest decimal
   * rendering, a minus sign for negatives, then the digits of the magnitude
   * with no leading zero.
   */
  function IntToString(n: int): (s: string)
    ensures |s| >= 1
    ensures n < 0 <==> s[0] == '-'
    ensures forall i :: 0 <= i < |s| ==> IsDigit(s[i]) || (i == 0 && s[i] == '-')
    ensures s[0] == '-' ==> |s| >= 2 && s[1] != '0' && AllDigits(s[1..]) && DigitsValue(s[1..]) == -n
    ensures s[0] != '-' ==> (|s| > 1 ==> s[0] != '0') && AllDigits(s) && DigitsValue(s) == n
    ensures CanonicalDecimal(s)
  {
    if n < 0 then
      DigitsRoundTrip(-n);
      assert ("-" + NatToDigits(-n))[1..] == NatToDigits(-n);
      "-" + NatToDigits(-n)
    else
      DigitsRoundTrip(n);
      NatToDigits(n)
  }

  lemma {:induction false} DigitsRoundTrip(n: nat)
    ensures DigitsValue(NatToDigits(n)) == n
  {
    if n >= 10 {
      var s := NatToDigits(n);
      assert s[..|s| - 1] == NatToDigits(n / 10);
      DigitsRoundTrip(n / 10);
    }
  }

  /** A decimal written the way `toString` writes one: an optional minus, then digits without a leading zero. */
  predicate CanonicalDecimal(s: string)
  {
    |s| >= 1 &&
    if s[0] == '-' then |s| >= 2 && s[1] != '0' && AllDigits(s[1..])
    else AllDigits(s) && (|s| > 1 ==> s[0] != '0')
  }

  lemma {:induction false} CanonicalDigitsUnique(s: string)
    requires |s| >= 1 && AllDigits(s) && (|s| > 1 ==> s[0] != '0')
    ensures s == NatToDigits(DigitsValue(s))
  {
    if |s| > 1 {
      var t := s[..|s| - 1];
      CanonicalDigitsUnique(t);
      var v := DigitsValue(s);
      assert v / 10 == DigitsValue(t) && v % 10 == DigitValue(s[|s| - 1]);
      assert s == t + [s[|s| - 1]];
    }
  }

  /**
   * `toString` is the only canonical rendering: a canonical decimal that
   * parses to `n` is `IntToString(n)`.
   */
  lemma IntToStringUnique(s: string, n: int, lo: int, hi: int)
    requires CanonicalDecimal(s) && ParseSigned(s, lo, hi) == Some(n)
    ensures s == IntToString(n)
  {
    if s[0] == '-' {
      CanonicalDigitsUnique(s[1..]);
      assert s == "-" + s[1..];
    } else {
      CanonicalDigitsUnique(s);
    }
  }

  /** Different numbers render differently. */
  lemma IntToStringInjective(a: int, b: int)
    requires IntToString(a) == IntToString(b)
    ensures a == b
  {
    IntToStringRoundTrip(a, a, a);
    IntToStringRoundTrip(b, b, b);
  }

  // ---------------------------------------------------------------------------
  // Parsing, as `String.toIntOrNull()` / `String.toLongOrNull()` (radix 10)

  /**
   * Kotlin's signed decimal parse with the range `lo..hi` of the target type:
   * an optional leading '+' or '-', then at least one digit, and nothing else;
   * `null` for the empty string, a lone sign, any other character, or a value
   * outside the range.
   */
  function ParseSigned(s: string, lo: int, hi: int): (r: Option<int>)
    ensures r.Some? ==> lo <= r.value <= hi
    ensures |s| == 0 ==> r.None?
    ensures r.Some? ==> forall i :: 0 < i < |s| ==> IsDigit(s[i])
    ensures r.Some? ==> IsDigit(s[0]) || (|s| > 1 && (s[0] == '-' || s[0] == '+'))
  {
    if |s| == 0 then None
    else if s[0] == '-' || s[0] == '+' then
      if |s| == 1 || !AllDigits(s[1..]) then None
      else
        var magnitude: int := DigitsValue(s[1..]);
        var v: int := if s[0] == '-' then -magnitude else magnitude;
        if lo <= v <= hi then Some(v) else None
    else if AllDigits(s) then
      var v := DigitsValue(s);
      if lo <= v <= hi then Some(v) else None
    else None
  }

  function ToIntOrNull(s: string): (r: Option<Int32>)
    ensures r.Some? <==> ParseSigned(s, INT_MIN, INT_MAX).Some?
    ensures r.Some? ==> r.value == ParseSigned(s, INT_MIN, INT_MAX).value
  {
    match ParseSigned(s, INT_MIN, INT_MAX)
    case None => None
    case Some(v) => Some(v)
  }

  function ToLongOrNull(s: string): (r: Option<Int64>)
    ensures r.Some? <==> ParseSigned(s, LONG_MIN, LONG_MAX).Some?
    ensures r.Some? ==> r.value == ParseSigned(s, LONG_MIN, LONG_MAX).value
  {
    match ParseSigned(s, LONG_MIN, LONG_MAX)
    case None => None
    case Some(v) => Some(v)
  }

  /** Rendering then parsing gives the number back exactly when it is in range. */
  lemma IntToStringRoundTrip(n: int, lo: int, hi: int)
    ensures ParseSigned(IntToString(n), lo, hi) == if lo <= n <= hi then Some(n) else None
  {
    var s := IntToString(n);
    if n < 0 {
      DigitsRoundTrip(-n);
      assert s[1..] == NatToDigits(-n);
    } else {
      DigitsRoundTrip(n);
    }
  }

  lemma IntRoundTrip(n: Int32)
    ensures ToIntOrNull(IntToString(n)) == Some(n)
  {
    IntToStringRoundTrip(n, INT_MIN, INT_MAX);
  }

  lemma LongRoundTrip(n: Int64)
    ensures ToLongOrNull(IntToString(n)) == Some(n)
  {
    IntToStringRoundTrip(n, LONG_MIN, LONG_MAX);
  }

  /** A number beyond `Int.MAX_VALUE` that fits a `Long` parses as a `Long` but not as an `Int`. */
  lemma IntOverflowIsNull(n: int)
    requires INT_MAX < n <= LONG_MAX
    ensures ToIntOrNull(IntToString(n)) == None
    ensures ToLongOrNull(IntToString(n)) == Some(n)
  {
    IntToStringRoundTrip(n, INT_MIN, INT_MAX);
    IntToStringRoundTrip(n, LONG_MIN, LONG_MAX);
  }

  /** The edge cases of the accepted syntax. */
  lemma ParseSyntaxExamples()
    ensures ToIntOrNull("60") == Some(60)
    ensures ToIntOrNull("+7") == Some(7)
    ensures ToIntOrNull("007") == Some(7)
    ensures ToIntOrNull("-") == None && ToIntOrNull("+") == None
    ensures ToIntOrNull("") == None
    ensures ToIntOrNull(" 60") == None && ToIntOrNull("6a") == None
  {
    assert "60"[..1] == "6" && "6"[..0] == "";
    assert DigitsValue("6") == 6;
    assert DigitsValue("60") == 60;
    assert DigitsValue("7") == 7 by { assert "7"[..0] == ""; }
    assert "+7"[1..] == "7";
    assert "007"[..2] == "00" && "00"[..1] == "0" && "0"[..0] == "";
    assert DigitsValue("007") == 7;
    assert !IsDigit(" 60"[0]);
    assert !IsDigit("6a"[1]);
  }

  // ---------------------------------------------------------------------------
  // Characters and strings

  /** `p + x == p + y` only when `x == y`. */
  lemma PrefixCancels(p: string, x: string, y: string)
    requires p + x == p + y
    ensures x == y
  {
    assert x == (p + x)[|p|..];
    assert y == (p + y)[|p|..];
  }

  /**
   * `Char.isWhitespace()` on the JVM: `Character.isWhitespace` or
   * `Character.isSpaceChar` (tab..carriage return, the four information
   * separators, the Unicode space separators and the line/paragraph separators).
   */
  predicate IsWhitespace(c: char)
  {
    var k := c as int;
    (0x09 <= k <= 0x0D) || (0x1C <= k <= 0x20) || k == 0xA0 || k == 0x1680
    || (0x2000 <= k <= 0x200A) || k == 0x2028 || k == 0x2029 || k == 0x202F
    || k == 0x205F || k == 0x3000
  }

  /** `String.isBlank()`: empty, or whitespace only, checked from the first character on. */
  predicate IsBlank(s: string)
  {
    |s| == 0 || (IsWhitespace(s[0]) && IsBlank(s[1..]))
  }

  /** A string is blank exactly when every character is whitespace. */
  lemma {:induction false} IsBlankAllWhitespace(s: string)
    ensures IsBlank(s) <==> forall i :: 0 <= i < |s| ==> IsWhitespace(s[i])
  {
    if |s| > 0 {
      IsBlankAllWhitespace(s[1..]);
      assert forall i :: 1 <= i < |s| ==> s[i] == s[1..][i - 1];
    }
  }

  /** `String.length`: UTF-16 code units, two for a character beyond U+FFFF. */
  function Utf16Length(s: string): nat
  {
    if s == [] then 0 else Utf16Length(s[..|s| - 1]) + (if s[|s| - 1] as int > 0xFFFF then 2 else 1)
  }

  /** Every character takes one or two UTF-16 units. */
  lemma {:induction false} Utf16LengthBounds(s: string)
    ensures |s| <= Utf16Length(s) <= 2 * |s|
    ensures (forall i :: 0 <= i < |s| ==> s[i] as int <= 0xFFFF) ==> Utf16Length(s) == |s|
    ensures (forall i :: 0 <= i < |s| ==> s[i] as int > 0xFFFF) ==> Utf16Length(s) == 2 * |s|
  {
    if s != [] {
      Utf16LengthBounds(s[..|s| - 1]);
    }
  }

  lemma {:induction false} Utf16LengthAppend(s: string, t: string)
    ensures Utf16Length(s + t) == Utf16Length(s) + Utf16Length(t)
  {
    if t != [] {
      assert (s + t)[..|s + t| - 1] == s + t[..|t| - 1];
      Utf16LengthAppend(s, t[..|t| - 1]);
    } else {
      assert s + t == s;
    }
  }
  // ---------------------------------------------------------------------------
  // Collections

  /** `Iterable.mapNotNull(f)`: the present results of `f`, in order. */
  function MapNotNull<A, B>(s: seq<A>, f: A -> Option<B>): seq<B>
  {
    if s == [] then []
    else (if f(s[0]).Some? then [f(s[0]).value] else []) + MapNotNull(s[1..], f)
  }

  /** How many elements `f` maps to `null`. */
  function CountNull<A, B>(s: seq<A>, f: A -> Option<B>): nat
  {
    if s == [] then 0 else (if f(s[0]).None? then 1 else 0) + CountNull(s[1..], f)
  }

  /** Every element is either kept or counted as dropped. */
  lemma {:induction false} MapNotNullLength<A, B>(s: seq<A>, f: A -> Option<B>)
    ensures |MapNotNull(s, f)| + CountNull(s, f) == |s|
  {
    if s != [] {
      MapNotNullLength(s[1..], f);
    }
  }

  /** `mapNotNull` distributes over concatenation, so it keeps the input order. */
  lemma {:induction false} MapNotNullAppend<A, B>(s: seq<A>, t: seq<A>, f: A -> Option<B>)
    ensures MapNotNull(s + t, f) == MapNotNull(s, f) + MapNotNull(t, f)
  {
    if s == [] {
      assert s + t == t;
    } else {
      assert (s + t)[1..] == s[1..] + t;
      MapNotNullAppend(s[1..], t, f);
    }
  }

  /** A value is in the result exactly when some element maps to it. */
  lemma {:induction false} MapNotNullMembership<A, B>(s: seq<A>, f: A -> Option<B>, y: B)
    ensures y in MapNotNull(s, f) <==> exists i :: 0 <= i < |s| && f(s[i]) == Some(y)
  {
    if s != [] {
      MapNotNullMembership(s[1..], f, y);
      if exists i :: 0 <= i < |s[1..]| && f(s[1..][i]) == Some(y) {
        var i :| 0 <= i < |s[1..]| && f(s[1..][i]) == Some(y);
        assert f(s[i + 1]) == Some(y);
      }
      if exists i :: 0 <= i < |s| && f(s[i]) == Some(y) {
        var i :| 0 <= i < |s| && f(s[i]) == Some(y);
        if i > 0 {
          assert f(s[1..][i - 1]) == Some(y);
        }
      }
    }
  }

  /** When nothing maps to `null`, `mapNotNull` is an element-wise map. */
  lemma {:induction false} MapNotNullTotal<A, B>(s: seq<A>, f: A -> Option<B>)
    requires forall i :: 0 <= i < |s| ==> f(s[i]).Some?
    ensures |MapNotNull(s, f)| == |s|
    ensures forall i :: 0 <= i < |s| ==> MapNotNull(s, f)[i] == f(s[i]).value
  {
    if s != [] {
      assert forall i :: 0 <= i < |s[1..]| ==> f(s[1..][i]).Some? by {
        forall i | 0 <= i < |s[1..]| ensures f(s[1..][i]).Some? {
          assert s[1..][i] == s[i + 1];
        }
      }
      MapNotNullTotal(s[1..], f);
    }
  }
}
