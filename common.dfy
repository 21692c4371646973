/** Values and string operations of the JavaScript runtime that the client relies on:
    optional values (`null`/`undefined`), thrown exceptions, `String.prototype.split`
    on one character, `String.prototype.includes` and the decimal rendering of a number
    in a template string. */
module Common {

  /** `null` or `undefined` (None) versus a present value. */
  datatype Option<+T> = None | Some(value: T)

  /** What a `throw` carries. `SyntaxError` is what `JSON.parse` throws on malformed text and
      `TypeError` what reading a property of `undefined` throws; their engine-specific
      messages are not modelled. */
  datatype Exception = Error(message: string) | SyntaxError | TypeError

  /** A promise that resolves to a value or rejects with an exception. */
  datatype Result<+T> = Ok(value: T) | Fail(error: Exception)

  /** JavaScript truthiness of an optional string: `null`, `undefined` and "" are falsy. */
  predicate Truthy(s: Option<string>) {
    s.Some? && s.value != ""
  }

  /** `a || b` where `a` is an optional string. */
  function OrElse(a: Option<string>, b: string): string {
    if Truthy(a) then a.value else b
  }

  /** Looks up a key of a map the way `URLSearchParams.get` does: absent keys give `null`. */
  function Get(m: map<string, string>, key: string): Option<string> {
    if key in m then Some(m[key]) else None
  }

  // ---------------------------------------------------------------------------
  // Splitting on one character

  /** Number of occurrences of `c` in `s`. */
  function Count(s: string, c: char): nat {
    if s == [] then 0 else (if s[0] == c then 1 else 0) + Count(s[1..], c)
  }

  /** Glues the parts back together with `c` between neighbours (`Array.prototype.join`). */
  function Join(parts: seq<string>, c: char): string
    requires |parts| >= 1
  {
    if |parts| == 1 then parts[0] else parts[0] + [c] + Join(parts[1..], c)
  }

  /** `s.split(c)` for a one-character separator: the maximal pieces between occurrences of `c`,
      so there is one piece more than there are separators, no piece contains `c`, and joining
      the pieces with `c` gives `s` back. The first piece is the part of `s` before its first `c`. */
  function Split(s: string, c: char): (parts: seq<string>)
    ensures |parts| == Count(s, c) + 1
    ensures forall i :: 0 <= i < |parts| ==> c !in parts[i]
    ensures Join(parts, c) == s
    ensures parts[0] <= s
    ensures |parts[0]| < |s| ==> s[|parts[0]|] == c
    ensures |parts[0]| == |s| <==> c !in s
  {
    if s == [] then [""]
    else if s[0] == c then
      var rest := Split(s[1..], c);
      assert s == [c] + s[1..];
      [""] + rest
    else
      var rest := Split(s[1..], c);
      var parts := [[s[0]] + rest[0]] + rest[1..];
      assert s == [s[0]] + s[1..];
      assert forall i :: 1 <= i < |parts| ==> parts[i] == rest[i];
      assert Join(parts, c) == s by {
        if |rest| == 1 {
        } else {
          assert parts[1..] == rest[1..];
        }
      }
      parts
  }

  // ---------------------------------------------------------------------------
  // Substring search

  /** `s.includes(w)`: `w` occurs in `s` at some position (the empty string occurs everywhere). */
  predicate Contains(s: string, w: string)
    decreases |s|
  {
    |w| <= |s| && (s[..|w|] == w || Contains(s[1..], w))
  }

  lemma {:induction false} ContainsTail(s: string, w: string)
    requires |s| > 0 && Contains(s[1..], w)
    ensures Contains(s, w)
  {
  }

  /** An occurrence in `a` is an occurrence in `a + b`. */
  lemma {:induction false} ContainsInLeft(a: string, b: string, w: string)
    requires Contains(a, w)
    ensures Contains(a + b, w)
    decreases |a|
  {
    assert (a + b)[..|w|] == a[..|w|];
    if a[..|w|] != w {
      ContainsInLeft(a[1..], b, w);
      assert (a + b)[1..] == a[1..] + b;
    }
  }

  /** An occurrence in `b` is an occurrence in `a + b`. */
  lemma {:induction false} ContainsInRight(a: string, b: string, w: string)
    requires Contains(b, w)
    ensures Contains(a + b, w)
    decreases |a|
  {
    if a == [] {
      assert a + b == b;
    } else {
      ContainsInRight(a[1..], b, w);
      assert (a + b)[1..] == a[1..] + b;
    }
  }

  predicate IsDigit(c: char) {
    '0' <= c <= '9'
  }

  predicate AllDigits(s: string) {
    forall i :: 0 <= i < |s| ==> IsDigit(s[i])
  }

  predicate HasNoDigit(s: string) {
    forall i :: 0 <= i < |s| ==> !IsDigit(s[i])
  }

  /** A run of digits can only occur across the seam of `a + b` when digits meet at the seam. */
  predicate DigitSeam(a: string, b: string) {
    |a| > 0 && |b| > 0 && IsDigit(a[|a| - 1]) && IsDigit(b[0])
  }

  /** An occurrence of a run of digits at the front of `a + b` that is longer than `a`
      puts digits on both sides of the seam. */
  lemma StraddlingRunMeetsSeam(a: string, b: string, w: string)
    requires AllDigits(w) && 0 < |a| < |w| <= |a + b| && (a + b)[..|w|] == w
    ensures DigitSeam(a, b)
  {
    assert a[|a| - 1] == w[|a| - 1] && b[0] == w[|a|];
  }

  /** Where no digits meet at the seam, a non-empty run of digits occurs in `a + b` exactly when
      it occurs in `a` or in `b`. */
  lemma {:induction false} ContainsDigitsAcrossSeam(a: string, b: string, w: string)
    requires |w| > 0 && AllDigits(w) && !DigitSeam(a, b)
    ensures Contains(a + b, w) <==> Contains(a, w) || Contains(b, w)
    decreases |a|
  {
    if Contains(a, w) {
      ContainsInLeft(a, b, w);
    }
    if Contains(b, w) {
      ContainsInRight(a, b, w);
    }
    if Contains(a + b, w) && a != [] {
      if (a + b)[..|w|] == w {
        if |w| <= |a| {
          assert a[..|w|] == (a + b)[..|w|];
        } else {
          StraddlingRunMeetsSeam(a, b, w);
          assert false;
        }
      } else {
        assert (a + b)[1..] == a[1..] + b;
        ContainsDigitsAcrossSeam(a[1..], b, w);
        if Contains(a[1..], w) {
          ContainsTail(a, w);
        }
      }
    } else if Contains(a + b, w) {
      assert a + b == b;
    }
  }

  /** A string without digits contains no non-empty run of digits. */
  lemma {:induction false} NoDigitNoDigitRun(s: string, w: string)
    requires |w| > 0 && AllDigits(w) && HasNoDigit(s)
    ensures !Contains(s, w)
    decreases |s|
  {
    if |w| <= |s| {
      assert s[..|w|][0] == s[0];
      NoDigitNoDigitRun(s[1..], w);
    }
  }

  // ---------------------------------------------------------------------------
  // Decimal rendering of a number, as in `${n}`

  function DigitChar(d: nat): char
    requires d < 10
  {
    ['0', '1', '2', '3', '4', '5', '6', '7', '8', '9'][d]
  }

  function DigitValue(c: char): nat
    requires IsDigit(c)
  {
    (c as int - '0' as int) as nat
  }

  /** The shortest decimal numeral of `n`. */
  function DecimalString(n: nat): (r: string)
    ensures |r| >= 1 && AllDigits(r)
    ensures n < 10 <==> |r| == 1
    ensures 10 <= n < 100 ==> |r| == 2
    ensures 100 <= n < 1000 ==> |r| == 3
  {
    if n < 10 then [DigitChar(n)] else DecimalString(n / 10) + [DigitChar(n % 10)]
  }

  /** The number a string of digits denotes (`Number(s)` on a numeral). */
  function DecimalValue(s: string): nat
    requires AllDigits(s)
  {
    if s == [] then 0 else DecimalValue(s[..|s| - 1]) * 10 + DigitValue(s[|s| - 1])
  }

  /** Reading back a rendered number gives the number. */
  lemma {:induction false} DecimalRoundTrip(n: nat)
    ensures DecimalValue(DecimalString(n)) == n
  {
    if n >= 10 {
      DecimalRoundTrip(n / 10);
      var d := DecimalString(n);
      assert d[..|d| - 1] == DecimalString(n / 10);
    }
  }

  /** A number below 1000 mentions "504" in decimal only when it is 504. */
  lemma DecimalMentions504(n: nat)
    requires n < 1000
    ensures Contains(DecimalString(n), "504") <==> n == 504
  {
    var d := DecimalString(n);
    if n == 504 {
      assert DecimalString(5) == "5";
      assert DecimalString(50) == "50";
      assert d == "504";
      assert d[..3] == "504";
    }
    if Contains(d, "504") {
      assert |d| == 3 && d[..3] == d;
      DecimalRoundTrip(n);
      assert "504"[..2] == "50" && "50"[..1] == "5" && "5"[..0] == "";
      assert DecimalValue("504") == 504;
    }
  }
}
