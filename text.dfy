/** The JavaScript string built-ins the booking scripts rely on: the `\s` class
    (which is also what `trim` removes), `replace(/…/g, '')` filters,
    `substring(0, n)`, `length` in UTF-16 code units, `indexOf` and `parseInt`. */
module Text {
  import opened Wrappers

  /** WhiteSpace and LineTerminator of ECMAScript: the members of `\s`. */
  predicate IsSpace(c: char) {
    var n := c as int;
    n == 0x09 || n == 0x0A || n == 0x0B || n == 0x0C || n == 0x0D || n == 0x20 || n == 0xA0 ||
    n == 0x1680 || (0x2000 <= n <= 0x200A) || n == 0x2028 || n == 0x2029 || n == 0x202F ||
    n == 0x205F || n == 0x3000 || n == 0xFEFF
  }

  predicate NotSpace(c: char) { !IsSpace(c) }

  /** The class `\d`. */
  predicate IsDigit(c: char) { '0' <= c <= '9' }

  predicate AllDigits(s: string) { forall i | 0 <= i < |s| :: IsDigit(s[i]) }

  predicate IsBlank(s: string) { forall i | 0 <= i < |s| :: IsSpace(s[i]) }

  /** The characters of `s` that `keep` accepts, in their order. */
  function Filter(keep: char -> bool, s: string): (r: string)
    ensures |r| <= |s|
    ensures forall i | 0 <= i < |r| :: keep(r[i])
  {
    if s == [] then [] else (if keep(s[0]) then [s[0]] else []) + Filter(keep, s[1..])
  }

  /** `s.replace(/\D/g, '')` */
  function Digits(s: string): string { Filter(IsDigit, s) }

  /** `s.replace(/\s/g, '')` */
  function RemoveSpace(s: string): string { Filter(NotSpace, s) }

  lemma {:induction false} FilterAppend(keep: char -> bool, a: string, b: string)
    ensures Filter(keep, a + b) == Filter(keep, a) + Filter(keep, b)
  {
    if a == [] {
      assert a + b == b;
    } else {
      assert (a + b)[0] == a[0];
      assert (a + b)[1..] == a[1..] + b;
      FilterAppend(keep, a[1..], b);
    }
  }

  /** Filtering a string whose every character is kept gives the string back. */
  lemma {:induction false} FilterKeepsAll(keep: char -> bool, s: string)
    requires forall i | 0 <= i < |s| :: keep(s[i])
    ensures Filter(keep, s) == s
  {
    if s != [] {
      FilterKeepsAll(keep, s[1..]);
    }
  }

  /** Filtering a string none of whose characters is kept gives the empty string. */
  lemma {:induction false} FilterDropsAll(keep: char -> bool, s: string)
    requires forall i | 0 <= i < |s| :: !keep(s[i])
    ensures Filter(keep, s) == []
  {
    if s != [] {
      FilterDropsAll(keep, s[1..]);
    }
  }

  lemma FilterIdempotent(keep: char -> bool, s: string)
    ensures Filter(keep, Filter(keep, s)) == Filter(keep, s)
  {
    FilterKeepsAll(keep, Filter(keep, s));
  }

  lemma DigitsOfDigits(s: string)
    requires AllDigits(s)
    ensures Digits(s) == s
  {
    FilterKeepsAll(IsDigit, s);
  }

  /** `s.substring(0, n)` */
  function Take(s: string, n: nat): (r: string)
    ensures |r| == if |s| <= n then |s| else n
    ensures r == s[..|r|]
  {
    if |s| <= n then s else s[..n]
  }

  /** `s.trimStart()`: drops the leading run of `\s` characters. */
  function TrimStart(s: string): (r: string)
    ensures r == [] || !IsSpace(r[0])
  {
    if s != [] && IsSpace(s[0]) then TrimStart(s[1..]) else s
  }

  /** `s.trimEnd()`: drops the trailing run of `\s` characters. */
  function TrimEnd(s: string): (r: string)
    ensures r == [] || !IsSpace(r[|r| - 1])
  {
    if s != [] && IsSpace(s[|s| - 1]) then TrimEnd(s[..|s| - 1]) else s
  }

  /** `s.trim()` */
  function Trim(s: string): string { TrimEnd(TrimStart(s)) }

  lemma {:induction false} TrimStartBlank(s: string)
    ensures TrimStart(s) == [] <==> IsBlank(s)
  {
    if s != [] && IsSpace(s[0]) {
      TrimStartBlank(s[1..]);
      assert IsBlank(s[1..]) ==> IsBlank(s) by {
        if IsBlank(s[1..]) {
          forall i | 0 <= i < |s| ensures IsSpace(s[i]) {
            if i > 0 { assert s[i] == s[1..][i - 1]; }
          }
        }
      }
    }
  }

  lemma {:induction false} TrimEndBlank(s: string)
    ensures TrimEnd(s) == [] <==> IsBlank(s)
  {
    if s != [] && IsSpace(s[|s| - 1]) {
      var t := s[..|s| - 1];
      TrimEndBlank(t);
      assert IsBlank(t) ==> IsBlank(s) by {
        if IsBlank(t) {
          forall i | 0 <= i < |s| ensures IsSpace(s[i]) {
            if i < |s| - 1 { assert s[i] == t[i]; }
          }
        }
      }
    }
  }

  /** A value is falsy after `trim()` exactly when it is made of `\s` characters only. */
  lemma TrimBlank(s: string)
    ensures Trim(s) == [] <==> IsBlank(s)
  {
    TrimStartBlank(s);
    TrimEndBlank(TrimStart(s));
  }

  /** `s.length`: JavaScript counts UTF-16 code units, two for a character outside the Basic Multilingual Plane. */
  function Utf16Length(s: string): (n: nat)
    ensures |s| <= n <= 2 * |s|
  {
    if s == [] then 0 else (if s[0] as int >= 0x10000 then 2 else 1) + Utf16Length(s[1..])
  }

  lemma {:induction false} Utf16LengthOfDigits(s: string)
    requires AllDigits(s)
    ensures Utf16Length(s) == |s|
  {
    if s != [] {
      Utf16LengthOfDigits(s[1..]);
    }
  }

  /** `s.indexOf(c)`, with `|s|` in place of -1. */
  function IndexOf(s: string, c: char): (k: nat)
    ensures k <= |s|
    ensures k < |s| ==> s[k] == c
    ensures forall i | 0 <= i < k :: s[i] != c
  {
    if s == [] then 0 else if s[0] == c then 0 else 1 + IndexOf(s[1..], c)
  }

  /** `indexOf` finds the first occurrence. */
  lemma IndexOfAt(s: string, c: char, k: nat)
    requires k <= |s|
    requires k < |s| ==> s[k] == c
    requires forall i | 0 <= i < k :: s[i] != c
    ensures IndexOf(s, c) == k
  {
  }

  /** The value of a digit in bases up to 36 (`0`-`9`, then `a`-`z` in either case); 36 for any other character. */
  function DigitValue(c: char): (v: nat)
    ensures v <= 36
  {
    if '0' <= c <= '9' then c as int - '0' as int
    else if 'a' <= c <= 'z' then c as int - 'a' as int + 10
    else if 'A' <= c <= 'Z' then c as int - 'A' as int + 10
    else 36
  }

  /** The length of the longest prefix of `s` made of digits of the given radix. */
  function DigitRun(s: string, radix: nat): (n: nat)
    ensures n <= |s|
    ensures forall i | 0 <= i < n :: DigitValue(s[i]) < radix
    ensures n < |s| ==> DigitValue(s[n]) >= radix
  {
    if s != [] && DigitValue(s[0]) < radix then 1 + DigitRun(s[1..], radix) else 0
  }

  /** The number a digit string denotes, most significant digit first. */
  function ValueOf(d: string, radix: nat): nat {
    if d == [] then 0 else ValueOf(d[..|d| - 1], radix) * radix + DigitValue(d[|d| - 1])
  }

  /** `parseInt(s)` with no radix: skip leading `\s`, take an optional sign, switch
      to base 16 after `0x` or `0X`, then read the longest run of digits;
      `None` (NaN) when that run is empty. */
  function ParseInt(s: string): Option<int> {
    var t := TrimStart(s);
    var negative := t != [] && t[0] == '-';
    var u := if t != [] && (t[0] == '-' || t[0] == '+') then t[1..] else t;
    var hex := |u| >= 2 && u[0] == '0' && (u[1] == 'x' || u[1] == 'X');
    var radix := if hex then 16 else 10;
    var w := if hex then u[2..] else u;
    var n := DigitRun(w, radix);
    if n == 0 then None
    else
      var v: int := ValueOf(w[..n], radix);
      Some(if negative then -v else v)
  }

  lemma {:induction false} DigitRunAll(d: string)
    requires AllDigits(d)
    ensures DigitRun(d, 10) == |d|
  {
    if d != [] {
      DigitRunAll(d[1..]);
    }
  }

  /** A non-empty string of decimal digits parses to the number it spells. */
  lemma ParseIntDecimal(d: string)
    requires d != [] && AllDigits(d)
    ensures ParseInt(d) == Some(ValueOf(d, 10) as int)
  {
    assert TrimStart(d) == d;
    DigitRunAll(d);
    assert d[..|d|] == d;
  }

  /** A string with no digit at all (after leading whitespace and sign) parses to NaN. */
  lemma ParseIntNoDigits(s: string)
    requires s != [] && !IsSpace(s[0]) && s[0] != '-' && s[0] != '+' && DigitValue(s[0]) >= 10
    ensures ParseInt(s) == None
  {
  }
}
