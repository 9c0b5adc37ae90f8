/** The few pieces of Go's `strings` and `strconv` packages that the adapters
    depend on, restricted to what they are used for: substring search,
    upper-casing (ASCII letters only), decimal formatting of integers and
    formatting of booleans. */
module Strs {

  // ---------------------------------------------------------------------
  // strings.Contains
  // ---------------------------------------------------------------------

  /** `sub` occurs in `s` starting at index `i`. */
  predicate OccursAt(s: string, sub: string, i: nat)
  {
    i + |sub| <= |s| && s[i..i + |sub|] == sub
  }

  /** strings.Contains(s, sub): scans `s` from the left. */
  function Contains(s: string, sub: string): bool
    decreases |s|
  {
    if |s| < |sub| then false
    else if s[..|sub|] == sub then true
    else Contains(s[1..], sub)
  }

  /** The scan finds `sub` exactly when `sub` occurs somewhere in `s`. */
  lemma {:induction false} ContainsIff(s: string, sub: string)
    ensures Contains(s, sub) <==> exists i: nat :: OccursAt(s, sub, i)
    decreases |s|
  {
    if |s| < |sub| {
      forall i: nat ensures !OccursAt(s, sub, i) { }
    } else if s[..|sub|] == sub {
      assert OccursAt(s, sub, 0);
    } else {
      ContainsIff(s[1..], sub);
      if Contains(s, sub) {
        var j: nat :| OccursAt(s[1..], sub, j);
        assert s[1..][j..j + |sub|] == s[j + 1..j + 1 + |sub|];
        assert OccursAt(s, sub, j + 1);
      } else {
        forall i: nat | OccursAt(s, sub, i) ensures false {
          if i > 0 {
            assert s[1..][i - 1..i - 1 + |sub|] == s[i..i + |sub|];
            assert OccursAt(s[1..], sub, i - 1);
          }
        }
      }
    }
  }

  // ---------------------------------------------------------------------
  // strings.ToUpper, ASCII letters only
  // ---------------------------------------------------------------------

  predicate IsAsciiLower(c: char)
  {
    'a' <= c <= 'z'
  }

  predicate IsAsciiUpper(c: char)
  {
    'A' <= c <= 'Z'
  }

  /** unicode.ToUpper restricted to ASCII: 'a'..'z' map to 'A'..'Z', every
      other character is left as it is. */
  function UpperChar(c: char): char
  {
    if IsAsciiLower(c) then (c as int - 32) as char else c
  }

  /** strings.ToUpper: upper-cases every character, keeping length and position. */
  function ToUpper(s: string): (r: string)
    ensures |r| == |s|
    ensures forall i :: 0 <= i < |s| ==> r[i] == UpperChar(s[i])
  {
    if s == [] then [] else [UpperChar(s[0])] + ToUpper(s[1..])
  }

  /** `c` is the upper-case letter `u` written in either case. */
  predicate SameLetterIgnoringCase(c: char, u: char)
    requires IsAsciiUpper(u)
  {
    c == u || c as int == u as int + 32
  }

  /** Upper-casing `s` gives the all-upper-case word `t` exactly when `s`
      spells `t` letter by letter in any mixture of cases. */
  lemma ToUpperEqualsIff(s: string, t: string)
    requires forall k :: 0 <= k < |t| ==> IsAsciiUpper(t[k])
    ensures ToUpper(s) == t <==>
              |s| == |t| && forall k :: 0 <= k < |s| ==> SameLetterIgnoringCase(s[k], t[k])
  {
    if ToUpper(s) == t {
      forall k | 0 <= k < |s| ensures SameLetterIgnoringCase(s[k], t[k]) {
        assert UpperChar(s[k]) == t[k];
      }
    }
    if |s| == |t| && forall k :: 0 <= k < |s| ==> SameLetterIgnoringCase(s[k], t[k]) {
      forall k | 0 <= k < |s| ensures ToUpper(s)[k] == t[k] {
        assert SameLetterIgnoringCase(s[k], t[k]);
      }
    }
  }

  // ---------------------------------------------------------------------
  // strconv.Itoa
  // ---------------------------------------------------------------------

  predicate IsDigit(c: char)
  {
    '0' <= c <= '9'
  }

  predicate AllDigits(s: string)
  {
    forall k :: 0 <= k < |s| ==> IsDigit(s[k])
  }

  function DigitChar(d: nat): (c: char)
    requires d < 10
    ensures IsDigit(c)
  {
    ('0' as int + d) as char
  }

  function DigitValue(c: char): nat
    requires IsDigit(c)
  {
    c as int - '0' as int
  }

  /** Decimal digits of a natural number, most significant first, no leading zero. */
  function NatToDecimal(n: nat): (r: string)
    ensures |r| >= 1 && AllDigits(r)
    ensures |r| > 1 ==> r[0] != '0'
  {
    if n < 10 then [DigitChar(n)] else NatToDecimal(n / 10) + [DigitChar(n % 10)]
  }

  /** strconv.Itoa: base-10 text with a leading '-' for negative numbers. */
  function Itoa(n: int): string
  {
    if n < 0 then "-" + NatToDecimal(-n) else NatToDecimal(n)
  }

  /** Reads back a non-empty run of decimal digits. */
  function DecimalToNat(s: string): nat
    requires |s| >= 1 && AllDigits(s)
  {
    if |s| == 1 then DigitValue(s[0])
    else DecimalToNat(s[..|s| - 1]) * 10 + DigitValue(s[|s| - 1])
  }

  /** Reads back what Itoa writes: an optional '-' followed by digits. */
  function ParseInt(s: string): int
    requires (|s| >= 1 && AllDigits(s)) || (|s| >= 2 && s[0] == '-' && AllDigits(s[1..]))
  {
    if s[0] == '-' then -(DecimalToNat(s[1..]) as int) else DecimalToNat(s)
  }

  lemma {:induction false} NatToDecimalRoundTrip(n: nat)
    ensures DecimalToNat(NatToDecimal(n)) == n
  {
    if n >= 10 {
      var prefix := NatToDecimal(n / 10);
      var r := NatToDecimal(n);
      assert r == prefix + [DigitChar(n % 10)];
      assert r[..|r| - 1] == prefix;
      NatToDecimalRoundTrip(n / 10);
    }
  }

  /** Itoa loses nothing: ParseInt recovers the number. */
  lemma ItoaRoundTrip(n: int)
    ensures var s := Itoa(n);
      ((|s| >= 1 && AllDigits(s)) || (|s| >= 2 && s[0] == '-' && AllDigits(s[1..])))
      && ParseInt(s) == n
  {
    if n < 0 {
      NatToDecimalRoundTrip(-n);
      assert Itoa(n)[1..] == NatToDecimal(-n);
    } else {
      NatToDecimalRoundTrip(n);
    }
  }

  /** Distinct integers are written as distinct strings. */
  lemma ItoaInjective(m: int, n: int)
    requires m != n
    ensures Itoa(m) != Itoa(n)
  {
    ItoaRoundTrip(m);
    ItoaRoundTrip(n);
  }

  // ---------------------------------------------------------------------
  // strconv.FormatBool
  // ---------------------------------------------------------------------

  function FormatBool(b: bool): (r: string)
    ensures r == "true" <==> b
    ensures r == "false" <==> !b
  {
    if b then "true" else "false"
  }
}
