/** The few ECMAScript string operations the relay relies on: `includes`,
    `substring(0, n)`, number-to-text interpolation, and character counting. */
module Strings {

  function Min(a: nat, b: nat): nat { if a <= b then a else b }

  lemma ConcatAssoc(x: string, y: string, z: string)
    ensures (x + y) + z == x + (y + z)
  {
  }

  /** `s.includes(sub)`: `sub` occurs somewhere in `s`, scanning from the left. */
  predicate Includes(s: string, sub: string)
    decreases |s|
  {
    sub <= s || (s != [] && Includes(s[1..], sub))
  }

  /** `Includes` agrees with the textbook definition: some suffix of `s` starts with `sub`. */
  lemma {:induction false} IncludesAt(s: string, sub: string)
    ensures Includes(s, sub) <==> exists i :: 0 <= i <= |s| && sub <= s[i..]
  {
    if s == [] {
      if Includes(s, sub) {
        assert sub <= s[0..];
      }
    } else {
      IncludesAt(s[1..], sub);
      if exists i :: 0 <= i <= |s| && sub <= s[i..] {
        var i :| 0 <= i <= |s| && sub <= s[i..];
        if i > 0 {
          assert s[1..][i - 1..] == s[i..];
        } else {
          assert s[0..] == s;
        }
      }
      if Includes(s[1..], sub) {
        var j :| 0 <= j <= |s[1..]| && sub <= s[1..][j..];
        assert s[1..][j..] == s[j + 1..];
      }
      if sub <= s {
        assert s[0..] == s;
      }
    }
  }

  /** `s.substring(0, n)`: the first `n` characters, or all of `s` when it is shorter. */
  function Take(s: string, n: nat): (r: string)
    ensures |r| == Min(|s|, n)
    ensures r <= s
  {
    if |s| <= n then s else s[..n]
  }

  /** Number of positions of `s` holding one of `chars`. */
  function CountIn(s: string, chars: seq<char>): nat
  {
    if s == [] then 0 else (if s[0] in chars then 1 else 0) + CountIn(s[1..], chars)
  }

  lemma {:induction false} CountInConcat(a: string, b: string, chars: seq<char>)
    ensures CountIn(a + b, chars) == CountIn(a, chars) + CountIn(b, chars)
  {
    if a == [] {
      assert a + b == b;
    } else {
      assert (a + b)[1..] == a[1..] + b;
      CountInConcat(a[1..], b, chars);
    }
  }

  lemma {:induction false} CountInZero(s: string, chars: seq<char>)
    ensures CountIn(s, chars) == 0 <==> forall i :: 0 <= i < |s| ==> s[i] !in chars
  {
    if s != [] {
      CountInZero(s[1..], chars);
      assert forall i :: 1 <= i < |s| ==> s[i] == s[1..][i - 1];
    }
  }

  function Digit(d: nat): char
    requires d < 10
  {
    "0123456789"[d]
  }

  function DigitValue(c: char): nat
  {
    if '0' <= c <= '9' then (c - '0') as nat else 0
  }

  /** `${n}` for a non-negative integer: its decimal digits, most significant first. */
  function NatToDecimal(n: nat): (r: string)
    ensures |r| >= 1
    ensures forall i :: 0 <= i < |r| ==> '0' <= r[i] <= '9'
    ensures |r| > 1 ==> r[0] != '0'
  {
    if n < 10 then [Digit(n)] else NatToDecimal(n / 10) + [Digit(n % 10)]
  }

  /** Reads a string of decimal digits back as a number. */
  function DecimalValue(s: string): nat
  {
    if s == [] then 0 else 10 * DecimalValue(s[..|s| - 1]) + DigitValue(s[|s| - 1])
  }

  /** The digits `NatToDecimal` writes denote the number it was given. */
  lemma {:induction false} DecimalRoundTrip(n: nat)
    ensures DecimalValue(NatToDecimal(n)) == n
  {
    var r := NatToDecimal(n);
    if n < 10 {
      assert r[..0] == [];
    } else {
      DecimalRoundTrip(n / 10);
      assert r[..|r| - 1] == NatToDecimal(n / 10);
    }
  }
}
