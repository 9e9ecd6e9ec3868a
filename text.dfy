/** The string operations the pages use: `toLowerCase`, `includes`,
    `toString` of an integer, `parseInt` and `slice(-k)`. */
module Text {
  import opened Wrappers

  /** `toLowerCase` on one character, for the ASCII letters. */
  function LowerChar(c: char): char {
    if 'A' <= c <= 'Z' then (c as int + 32) as char else c
  }

  /** `s.toLowerCase()`, ASCII letters only. */
  function Lower(s: string): (r: string)
    ensures |r| == |s|
    ensures forall i :: 0 <= i < |r| ==> !('A' <= r[i] <= 'Z')
    ensures forall i :: 0 <= i < |r| && !('A' <= s[i] <= 'Z') ==> r[i] == s[i]
    ensures forall i :: 0 <= i < |r| && 'A' <= s[i] <= 'Z' ==> r[i] as int == s[i] as int + 32
  {
    seq(|s|, i requires 0 <= i < |s| => LowerChar(s[i]))
  }

  /** Texts that differ only in the case of ASCII letters lower to the same
      text. */
  lemma LowerIgnoresCase()
    ensures Lower("B") == Lower("b") == "b"
    ensures Lower("Sedan") == Lower("SEDAN") == "sedan"
  {
  }

  /** Lower-casing twice is lower-casing once. */
  lemma LowerIdempotent(s: string)
    ensures Lower(Lower(s)) == Lower(s)
  {
  }

  /** `needle` occurs in `hay` starting at position `i`. */
  ghost predicate OccursAt(hay: string, needle: string, i: int) {
    0 <= i && i + |needle| <= |hay| && hay[i..i + |needle|] == needle
  }

  /** `hay.startsWith(prefix)`. */
  predicate StartsWith(hay: string, prefix: string) {
    |prefix| <= |hay| && hay[..|prefix|] == prefix
  }

  /** `hay.includes(needle)`. */
  predicate Includes(hay: string, needle: string)
    ensures Includes(hay, needle) ==> |needle| <= |hay|
    decreases |hay|
  {
    StartsWith(hay, needle) || (hay != [] && Includes(hay[1..], needle))
  }

  /** `includes` holds exactly when the needle occurs at some position. */
  lemma {:induction false} IncludesIffOccurs(hay: string, needle: string)
    ensures Includes(hay, needle) <==> exists i :: OccursAt(hay, needle, i)
  {
    if StartsWith(hay, needle) {
      assert OccursAt(hay, needle, 0);
    } else if hay == [] {
    } else {
      IncludesIffOccurs(hay[1..], needle);
      if Includes(hay[1..], needle) {
        var i :| OccursAt(hay[1..], needle, i);
        assert hay[1..][i..i + |needle|] == hay[i + 1..i + 1 + |needle|];
        assert OccursAt(hay, needle, i + 1);
      } else {
        forall i | OccursAt(hay, needle, i) ensures OccursAt(hay[1..], needle, i - 1) {
          assert hay[1..][i - 1..i - 1 + |needle|] == hay[i..i + |needle|];
        }
      }
    }
  }

  /** The empty string is included in every string, so an empty search term
      matches everything. */
  lemma IncludesEmpty(hay: string)
    ensures Includes(hay, "")
  {
    assert hay[..0] == "";
  }

  predicate IsDigit(c: char) {
    '0' <= c <= '9'
  }

  function DigitChar(d: nat): (c: char)
    requires d < 10
    ensures IsDigit(c)
  {
    ('0' as int + d) as char
  }

  function DigitValue(c: char): (d: nat)
    requires IsDigit(c)
    ensures d < 10 && DigitChar(d) == c
  {
    c as int - '0' as int
  }

  /** Decimal rendering of a natural number, without leading zeros. */
  function NatToString(n: nat): (s: string)
    ensures |s| >= 1
    ensures forall i :: 0 <= i < |s| ==> IsDigit(s[i])
    ensures s[0] == '0' ==> n == 0
    ensures |s| > 1 ==> s[0] != '0'
  {
    if n < 10 then [DigitChar(n)] else NatToString(n / 10) + [DigitChar(n % 10)]
  }

  /** `String(n)` for an integer `n`. */
  function IntToString(n: int): (s: string)
    ensures |s| >= 1
    ensures s[0] == '-' <==> n < 0
    ensures forall i :: (if n < 0 then 1 else 0) <= i < |s| ==> IsDigit(s[i])
  {
    if n < 0 then "-" + NatToString(-n) else NatToString(n)
  }

  /** How many characters at the front of `s` are digits. */
  function LeadingDigits(s: string): (k: nat)
    ensures k <= |s|
    ensures forall i :: 0 <= i < k ==> IsDigit(s[i])
    ensures k < |s| ==> !IsDigit(s[k])
  {
    if s == [] || !IsDigit(s[0]) then 0 else 1 + LeadingDigits(s[1..])
  }

  /** The value of a string of decimal digits. */
  function DigitsValue(s: string): nat
    requires forall i :: 0 <= i < |s| ==> IsDigit(s[i])
  {
    if s == [] then 0 else DigitsValue(s[..|s| - 1]) * 10 + DigitValue(s[|s| - 1])
  }

  /** The text after an optional leading sign. */
  function Unsigned(s: string): (rest: string)
    ensures |s| > 0 && (s[0] == '-' || s[0] == '+') ==> rest == s[1..]
    ensures !(|s| > 0 && (s[0] == '-' || s[0] == '+')) ==> rest == s
  {
    if |s| > 0 && (s[0] == '-' || s[0] == '+') then s[1..] else s
  }

  /** `parseInt(s)` in base 10: an optional sign and the longest run of
      digits after it; `None` stands for `NaN`. */
  function ParseInt(s: string): (r: Option<int>)
    ensures r.Some? <==> LeadingDigits(Unsigned(s)) > 0
    ensures r.Some? && r.value < 0 ==> s[0] == '-'
    ensures r.Some? ==> (if r.value < 0 then -r.value else r.value) ==
                        DigitsValue(Unsigned(s)[..LeadingDigits(Unsigned(s))])
    ensures r.Some? && |s| > 0 && s[0] == '-' ==>
              r.value == -(DigitsValue(Unsigned(s)[..LeadingDigits(Unsigned(s))]) as int)
    ensures r.Some? && !(|s| > 0 && s[0] == '-') ==>
              r.value == DigitsValue(Unsigned(s)[..LeadingDigits(Unsigned(s))])
  {
    var negative := |s| > 0 && s[0] == '-';
    var rest := Unsigned(s);
    var k := LeadingDigits(rest);
    var magnitude: int := if k == 0 then 0 else DigitsValue(rest[..k]);
    if k == 0 then None
    else if negative then Some(-magnitude)
    else Some(magnitude)
  }

  lemma {:induction false} NatToStringValue(n: nat)
    ensures DigitsValue(NatToString(n)) == n
  {
    if n >= 10 {
      NatToStringValue(n / 10);
      var s := NatToString(n);
      assert s[..|s| - 1] == NatToString(n / 10);
    }
  }

  /** Non-canonical texts: a sign, leading zeros and trailing garbage. */
  lemma ParseIntExamples()
    ensures ParseInt("-07") == Some(-7)
    ensures ParseInt("-7x") == Some(-7)
    ensures ParseInt("+12") == Some(12)
    ensures ParseInt("x7") == None && ParseInt("-") == None && ParseInt("") == None
  {
    assert LeadingDigits(Unsigned("-07")) == 2;
    assert DigitsValue("07") == 7;
    assert LeadingDigits(Unsigned("-7x")) == 1;
    assert DigitsValue("7") == 7;
    assert LeadingDigits(Unsigned("+12")) == 2;
    assert DigitsValue("12") == 12 by { assert "12"[..1] == "1"; }
  }

  /** `parseInt(String(n)) === n`: parsing undoes the decimal rendering. */
  lemma ParseIntOfIntToString(n: int)
    ensures ParseInt(IntToString(n)) == Some(n)
  {
    var digits := NatToString(if n < 0 then -n else n);
    NatToStringValue(if n < 0 then -n else n);
    var rest := if n < 0 then IntToString(n)[1..] else IntToString(n);
    assert rest == digits;
    assert LeadingDigits(digits) == |digits|;
    assert digits[..|digits|] == digits;
  }

  /** `s.slice(-k)`: the last `k` characters, or all of `s` if it is
      shorter; `slice(-0)` is `slice(0)`, the whole string. */
  function LastChars(s: string, k: nat): (r: string)
    ensures k == 0 ==> r == s
    ensures k > 0 ==> |r| == if |s| < k then |s| else k
    ensures r == s[|s| - |r|..]
  {
    if k == 0 || |s| <= k then s else s[|s| - k..]
  }

  function Pow10(k: nat): (p: nat)
    ensures p >= 1
  {
    if k == 0 then 1 else 10 * Pow10(k - 1)
  }

  /** The `k` lowest decimal digits of `n`, zero-padded: `k` digits whose
      value is `n` modulo 10^k. */
  function FixedDigits(n: nat, k: nat): (s: string)
    ensures |s| == k
    ensures forall i :: 0 <= i < k ==> IsDigit(s[i])
    ensures DigitsValue(s) == n % Pow10(k)
  {
    if k == 0 then ""
    else
      var s := FixedDigits(n / 10, k - 1) + [DigitChar(n % 10)];
      assert s[..|s| - 1] == FixedDigits(n / 10, k - 1);
      LowDigits(n, Pow10(k - 1));
      s
  }

  /** The quotient and remainder by `m` are the `a` and `c` of any
      `n == m * a + c` with `0 <= c < m`. */
  lemma ModUnique(n: int, m: int, a: int, c: int)
    requires m > 0 && n == m * a + c && 0 <= c < m
    ensures n / m == a && n % m == c
  {
    var q, r := n / m, n % m;
    assert m * (q - a) == c - r by {
      assert m * q + r == m * a + c;
      assert m * (q - a) == m * q - m * a;
    }
    if q - a >= 1 {
      MulAtLeast(m, q - a);
    } else if a - q >= 1 {
      MulAtLeast(m, a - q);
    }
  }

  lemma MulAtLeast(m: int, d: int)
    requires m > 0 && d >= 1
    ensures m * d >= m
  {
    assert m * d == m * (d - 1) + m;
    assert m * (d - 1) >= 0;
  }

  /** Dropping the last digit, keeping `p` digits of the rest and putting the
      last digit back keeps `n`'s lowest `10p` remainder. */
  lemma LowDigits(n: nat, p: nat)
    requires p >= 1
    ensures (n / 10 % p) * 10 + n % 10 == n % (10 * p)
  {
    var q, r := n / 10, n % 10;
    var a, b := q / p, q % p;
    assert n == 10 * q + r;
    assert q == p * a + b;
    assert n == (10 * p) * a + (10 * b + r);
    ModUnique(n, 10 * p, a, 10 * b + r);
  }

  /** The last `k` characters of the decimal rendering of a number with at
      least `k` digits are its `k` lowest digits. */
  lemma {:induction false} LastCharsOfNatToString(n: nat, k: nat)
    requires k >= 1 && n >= Pow10(k) / 10
    ensures LastChars(NatToString(n), k) == FixedDigits(n, k)
  {
    if n < 10 {
      assert k == 1;
    } else {
      var s := NatToString(n);
      assert s == NatToString(n / 10) + [DigitChar(n % 10)];
      assert FixedDigits(n, k) == FixedDigits(n / 10, k - 1) + [DigitChar(n % 10)];
      if k == 1 {
        assert FixedDigits(n / 10, 0) == "";
      } else {
        assert Pow10(k) / 10 == Pow10(k - 1);
        assert n / 10 >= Pow10(k - 1) / 10;
        LastCharsOfNatToString(n / 10, k - 1);
        NatToStringLength(n / 10, k - 1);
        assert LastChars(s, k) == LastChars(NatToString(n / 10), k - 1) + [DigitChar(n % 10)];
      }
    }
  }

  lemma {:induction false} NatToStringLength(n: nat, k: nat)
    requires k >= 1 && n >= Pow10(k) / 10
    ensures |NatToString(n)| >= k
  {
    if k > 1 {
      assert Pow10(k) / 10 == Pow10(k - 1);
      assert n >= 10;
      NatToStringLength(n / 10, k - 1);
    }
  }
}
