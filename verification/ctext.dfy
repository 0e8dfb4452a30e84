/** Text and integer conventions of C that the plugin relies on without
    spelling them out: truncating division, conversion to an unsigned
    64-bit value, decimal formatting by printf (`%zu`, `PRIu64`), `strstr`
    and NUL-terminated buffers. */
module CText {

  datatype Option<+T> = None | Some(value: T)

  const U32Modulus: int := 0x1_0000_0000
  const U64Modulus: int := 0x1_0000_0000_0000_0000

  function Min(a: int, b: int): int { if a <= b then a else b }

  /** C's `/` on signed integers: the quotient is truncated toward zero
      (Dafny's own `/` is Euclidean and differs for negative dividends). */
  function CDiv(a: int, b: int): (q: int)
    requires b > 0
    ensures 0 <= a ==> 0 <= q * b <= a < q * b + b
    ensures a < 0 ==> q * b - b < a <= q * b <= 0
  {
    if a >= 0 then
      DivBounds(a, b);
      a / b
    else
      var m := (-a) / b;
      DivBounds(-a, b);
      NegTimes(m, b);
      -m
  }

  lemma DivBounds(n: nat, b: int)
    requires b > 0
    ensures 0 <= (n / b) * b <= n < (n / b) * b + b
  {
    assert n == (n / b) * b + n % b;
  }

  lemma NegTimes(m: int, b: int)
    ensures (-m) * b == -(m * b)
  {
  }

  /** The conversion `(uint64_t)x` of a signed value: reduction modulo 2^64. */
  function U64(x: int): (r: nat)
    ensures r < U64Modulus
    ensures 0 <= x < U64Modulus ==> r == x
    ensures (r - x) % U64Modulus == 0
  {
    x % U64Modulus
  }

  predicate IsDigit(c: char) { '0' <= c <= '9' }

  predicate AllDigits(s: string) {
    forall i :: 0 <= i < |s| ==> IsDigit(s[i])
  }

  function DigitChar(d: nat): (c: char)
    requires d < 10
    ensures IsDigit(c) && c as int - '0' as int == d
  {
    ('0' as int + d) as char
  }

  /** The decimal text printf produces for an unsigned value. */
  function Decimal(n: nat): (s: string)
    ensures |s| >= 1 && AllDigits(s)
    ensures s[0] == '0' <==> n == 0
    decreases n
  {
    if n < 10 then [DigitChar(n)] else Decimal(n / 10) + [DigitChar(n % 10)]
  }

  function DigitsValue(s: string): nat
    requires AllDigits(s)
  {
    if s == [] then 0
    else DigitsValue(s[..|s| - 1]) * 10 + (s[|s| - 1] as int - '0' as int)
  }

  /** A reader of unsigned decimal numerals, as a receiver of the text would use. */
  function ParseDecimal(s: string): Option<nat> {
    if s != [] && AllDigits(s) then Some(DigitsValue(s)) else None
  }

  lemma {:induction false} DecimalRoundTrip(n: nat)
    ensures ParseDecimal(Decimal(n)) == Some(n)
    decreases n
  {
    if n >= 10 {
      DecimalRoundTrip(n / 10);
      var s := Decimal(n);
      assert s[..|s| - 1] == Decimal(n / 10);
      assert s[|s| - 1] == DigitChar(n % 10);
      assert DigitsValue(s) == (n / 10) * 10 + n % 10;
    }
  }

  predicate StartsWith(s: string, p: string) {
    |p| <= |s| && s[..|p|] == p
  }

  /** `p` occurs in `s` starting at index `i`. */
  predicate Occurs(s: string, p: string, i: int) {
    0 <= i && i + |p| <= |s| && s[i..i + |p|] == p
  }

  /** `strstr(s, p) != NULL` for a NUL-free `s`. */
  predicate Contains(s: string, p: string)
    decreases |s|
  {
    |p| <= |s| && (s[..|p|] == p || Contains(s[1..], p))
  }

  lemma {:induction false} ContainsIff(s: string, p: string)
    ensures Contains(s, p) <==> exists i :: Occurs(s, p, i)
    decreases |s|
  {
    if |p| == 0 {
      assert Occurs(s, p, 0);
    } else if |p| <= |s| {
      ContainsIff(s[1..], p);
      if Contains(s, p) {
        if s[..|p|] == p {
          assert Occurs(s, p, 0);
        } else {
          var j :| Occurs(s[1..], p, j);
          assert s[1..][j..j + |p|] == s[j + 1..j + 1 + |p|];
          assert Occurs(s, p, j + 1);
        }
      } else {
        forall i | Occurs(s, p, i) ensures false {
          if i != 0 {
            assert s[1..][i - 1..i - 1 + |p|] == s[i..i + |p|];
            assert Occurs(s[1..], p, i - 1);
          }
        }
      }
    }
  }

  /** The string a C routine sees in a buffer: everything before the first NUL. */
  function CString(b: seq<char>): (s: seq<char>)
    ensures s <= b
    ensures forall i :: 0 <= i < |s| ==> s[i] != '\0'
    ensures |s| < |b| ==> b[|s|] == '\0'
  {
    if b == [] || b[0] == '\0' then [] else [b[0]] + CString(b[1..])
  }
}
