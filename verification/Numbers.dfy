/** Number representations that cross the backend: big-endian bytes, bigint shifts, and decimal or hex strings. */
module Numbers {
  import opened Wrappers

  type Byte = x: int | 0 <= x < 256
  type Bytes = seq<Byte>
  type Bytes32 = b: Bytes | |b| == 32 witness seq(32, _ => 0)
  type Address = b: Bytes | |b| == 20 witness seq(20, _ => 0)

  function Pow(b: nat, e: nat): (p: nat)
    ensures b > 0 ==> p > 0
  {
    if e == 0 then 1 else b * Pow(b, e - 1)
  }

  lemma {:induction false} PowAdd(b: nat, m: nat, n: nat)
    ensures Pow(b, m + n) == Pow(b, m) * Pow(b, n)
  {
    if m == 0 {
    } else {
      PowAdd(b, m - 1, n);
      assert Pow(b, m + n) == b * Pow(b, m - 1 + n);
      assert b * (Pow(b, m - 1) * Pow(b, n)) == (b * Pow(b, m - 1)) * Pow(b, n);
    }
  }

  // ----- big-endian bytes

  /** The low `size` bytes of `n`, most significant byte first. */
  function ToBytes(n: nat, size: nat): (b: Bytes)
    ensures |b| == size
  {
    if size == 0 then [] else ToBytes(n / 256, size - 1) + [n % 256]
  }

  function FromBytes(b: Bytes): nat
  {
    if b == [] then 0 else FromBytes(b[..|b| - 1]) * 256 + b[|b| - 1]
  }

  lemma {:induction false} FromToBytes(n: nat, size: nat)
    requires n < Pow(256, size)
    ensures FromBytes(ToBytes(n, size)) == n
  {
    if size == 0 {
    } else {
      assert Pow(256, size) == 256 * Pow(256, size - 1);
      FromToBytes(n / 256, size - 1);
      var b := ToBytes(n, size);
      assert b[..|b| - 1] == ToBytes(n / 256, size - 1);
    }
  }

  lemma {:induction false} ToFromBytes(b: Bytes)
    ensures ToBytes(FromBytes(b), |b|) == b
    ensures FromBytes(b) < Pow(256, |b|)
  {
    if b == [] {
    } else {
      var front := b[..|b| - 1];
      ToFromBytes(front);
      assert FromBytes(b) / 256 == FromBytes(front) && FromBytes(b) % 256 == b[|b| - 1];
      assert b == front + [b[|b| - 1]];
      assert Pow(256, |b|) == 256 * Pow(256, |front|);
    }
  }

  /** Bytes of a two-part number are the bytes of its parts. */
  lemma {:induction false} ToBytesSplit(high: nat, low: nat, m: nat, n: nat)
    requires low < Pow(256, n)
    ensures ToBytes(high * Pow(256, n) + low, m + n) == ToBytes(high, m) + ToBytes(low, n)
  {
    if n == 0 {
      assert ToBytes(low, 0) == [];
    } else {
      var p := Pow(256, n - 1);
      assert Pow(256, n) == 256 * p;
      var whole := high * Pow(256, n) + low;
      assert whole == 256 * (high * p + low / 256) + low % 256 by {
        assert high * (256 * p) == 256 * (high * p);
      }
      assert whole / 256 == high * p + low / 256 && whole % 256 == low % 256;
      ToBytesSplit(high, low / 256, m, n - 1);
      assert ToBytes(whole, m + n) == ToBytes(high * p + low / 256, m + n - 1) + [low % 256];
    }
  }

  /** Byte `i` of the big-endian form is the digit of weight 256^(size - 1 - i). */
  lemma {:induction false} ByteAt(n: nat, size: nat, i: nat)
    requires i < size
    ensures Pow(256, size - 1 - i) > 0
    ensures ToBytes(n, size)[i] == n / Pow(256, size - 1 - i) % 256
  {
    if i < size - 1 {
      ByteAt(n / 256, size - 1, i);
      var p := Pow(256, size - 2 - i);
      DivideTwice(n, p);
    } else {
      assert Pow(256, 0) == 1;
    }
  }

  lemma DivideTwice(n: nat, p: nat)
    requires p > 0
    ensures n / 256 / p == n / (256 * p)
  {
    var q, rest := n / 256 / p, n / 256 % p;
    assert n / 256 == q * p + rest;
    assert n == q * (256 * p) + (256 * rest + n % 256) by {
      assert 256 * (q * p) == q * (256 * p);
    }
    QuotientIs(n, 256 * p, q, 256 * rest + n % 256);
  }

  lemma QuotientIs(n: nat, m: nat, q: nat, rest: nat)
    requires n == q * m + rest && rest < m
    ensures n / m == q
  {
    var k := n / m;
    assert n == k * m + n % m;
    NextMultiple(q, k, m);
    NextMultiple(k, q, m);
  }

  lemma NextMultiple(a: nat, b: nat, m: nat)
    ensures a < b ==> a * m + m <= b * m
  {
    if a < b {
      var d := b - a - 1;
      assert b * m == (a + 1 + d) * m == a * m + m + d * m;
      assert 0 <= d * m;
    }
  }

  // ----- bigint shift and or

  const UINT48_MAX: nat := 0xFFFF_FFFF_FFFF
  const UINT128_MAX: nat := 0xFFFF_FFFF_FFFF_FFFF_FFFF_FFFF_FFFF_FFFF
  const UINT256_MAX: nat := 0xFFFF_FFFF_FFFF_FFFF_FFFF_FFFF_FFFF_FFFF_FFFF_FFFF_FFFF_FFFF_FFFF_FFFF_FFFF_FFFF

  /** `n << 128n` */
  function Shl128(n: nat): nat {
    n * (UINT128_MAX + 1)
  }

  /** Bitwise or of two non-negative bigints. */
  function BitOr(a: nat, b: nat): nat {
    if a == 0 then b
    else if b == 0 then a
    else 2 * BitOr(a / 2, b / 2) + (if a % 2 == 1 || b % 2 == 1 then 1 else 0)
  }

  /** `(high << bits) | low` is addition when `low` fits under the shift. */
  lemma {:induction false} ShiftOrIsSum(high: nat, low: nat, bits: nat)
    requires low < Pow(2, bits)
    ensures BitOr(high * Pow(2, bits), low) == high * Pow(2, bits) + low
  {
    if bits == 0 || high == 0 {
    } else {
      var p := Pow(2, bits - 1);
      assert Pow(2, bits) == 2 * p;
      ShiftOrIsSum(high, low / 2, bits - 1);
      hide Pow, BitOr;
      Doubled(high, p);
      OrStep(high * p, low);
    }
  }

  lemma Doubled(high: nat, p: nat)
    requires high > 0 && p > 0
    ensures high * (2 * p) == 2 * (high * p) && high * p > 0
  {
  }

  lemma OrStep(x: nat, low: nat)
    requires x > 0
    ensures BitOr(2 * x, low) == 2 * BitOr(x, low / 2) + low % 2
  {
  }

  lemma {:induction false} Pow256(k: nat)
    ensures Pow(256, k) == Pow(2, 8 * k)
  {
    if k == 0 {
    } else {
      Pow256(k - 1);
      PowAdd(2, 8, 8 * (k - 1));
      assert Pow(2, 8) == 256;
      assert 8 + 8 * (k - 1) == 8 * k;
    }
  }

  lemma TwoBytes()
    ensures Pow(256, 2) == 0x1_0000
  {
  }

  /** 6, 16 and 32 bytes hold exactly the uint48s, uint128s and uint256s. */
  lemma Widths()
    ensures Pow(256, 6) == UINT48_MAX + 1
    ensures Pow(256, 16) == UINT128_MAX + 1
    ensures Pow(256, 32) == UINT256_MAX + 1
  {
    hide Pow;
    TwoBytes();
    PowAdd(256, 2, 2);
    PowAdd(256, 4, 2);
    PowAdd(256, 4, 4);
    PowAdd(256, 8, 8);
    PowAdd(256, 16, 16);
  }

  // ----- decimal and hexadecimal strings

  function DigitValue(c: char): Option<nat> {
    if '0' <= c <= '9' then Some(c as int - '0' as int)
    else if 'a' <= c <= 'f' then Some(c as int - 'a' as int + 10)
    else if 'A' <= c <= 'F' then Some(c as int - 'A' as int + 10)
    else None
  }

  predicate IsDigit(c: char, radix: nat) {
    DigitValue(c).Some? && DigitValue(c).value < radix
  }

  predicate AllDigits(s: string, radix: nat) {
    forall c :: c in s ==> IsDigit(c, radix)
  }

  function ParseDigits(s: string, radix: nat): nat
    requires AllDigits(s, radix)
  {
    if s == [] then 0
    else
      assert IsDigit(s[|s| - 1], radix);
      ParseDigits(s[..|s| - 1], radix) * radix + DigitValue(s[|s| - 1]).value
  }

  datatype ParseError = SyntaxError

  /** `BigInt(s)` on the strings the DTO pattern `^(0x[0-9a-fA-F]+|[0-9]+)$` lets through. */
  function BigInt(s: string): Result<nat, ParseError> {
    if |s| > 2 && s[..2] == "0x" && AllDigits(s[2..], 16) then
      Ok(ParseDigits(s[2..], 16))
    else if |s| > 0 && AllDigits(s, 10) then
      Ok(ParseDigits(s, 10))
    else
      Err(SyntaxError)
  }

  /** `bigint.toString()` for non-negative values. */
  function Decimal(n: nat): (s: string)
    ensures |s| > 0 && AllDigits(s, 10)
  {
    var digit := ('0' as int + n % 10) as char;
    assert IsDigit(digit, 10);
    if n < 10 then [digit] else Decimal(n / 10) + [digit]
  }

  lemma {:induction false} ParseDecimal(n: nat)
    ensures ParseDigits(Decimal(n), 10) == n
  {
    var s := Decimal(n);
    if n < 10 {
      assert s[..|s| - 1] == [];
    } else {
      ParseDecimal(n / 10);
      assert s[..|s| - 1] == Decimal(n / 10);
    }
  }

  // ----- what a numeral denotes

  const DIGITS: string := "0123456789abcdef"
  const CAPITAL_DIGITS: string := "0123456789ABCDEF"

  /** Character by character the digits of `s` are those of `d`, in either letter case. */
  predicate Spells(s: string, d: seq<nat>, radix: nat) {
    && |s| == |d|
    && forall i :: 0 <= i < |d| ==> d[i] < radix && d[i] < 16 && s[i] in [DIGITS[d[i]], CAPITAL_DIGITS[d[i]]]
  }

  /** Positional value, most significant digit first. */
  function Positional(d: seq<nat>, radix: nat): nat {
    if d == [] then 0 else d[0] * Pow(radix, |d| - 1) + Positional(d[1..], radix)
  }

  /** `s` is a decimal or 0x-hexadecimal numeral of `n`. */
  ghost predicate Denotes(s: string, n: nat) {
    || (s != [] && exists d :: Spells(s, d, 10) && n == Positional(d, 10))
    || (|s| > 2 && s[..2] == "0x" && exists d :: Spells(s[2..], d, 16) && n == Positional(d, 16))
  }

  lemma DigitSpelled(c: char, v: nat)
    requires v < 16
    ensures c in [DIGITS[v], CAPITAL_DIGITS[v]] <==> DigitValue(c) == Some(v)
  {
  }

  lemma {:induction false} PositionalSnoc(d: seq<nat>, last: nat, radix: nat)
    ensures Positional(d + [last], radix) == Positional(d, radix) * radix + last
  {
    if d == [] {
      assert [last][1..] == [] && Pow(radix, 0) == 1;
    } else {
      var e := d + [last];
      assert e[1..] == d[1..] + [last];
      PositionalSnoc(d[1..], last, radix);
      Horner(d[0], Pow(radix, |d| - 1), Positional(d[1..], radix), radix, last);
    }
  }

  lemma Horner(first: nat, p: nat, rest: nat, radix: nat, last: nat)
    ensures first * (radix * p) + (rest * radix + last) == (first * p + rest) * radix + last
  {
    assert first * (radix * p) == (first * p) * radix;
  }

  lemma SpellsFront(s: string, d: seq<nat>, radix: nat)
    requires Spells(s, d, radix) && s != [] && radix <= 16
    ensures |d| == |s| && Spells(s[..|s| - 1], d[..|s| - 1], radix)
    ensures DigitValue(s[|s| - 1]) == Some(d[|s| - 1]) && d[|s| - 1] < radix
  {
    DigitSpelled(s[|s| - 1], d[|s| - 1]);
  }

  lemma ParseSnoc(front: string, c: char, radix: nat)
    requires AllDigits(front, radix) && IsDigit(c, radix)
    ensures AllDigits(front + [c], radix)
    ensures ParseDigits(front + [c], radix) == ParseDigits(front, radix) * radix + DigitValue(c).value
  {
    hide DigitValue;
    assert (front + [c])[..|front|] == front;
  }

  lemma SpelledSnoc(front: string, c: char, d: seq<nat>, v: nat, radix: nat)
    requires AllDigits(front, radix) && DigitValue(c) == Some(v) && v < radix
    requires ParseDigits(front, radix) == Positional(d, radix)
    ensures AllDigits(front + [c], radix)
    ensures ParseDigits(front + [c], radix) == Positional(d + [v], radix)
  {
    hide Positional, ParseDigits;
    ParseSnoc(front, c, radix);
    PositionalSnoc(d, v, radix);
  }

  /** A spelled numeral parses, to its positional value. */
  lemma {:induction false} ParsesSpelled(s: string, d: seq<nat>, radix: nat)
    requires radix <= 16 && Spells(s, d, radix)
    ensures AllDigits(s, radix)
    ensures ParseDigits(s, radix) == Positional(d, radix)
  {
    hide Positional, DigitValue, ParseDigits, Spells, AllDigits, IsDigit;
    if s == [] {
      NothingSpelled(d, radix);
    } else {
      SpellsFront(s, d, radix);
      var front, e := s[..|s| - 1], d[..|d| - 1];
      var c, v := s[|s| - 1], d[|d| - 1];
      assert s == front + [c] && d == e + [v];
      ParsesSpelled(front, e, radix);
      SpelledSnoc(front, c, e, v, radix);
    }
  }

  lemma NothingSpelled(d: seq<nat>, radix: nat)
    requires Spells("", d, radix)
    ensures AllDigits("", radix) && ParseDigits("", radix) == Positional(d, radix)
  {
  }

  /** A string of digits is spelled by their values. */
  lemma {:induction false} DigitsAreSpelled(s: string, radix: nat) returns (d: seq<nat>)
    requires radix <= 16 && AllDigits(s, radix)
    ensures Spells(s, d, radix)
  {
    if s == [] {
      d := [];
    } else {
      var n := |s| - 1;
      var front := DigitsAreSpelled(s[..n], radix);
      assert IsDigit(s[n], radix);
      d := front + [DigitValue(s[n]).value];
      DigitSpelled(s[n], d[n]);
      assert forall i :: 0 <= i < n ==> s[i] == s[..n][i] && d[i] == front[i];
    }
  }

  /** `BigInt` reads exactly the decimal and 0x-hexadecimal numerals, as the number they denote. */
  lemma BigIntReadsNumerals(s: string, n: nat)
    ensures BigInt(s) == Ok(n) <==> Denotes(s, n)
  {
    hide Spells, Positional, ParseDigits;
    if BigInt(s).Ok? {
      if |s| > 2 && s[..2] == "0x" {
        assert s[1] == s[..2][1] == 'x' && s[1] in s;
        var d := DigitsAreSpelled(s[2..], 16);
        ParsesSpelled(s[2..], d, 16);
      } else {
        var d := DigitsAreSpelled(s, 10);
        ParsesSpelled(s, d, 10);
      }
    }
    if Denotes(s, n) {
      ParsesDenoted(s, n);
    }
  }

  lemma ParsesDenoted(s: string, n: nat)
    requires Denotes(s, n)
    ensures BigInt(s) == Ok(n)
  {
    hide Spells, Positional, ParseDigits;
    if d :| s != [] && Spells(s, d, 10) && n == Positional(d, 10) {
      ParsesSpelled(s, d, 10);
      assert |s| > 2 ==> s[..2][1] == s[1] && s[1] in s;
    } else {
      var d :| Spells(s[2..], d, 16) && n == Positional(d, 16);
      ParsesSpelled(s[2..], d, 16);
    }
  }

  /** What a bigint column stores is read back as the same value. */
  lemma DecimalRoundTrip(n: nat)
    ensures BigInt(Decimal(n)) == Ok(n)
  {
    ParseDecimal(n);
    var s := Decimal(n);
    if |s| > 2 {
      assert s[1] in s;
      assert s[..2][1] == s[1] != 'x';
    }
  }
}
