/**
 * The Bitcoin base58 encoding, as the `base58` package's `b58encode`
 * computes it: every leading zero byte becomes a `1`, and the remaining
 * bytes, read as one big-endian number, are written in base 58 with the
 * alphabet `123456789ABCDEFGHJKLMNPQRSTUVWXYZabcdefghijkmnopqrstuvwxyz`
 * (most significant digit first, no digit at all for the number zero).
 */
module Base58 {

  type Byte = x: int | 0 <= x < 256

  function Pow(b: nat, e: nat): (r: nat)
    ensures b > 0 ==> r > 0
  {
    if e == 0 then 1 else b * Pow(b, e - 1)
  }

  /**
   * The base58 digit `d`: the alphabet is the digits and letters without
   * `0`, `O`, `I` and `l`, in ASCII order.
   */
  function Digit(d: nat): (c: char)
    requires d < 58
  {
    if d < 9 then ('1' as int + d) as char
    else if d < 17 then ('A' as int + (d - 9)) as char
    else if d < 22 then ('J' as int + (d - 17)) as char
    else if d < 33 then ('P' as int + (d - 22)) as char
    else if d < 44 then ('a' as int + (d - 33)) as char
    else ('m' as int + (d - 44)) as char
  }

  /** The characters of the base58 alphabet. */
  predicate InAlphabet(c: char) {
    ('1' <= c <= '9') || ('A' <= c <= 'H') || ('J' <= c <= 'N') || ('P' <= c <= 'Z') ||
    ('a' <= c <= 'k') || ('m' <= c <= 'z')
  }

  /** The value of an alphabet character: the inverse of `Digit`. */
  function DigitValue(c: char): (d: nat)
    requires InAlphabet(c)
    ensures d < 58 && Digit(d) == c
  {
    if c <= '9' then c as int - '1' as int
    else if c <= 'H' then c as int - 'A' as int + 9
    else if c <= 'N' then c as int - 'J' as int + 17
    else if c <= 'Z' then c as int - 'P' as int + 22
    else if c <= 'k' then c as int - 'a' as int + 33
    else c as int - 'm' as int + 44
  }

  /** Every digit is an alphabet character, and distinct digits are distinct characters. */
  lemma DigitInAlphabet(d: nat)
    requires d < 58
    ensures InAlphabet(Digit(d)) && DigitValue(Digit(d)) == d
  {
  }

  /** The alphabet leaves out the characters that are easy to confuse. */
  lemma AlphabetExcludesLookalikes(c: char)
    requires InAlphabet(c)
    ensures c != '0' && c != 'O' && c != 'I' && c != 'l'
  {
  }

  /** `v` written in base 58, most significant digit first; zero has no digits. */
  function Digits(v: nat): (r: string)
    ensures forall i :: 0 <= i < |r| ==> InAlphabet(r[i])
    decreases v
  {
    if v == 0 then [] else Digits(v / 58) + [Digit(v % 58)]
  }

  /** The number a string of base58 digits stands for. */
  function Value(s: string): nat
    requires forall i :: 0 <= i < |s| ==> InAlphabet(s[i])
  {
    if s == [] then 0 else Value(s[..|s| - 1]) * 58 + DigitValue(s[|s| - 1])
  }

  /** Reading the digits back gives the number: `Digits` loses nothing. */
  lemma {:induction false} ValueDigits(v: nat)
    ensures Value(Digits(v)) == v
    decreases v
  {
    if v > 0 {
      var r := Digits(v);
      assert r[..|r| - 1] == Digits(v / 58);
      ValueDigits(v / 58);
      DigitInAlphabet(v % 58);
    }
  }

  /** A number of `n` digits lies in [58^(n-1), 58^n): there are no leading zero digits. */
  lemma {:induction false} DigitsBounds(v: nat)
    ensures v < Pow(58, |Digits(v)|)
    ensures v > 0 ==> Pow(58, |Digits(v)| - 1) <= v
    decreases v
  {
    if v > 0 {
      DigitsBounds(v / 58);
      var n := |Digits(v / 58)|;
      assert |Digits(v)| == n + 1;
      assert Pow(58, n + 1) == 58 * Pow(58, n);
      if v / 58 > 0 {
        assert Pow(58, n) == 58 * Pow(58, n - 1);
      }
    }
  }

  lemma MulMonotone(a: nat, b: nat, p: nat)
    requires a <= b
    ensures a * p <= b * p
  {
  }

  /** The bytes read as one big-endian number. */
  function BigEndian(b: seq<Byte>): (v: nat)
    ensures v < Pow(256, |b|)
  {
    if b == [] then 0
    else
      var p := Pow(256, |b| - 1);
      var rest := BigEndian(b[1..]);
      MulMonotone(b[0] as int + 1, 256, p);
      assert (b[0] as int + 1) * p == b[0] * p + p;
      b[0] * p + rest
  }

  /** The number of zero bytes `b` starts with. */
  function LeadingZeros(b: seq<Byte>): (n: nat)
    ensures n <= |b|
    ensures forall i :: 0 <= i < n ==> b[i] == 0
    ensures n < |b| ==> b[n] != 0
  {
    if b == [] || b[0] != 0 then 0 else 1 + LeadingZeros(b[1..])
  }

  function Ones(n: nat): (r: string)
    ensures |r| == n && forall i :: 0 <= i < n ==> r[i] == '1'
  {
    if n == 0 then [] else Ones(n - 1) + ['1']
  }

  /** `b58encode(b)`. */
  function Encode(b: seq<Byte>): string {
    Ones(LeadingZeros(b)) + Digits(BigEndian(b[LeadingZeros(b)..]))
  }

  /** Every character of an encoding is in the base58 alphabet. */
  lemma EncodeInAlphabet(b: seq<Byte>)
    ensures forall i :: 0 <= i < |Encode(b)| ==> InAlphabet(Encode(b)[i])
  {
    var z := LeadingZeros(b);
    var e := Encode(b);
    forall i | 0 <= i < |e| ensures InAlphabet(e[i]) {
      if i >= z {
        assert e[i] == Digits(BigEndian(b[z..]))[i - z];
      }
    }
  }

  lemma {:induction false} PowMonotoneBase(n: nat)
    ensures Pow(58, n) <= Pow(256, n)
  {
    if n > 0 {
      PowMonotoneBase(n - 1);
    }
  }

  lemma {:induction false} PowMonotoneExponent(a: nat, b: nat)
    requires a <= b
    ensures Pow(58, a) <= Pow(58, b)
    decreases b
  {
    if a < b {
      PowMonotoneExponent(a, b - 1);
    }
  }

  /** A big-endian number whose first byte is not zero needs all of its bytes. */
  lemma BigEndianLower(b: seq<Byte>)
    requires b != [] && b[0] != 0
    ensures Pow(256, |b| - 1) <= BigEndian(b)
  {
    MulMonotone(1, b[0], Pow(256, |b| - 1));
  }

  /** Base 58 is shorter-digited than base 256: the encoding is at least as long as the bytes. */
  lemma EncodeLength(b: seq<Byte>)
    ensures |Encode(b)| >= |b|
  {
    var z := LeadingZeros(b);
    var rest := b[z..];
    if rest != [] {
      var v := BigEndian(rest);
      var k := |rest|;
      BigEndianLower(rest);
      PowMonotoneBase(k - 1);
      DigitsBounds(v);
      var d := |Digits(v)|;
      if d < k {
        PowMonotoneExponent(d, k - 1);
        assert false;
      }
    }
  }

  /** A positive number's first digit is not the zero digit `1`. */
  lemma {:induction false} DigitsLeading(v: nat)
    requires v > 0
    ensures Digits(v) != [] && Digits(v)[0] != '1'
    decreases v
  {
    if v / 58 == 0 {
      DigitInAlphabet(v % 58);
      DigitInAlphabet(0);
    } else {
      DigitsLeading(v / 58);
    }
  }

  /**
   * The encoding can be read back: it starts with exactly as many `1`s as
   * `b` starts with zero bytes, and the digits after them stand for the
   * rest of `b` as a big-endian number.
   */
  lemma EncodeReadsBack(b: seq<Byte>)
    ensures Encode(b)[..LeadingZeros(b)] == Ones(LeadingZeros(b))
    ensures LeadingZeros(b) < |Encode(b)| ==> Encode(b)[LeadingZeros(b)] != '1'
    ensures Value(Encode(b)[LeadingZeros(b)..]) == BigEndian(b[LeadingZeros(b)..])
  {
    var z := LeadingZeros(b);
    var v := BigEndian(b[z..]);
    assert Encode(b)[z..] == Digits(v);
    ValueDigits(v);
    if v > 0 {
      DigitsLeading(v);
    }
  }
}
