/** Object names of the benchmark: the block number in decimal, left-padded
    with zeros to ten characters as both programs format it, and, in the Rust
    harness, the `.dbin.zst` extension after it. */
module Keys {

  const Width: nat := 10
  const Extension: string := ".dbin.zst"

  predicate IsDigit(c: char)
  {
    '0' <= c <= '9'
  }

  predicate AllDigits(s: string)
  {
    forall i :: 0 <= i < |s| ==> IsDigit(s[i])
  }

  function DigitChar(d: nat): (c: char)
    requires d < 10
    ensures IsDigit(c) && (c as int) - ('0' as int) == d
  {
    (('0' as int) + d) as char
  }

  function DigitValue(c: char): nat
    requires IsDigit(c)
  {
    (c as int) - ('0' as int)
  }

  function Pow10(k: nat): (p: nat)
    ensures p >= 1
  {
    if k == 0 then 1 else 10 * Pow10(k - 1)
  }

  /** The shortest decimal spelling of n, most significant digit first. */
  function Decimal(n: nat): (s: string)
    ensures |s| >= 1
  {
    if n < 10 then [DigitChar(n)] else Decimal(n / 10) + [DigitChar(n % 10)]
  }

  /** The value of a string of decimal digits, most significant first. */
  function ParseDecimal(s: string): nat
    requires AllDigits(s)
  {
    if s == [] then 0 else ParseDecimal(s[..|s| - 1]) * 10 + DigitValue(s[|s| - 1])
  }

  /** A run of k zero digits. */
  function Zeros(k: nat): (z: string)
    ensures |z| == k
  {
    if k == 0 then [] else Zeros(k - 1) + ['0']
  }

  /** s left-padded with zeros to `width` characters; a longer s is kept
      whole, as the formatters of both languages do. */
  function ZeroPad(s: string, width: nat): (r: string)
    ensures |r| == (if |s| < width then width else |s|)
  {
    if |s| < width then Zeros(width - |s|) + s else s
  }

  /** The ten-digit name of a block: `%010d` in Go, the digit part of the
      Rust name. */
  function Padded(n: nat): (p: string)
    ensures |p| == (if |Decimal(n)| < Width then Width else |Decimal(n)|)
  {
    ZeroPad(Decimal(n), Width)
  }

  /** The object name the Rust harness opens for a block: the block number
      zero-padded to at least ten digits, then `.dbin.zst`. */
  function BlockFileName(n: nat): (name: string)
    ensures |name| >= Width + |Extension|
  {
    Padded(n) + Extension
  }

  /** The decimal spelling of n is made of digits only and has no leading
      zero unless n is 0 itself. */
  lemma {:induction false} DecimalDigits(n: nat)
    ensures |Decimal(n)| >= 1 && AllDigits(Decimal(n))
    ensures Decimal(n)[|Decimal(n)| - 1] == DigitChar(n % 10)
    ensures |Decimal(n)| > 1 ==> Decimal(n)[0] != '0'
  {
    if n >= 10 {
      DecimalDigits(n / 10);
    }
  }

  lemma {:induction false} ZerosShape(k: nat)
    ensures |Zeros(k)| == k && forall i :: 0 <= i < k ==> Zeros(k)[i] == '0'
  {
    if k > 0 {
      ZerosShape(k - 1);
    }
  }

  /** Padding makes a string exactly `width` long when it was shorter, and
      what it adds in front is zeros only. */
  lemma ZeroPadShape(s: string, width: nat)
    ensures |ZeroPad(s, width)| == if |s| < width then width else |s|
    ensures ZeroPad(s, width) == Zeros(|ZeroPad(s, width)| - |s|) + s
  {
    if |s| < width {
      ZerosShape(width - |s|);
    } else {
      assert Zeros(0) + s == s;
    }
  }

  /** Parsing the decimal spelling of n gives n back. */
  lemma {:induction false} DecimalRoundTrip(n: nat)
    ensures AllDigits(Decimal(n)) && ParseDecimal(Decimal(n)) == n
  {
    DecimalDigits(n);
    if n >= 10 {
      var s := Decimal(n);
      var d := Decimal(n / 10);
      assert s[..|s| - 1] == d;
      DecimalRoundTrip(n / 10);
    }
  }

  lemma {:induction false} ParseZeros(k: nat)
    ensures AllDigits(Zeros(k)) && ParseDecimal(Zeros(k)) == 0
  {
    ZerosShape(k);
    if k > 0 {
      ZerosShape(k - 1);
      assert Zeros(k)[..k - 1] == Zeros(k - 1);
      ParseZeros(k - 1);
    }
  }

  /** Leading zeros do not change the value of a decimal string. */
  lemma {:induction false} ParseLeadingZeros(k: nat, s: string)
    requires AllDigits(s)
    ensures AllDigits(Zeros(k) + s) && ParseDecimal(Zeros(k) + s) == ParseDecimal(s)
    decreases |s|
  {
    var z := Zeros(k) + s;
    ZerosShape(k);
    assert AllDigits(z) by {
      forall i | 0 <= i < |z| ensures IsDigit(z[i]) {
        if i >= k { assert z[i] == s[i - k]; }
      }
    }
    if s == [] {
      assert z == Zeros(k);
      ParseZeros(k);
    } else {
      assert z[..|z| - 1] == Zeros(k) + s[..|s| - 1];
      ParseLeadingZeros(k, s[..|s| - 1]);
    }
  }

  /** The digit part of a name parses back to the block number. */
  lemma PaddedRoundTrip(n: nat)
    ensures AllDigits(Padded(n)) && ParseDecimal(Padded(n)) == n
  {
    var d := Decimal(n);
    DecimalRoundTrip(n);
    ZeroPadShape(d, Width);
    ParseLeadingZeros(|Padded(n)| - |d|, d);
  }

  /** Different blocks get different names. */
  lemma PaddedInjective(a: nat, b: nat)
    ensures Padded(a) == Padded(b) <==> a == b
  {
    PaddedRoundTrip(a);
    PaddedRoundTrip(b);
  }

  /** A number below 10^k has at most k decimal digits. */
  lemma {:induction false} DecimalLength(n: nat, k: nat)
    requires k >= 1 && n < Pow10(k)
    ensures |Decimal(n)| <= k
  {
    if n >= 10 {
      DecimalLength(n / 10, k - 1);
    }
  }

  /** For every block number the Rust name ends in the extension, and what
      comes before it is at least ten digits spelling the block number. */
  lemma BlockFileNameParts(n: nat)
    ensures |BlockFileName(n)| >= Width + |Extension|
    ensures BlockFileName(n)[|BlockFileName(n)| - |Extension|..] == Extension
    ensures AllDigits(BlockFileName(n)[..|BlockFileName(n)| - |Extension|])
    ensures ParseDecimal(BlockFileName(n)[..|BlockFileName(n)| - |Extension|]) == n
  {
    var p := Padded(n);
    assert (p + Extension)[..|p|] == p;
    assert (p + Extension)[|p|..] == Extension;
    PaddedRoundTrip(n);
  }

  /** Below 10^10 the digit part is exactly ten characters, so the Rust name
      is those ten digits followed by the extension. */
  lemma BlockFileNameShape(n: nat)
    requires n < Pow10(Width)
    ensures |Padded(n)| == Width && AllDigits(Padded(n))
    ensures |BlockFileName(n)| == Width + |Extension|
    ensures BlockFileName(n)[..Width] == Padded(n) && BlockFileName(n)[Width..] == Extension
    ensures ParseDecimal(BlockFileName(n)[..Width]) == n
  {
    DecimalLength(n, Width);
    DecimalDigits(n);
    ZeroPadShape(Decimal(n), Width);
    PaddedRoundTrip(n);
  }

  /** The first name of the run: block 0 is `0000000000.dbin.zst`. */
  lemma FirstExample()
    ensures BlockFileName(0) == "0000000000.dbin.zst"
  {
    assert Decimal(0) == "0";
    ZerosExample();
    assert Zeros(6) == "000000";
    assert Zeros(7) == "0000000";
    assert Zeros(8) == "00000000";
    assert Zeros(9) == "000000000";
    assert Padded(0) == "0000000000";
  }

  /** The decimal spelling of a five-digit number. */
  lemma DecimalExample()
    ensures Decimal(12345) == "12345"
  {
    assert Decimal(1) == "1";
    assert Decimal(12) == "12";
    assert Decimal(123) == "123";
    assert Decimal(1234) == "1234";
    assert 12345 / 10 == 1234 && 12345 % 10 == 5;
    assert DigitChar(5) == '5';
  }

  /** Five zeros of padding. */
  lemma ZerosExample()
    ensures Zeros(5) == "00000"
  {
    assert Zeros(1) == "0";
    assert Zeros(2) == "00";
    assert Zeros(3) == "000";
    assert Zeros(4) == "0000";
  }

  /** A name with a five-digit block number: block 12345 is
      `0000012345.dbin.zst`. */
  lemma PaddedExample()
    ensures BlockFileName(12345) == "0000012345.dbin.zst"
  {
    DecimalExample();
    ZerosExample();
    assert Padded(12345) == "0000012345";
  }
}
