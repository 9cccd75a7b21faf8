/**
 * Address normalisation of the connector: an address without a port separator
 * gets ":" followed by the decimal text of the connector's default port.
 * Java's int, String.indexOf(char) and Integer.toString are written out here.
 */
module Address {

  /** Java's 32-bit int, the type of defaultPort(). */
  newtype Int32 = x: int | -0x8000_0000 <= x < 0x8000_0000

  /** String.indexOf(char): the first position of c in s, or -1 when c does not occur. */
  function IndexOf(s: string, c: char): (r: int)
    ensures -1 <= r < |s|
    ensures r == -1 <==> c !in s
    ensures 0 <= r ==> s[r] == c && c !in s[..r]
  {
    if s == [] then -1
    else if s[0] == c then 0
    else
      var k := IndexOf(s[1..], c);
      if k < 0 then -1 else k + 1
  }

  function DigitChar(d: nat): (c: char)
    requires d < 10
    ensures '0' <= c <= '9' && c as int - '0' as int == d
  {
    ('0' as int + d) as char
  }

  /** The decimal digits of n, most significant first, without leading zeros. */
  function Digits(n: nat): (s: string)
    ensures |s| > 0
    ensures forall i :: 0 <= i < |s| ==> '0' <= s[i] <= '9'
    ensures |s| > 1 ==> s[0] != '0'
  {
    if n < 10 then [DigitChar(n)] else Digits(n / 10) + [DigitChar(n % 10)]
  }

  /** A non-empty string of decimal digits without a leading zero. */
  predicate CanonicalDigits(d: string)
  {
    |d| > 0 && (forall i :: 0 <= i < |d| ==> '0' <= d[i] <= '9') && (|d| > 1 ==> d[0] != '0')
  }

  /**
   * The text Integer.toString produces: canonical digits, preceded by '-'
   * when the value is negative (so never "-0").
   */
  predicate Canonical(s: string)
  {
    CanonicalDigits(s) || (|s| > 1 && s[0] == '-' && CanonicalDigits(s[1..]) && s[1..] != "0")
  }

  /** Integer.toString(n): an optional minus sign followed by the digits of |n|. */
  function DecimalString(n: int): (s: string)
    ensures Canonical(s)
    ensures |s| > 0 && ':' !in s
    ensures s[0] == '-' <==> n < 0
  {
    if n < 0 then
      var d := Digits(-n);
      assert ("-" + d)[1..] == d;
      "-" + d
    else
      Digits(n)
  }

  /** The value of a string of decimal digits (the inverse of Digits). */
  function DigitsValue(s: string): int
  {
    if s == [] then 0
    else DigitsValue(s[..|s| - 1]) * 10 + (s[|s| - 1] as int - '0' as int)
  }

  /** The value of a decimal text with an optional minus sign (the inverse of DecimalString). */
  function ParseDecimal(s: string): int
  {
    if |s| > 0 && s[0] == '-' then -DigitsValue(s[1..]) else DigitsValue(s)
  }

  lemma {:induction false} DigitsRoundTrip(n: nat)
    ensures DigitsValue(Digits(n)) == n
  {
    if n >= 10 {
      var p := Digits(n / 10);
      assert (p + [DigitChar(n % 10)])[..|p|] == p;
      DigitsRoundTrip(n / 10);
    }
  }

  lemma DecimalRoundTrip(n: int)
    ensures ParseDecimal(DecimalString(n)) == n
  {
    if n < 0 {
      assert ("-" + Digits(-n))[1..] == Digits(-n);
      DigitsRoundTrip(-n);
    } else {
      DigitsRoundTrip(n);
    }
  }

  /** The value of canonical digits is positive unless they are "0". */
  lemma {:induction false} CanonicalDigitsPositive(d: string)
    requires CanonicalDigits(d)
    ensures DigitsValue(d) >= 0
    ensures d != "0" ==> DigitsValue(d) >= 1
    decreases |d|
  {
    var p := d[..|d| - 1];
    if |p| > 0 {
      assert p[0] == d[0];
      CanonicalDigitsPositive(p);
    }
  }

  /** Canonical digits are the digits of their own value (the other half of DigitsRoundTrip). */
  lemma {:induction false} DigitsOfValue(d: string)
    requires CanonicalDigits(d)
    ensures DigitsValue(d) >= 0 && Digits(DigitsValue(d)) == d
    decreases |d|
  {
    CanonicalDigitsPositive(d);
    var p := d[..|d| - 1];
    var x := d[|d| - 1] as int - '0' as int;
    if |p| > 0 {
      assert p[0] == d[0];
      CanonicalDigitsPositive(p);
      DigitsOfValue(p);
      var n := DigitsValue(d);
      assert n == DigitsValue(p) * 10 + x && n >= 10;
      assert n / 10 == DigitsValue(p) && n % 10 == x;
      assert d == p + [d[|d| - 1]];
    }
  }

  /** Every canonical decimal text is the one Integer.toString gives for its value. */
  lemma CanonicalRoundTrip(s: string)
    requires Canonical(s)
    ensures DecimalString(ParseDecimal(s)) == s
  {
    if CanonicalDigits(s) {
      DigitsOfValue(s);
    } else {
      var d := s[1..];
      CanonicalDigitsPositive(d);
      DigitsOfValue(d);
      assert s == "-" + d;
    }
  }

  /** Two canonical decimal texts of the same value are the same text. */
  lemma CanonicalUnique(s: string, t: string)
    requires Canonical(s) && Canonical(t) && ParseDecimal(s) == ParseDecimal(t)
    ensures s == t
  {
    CanonicalRoundTrip(s);
    CanonicalRoundTrip(t);
  }

  /**
   * The address setAddr stores for addr, given the value defaultPort() returns:
   * unchanged when it already holds a ':', otherwise addr + ":" + port.
   * The result always holds a ':'; it keeps addr as its prefix; and when a
   * port was appended, the first ':' is the one appended and the text after
   * it is canonical decimal text reading back as the default port, which by
   * CanonicalUnique fixes that text.
   */
  function Normalize(addr: string, port: Int32): (r: string)
    ensures ':' in r
    ensures ':' in addr ==> r == addr
    ensures addr <= r
    ensures ':' !in addr ==>
              IndexOf(r, ':') == |addr| &&
              Canonical(r[|addr| + 1..]) && ParseDecimal(r[|addr| + 1..]) == port as int
  {
    if IndexOf(addr, ':') < 0 then
      var r := addr + ":" + DecimalString(port as int);
      assert r[|addr|] == ':' && r[..|addr|] == addr;
      assert r[|addr| + 1..] == DecimalString(port as int);
      DecimalRoundTrip(port as int);
      r
    else
      addr
  }

  /** Normalising an address that was already normalised changes nothing, whatever port is given. */
  lemma NormalizeIdempotent(addr: string, port: Int32, other: Int32)
    ensures Normalize(Normalize(addr, port), other) == Normalize(addr, port)
  {
  }

  /** Example: "dev1" with default port 4000, and an address that already names a port. */
  lemma NormalizeExample()
    ensures Normalize("dev1", 4000) == "dev1:4000"
    ensures Normalize("dev1:77", 4000) == "dev1:77"
  {
    assert ':' !in "dev1";
    assert Digits(4000) == "4000";
  }
}
