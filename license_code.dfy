/** The licence codes the admin page generates (public/js/admin.js:95-96):
    `'JEWELRY-' + hex4(a) + '-' + hex4(b)`, where each `hex4` writes a random
    integer in [0, 65534] in upper-case hexadecimal padded to four digits.
    `ParseLicenseCode` is the inverse the round-trip lemma is stated with. */
module LicenseCodes {
  import opened Optional
  import opened JsString

  /** One hexadecimal digit as `Number.prototype.toString(16)` writes it. */
  function HexDigit(d: nat): char
    requires d < 16
  {
    if d < 10 then ('0' as int + d) as char else ('a' as int + d - 10) as char
  }

  /** `n.toString(16)`: lower-case hexadecimal without leading zeros. */
  function ToHex(n: nat): string
    decreases n
  {
    if n < 16 then [HexDigit(n)] else ToHex(n / 16) + [HexDigit(n % 16)]
  }

  /** `hex4(n)`: `n.toString(16).toUpperCase().padStart(4, '0')`, an
      upper-case numeral for `n`, four digits long below 65536. */
  function Hex4(n: nat): (h: string)
    ensures AllUpperHex(h) && HexNumber(h) == n
    ensures n < 65536 ==> |h| == 4
  {
    var u := ToUpperCase(ToHex(n));
    UpperHexValue(n);
    var h := PadStart(u, 4, '0');
    assert AllUpperHex(h) && HexNumber(h) == n by {
      if |u| < 4 {
        assert h == h[..4 - |u|] + u;
        LeadingZeros(h[..4 - |u|], u);
      }
    }
    assert n < 65536 ==> |h| == 4 by {
      if n < 65536 {
        assert Pow16(4) == 65536;
        ToHexLength(n, 4);
      }
    }
    h
  }

  /** The generated code for the two random draws `a` and `b`: the
      `JEWELRY-` prefix, then the two numerals joined by `-`. */
  function LicenseCode(a: nat, b: nat): (c: string)
    ensures 8 < |c| && c[..8] == "JEWELRY-"
    ensures a < 65536 && b < 65536 ==> |c| == 17 && c[12] == '-'
  {
    var c := "JEWELRY-" + Hex4(a) + "-" + Hex4(b);
    assert c[..8] == "JEWELRY-";
    c
  }

  predicate IsUpperHexDigit(c: char)
  {
    ('0' <= c <= '9') || ('A' <= c <= 'F')
  }

  predicate AllUpperHex(s: string)
  {
    forall k :: 0 <= k < |s| ==> IsUpperHexDigit(s[k])
  }

  function DigitValue(c: char): nat
    requires IsUpperHexDigit(c)
  {
    if c <= '9' then c as int - '0' as int else c as int - 'A' as int + 10
  }

  /** The number an upper-case hexadecimal numeral stands for. */
  function HexNumber(s: string): nat
    requires AllUpperHex(s)
    decreases |s|
  {
    if s == [] then 0 else HexNumber(s[..|s| - 1]) * 16 + DigitValue(s[|s| - 1])
  }

  /** Reads a non-empty upper-case hexadecimal numeral. */
  function ParseHex(s: string): Option<nat>
  {
    if s != [] && AllUpperHex(s) then Some(HexNumber(s)) else None
  }

  /** Reads back the two numbers of a licence code: it accepts exactly the
      strings of the generated shape, and gives numbers that fit in four
      digits. */
  function ParseLicenseCode(s: string): (r: Option<(nat, nat)>)
    ensures r.Some? <==>
      |s| == 17 && s[..8] == "JEWELRY-" && s[12] == '-' && AllUpperHex(s[8..12]) && AllUpperHex(s[13..])
    ensures r.Some? ==> r.value.0 < 65536 && r.value.1 < 65536
  {
    if |s| == 17 && s[..8] == "JEWELRY-" && s[12] == '-' then
      assert Pow16(4) == 65536;
      assert AllUpperHex(s[8..12]) ==> HexNumber(s[8..12]) < 65536 by {
        if AllUpperHex(s[8..12]) { HexNumberBound(s[8..12]); }
      }
      assert AllUpperHex(s[13..]) ==> HexNumber(s[13..]) < 65536 by {
        if AllUpperHex(s[13..]) { HexNumberBound(s[13..]); }
      }
      match (ParseHex(s[8..12]), ParseHex(s[13..]))
      case (Some(a), Some(b)) => Some((a, b))
      case _ => None
    else None
  }

  function Pow16(k: nat): nat
  {
    if k == 0 then 1 else 16 * Pow16(k - 1)
  }

  /** A numeral of `k` digits stands for less than 16 to the `k`. */
  lemma {:induction false} HexNumberBound(s: string)
    requires AllUpperHex(s)
    ensures HexNumber(s) < Pow16(|s|)
    decreases |s|
  {
    if s != [] {
      HexNumberBound(s[..|s| - 1]);
    }
  }

  lemma {:induction false} ToHexLength(n: nat, k: nat)
    requires 1 <= k && n < Pow16(k)
    ensures 1 <= |ToHex(n)| <= k
    decreases n
  {
    if n >= 16 {
      assert k >= 2;
      assert n / 16 < Pow16(k - 1);
      ToHexLength(n / 16, k - 1);
    }
  }

  /** Upper-casing a lower-case hex numeral gives an upper-case one that
      stands for the same number. */
  lemma {:induction false} UpperHexValue(n: nat)
    ensures AllUpperHex(ToUpperCase(ToHex(n)))
    ensures HexNumber(ToUpperCase(ToHex(n))) == n
    decreases n
  {
    var u := ToUpperCase(ToHex(n));
    if n < 16 {
      assert u == [UpperChar(HexDigit(n))];
    } else {
      UpperHexValue(n / 16);
      var front := ToUpperCase(ToHex(n / 16));
      assert u == front + [UpperChar(HexDigit(n % 16))];
      assert u[..|u| - 1] == front;
    }
  }

  /** Zeros in front of a numeral do not change its value. */
  lemma {:induction false} LeadingZeros(z: string, s: string)
    requires forall k :: 0 <= k < |z| ==> z[k] == '0'
    requires AllUpperHex(s)
    ensures AllUpperHex(z + s)
    ensures HexNumber(z + s) == HexNumber(s)
    decreases |s|
  {
    if s == [] {
      assert z + s == z;
      AllZeros(z);
    } else {
      var t := z + s;
      assert t[..|t| - 1] == z + s[..|s| - 1];
      LeadingZeros(z, s[..|s| - 1]);
    }
  }

  lemma {:induction false} AllZeros(z: string)
    requires forall k :: 0 <= k < |z| ==> z[k] == '0'
    ensures AllUpperHex(z)
    ensures HexNumber(z) == 0
    decreases |z|
  {
    if z != [] {
      AllZeros(z[..|z| - 1]);
    }
  }

  /** For every number the generator draws, `hex4` writes exactly four
      upper-case hexadecimal digits that read back as that number. */
  lemma Hex4RoundTrip(n: nat)
    requires n < 65535
    ensures |Hex4(n)| == 4
    ensures AllUpperHex(Hex4(n))
    ensures ParseHex(Hex4(n)) == Some(n)
  {
  }

  /** Every generated code is 17 characters long, has upper-case hexadecimal
      digits only in its two numeric groups, and reads back as the two
      numbers drawn. */
  lemma LicenseCodeRoundTrip(a: nat, b: nat)
    requires a < 65535 && b < 65535
    ensures |LicenseCode(a, b)| == 17
    ensures AllUpperHex(LicenseCode(a, b)[8..12]) && AllUpperHex(LicenseCode(a, b)[13..])
    ensures ParseLicenseCode(LicenseCode(a, b)) == Some((a, b))
  {
    Hex4RoundTrip(a);
    Hex4RoundTrip(b);
    var s := LicenseCode(a, b);
    assert s[..8] == "JEWELRY-";
    assert s[8..12] == Hex4(a);
    assert s[12] == '-';
    assert s[13..] == Hex4(b);
  }
}
