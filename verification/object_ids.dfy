/**
 * MongoDB ObjectIds as the server hands them out and takes them back: a 96-bit number written
 * as 24 lower-case hexadecimal digits in JSON, and cast back from the 24-digit text found in a
 * request header or body.
 */
module ObjectIds {
  import opened Wrappers
  import opened JsString

  const HexWidth: nat := 24

  function Pow16(w: nat): (p: nat)
    ensures p >= 1 && (w > 0 ==> p >= 16)
  {
    if w == 0 then 1 else 16 * Pow16(w - 1)
  }

  /** 16^24 = 2^96 distinct ids. */
  const Limit: nat := Pow16(HexWidth)

  type ObjectId = n: nat | n < Limit

  /** A lower-case hexadecimal digit. */
  function HexChar(d: nat): (c: char)
    requires d < 16
    ensures IsHexDigit(c) && HexDigitValue(c) == d && !('A' <= c <= 'F')
  {
    if d < 10 then DigitChar(d) else ('a' as int + d - 10) as char
  }

  /** The last `w` hexadecimal digits of `n`, most significant first. */
  function FixedHex(n: nat, w: nat): (s: string)
    ensures |s| == w && AllHexDigits(s)
  {
    if w == 0 then "" else FixedHex(n / 16, w - 1) + [HexChar(n % 16)]
  }

  lemma {:induction false} HexValueBound(s: string)
    requires AllHexDigits(s)
    ensures HexValue(s) < Pow16(|s|)
  {
    if s != [] {
      HexValueBound(s[..|s| - 1]);
    }
  }

  lemma {:induction false} HexValueOfFixedHex(n: nat, w: nat)
    requires n < Pow16(w)
    ensures HexValue(FixedHex(n, w)) == n
  {
    if w > 0 {
      HexValueOfFixedHex(n / 16, w - 1);
      var s := FixedHex(n, w);
      assert s[..|s| - 1] == FixedHex(n / 16, w - 1);
    }
  }

  /** The hex digit of a value read from a hex digit is that digit, lower-cased. */
  lemma HexCharOfDigit(c: char)
    requires IsHexDigit(c)
    ensures HexChar(HexDigitValue(c)) == LowerChar(c)
  {
  }

  lemma {:induction false} FixedHexOfHexValue(s: string)
    requires AllHexDigits(s)
    ensures FixedHex(HexValue(s), |s|) == Lower(s)
  {
    if s != [] {
      var init, c := s[..|s| - 1], s[|s| - 1];
      FixedHexOfHexValue(init);
      HexCharOfDigit(c);
      var v, d := HexValue(init), HexDigitValue(c);
      assert HexValue(s) == v * 16 + d;
      assert (v * 16 + d) / 16 == v && (v * 16 + d) % 16 == d by {
        assert 0 <= d < 16;
      }
      assert FixedHex(HexValue(s), |s|) == FixedHex(v, |init|) + [HexChar(d)];
      assert Lower(s) == Lower(init) + [LowerChar(c)];
    }
  }

  /** `String(id)` in a JSON response: 24 lower-case hexadecimal digits. */
  function Format(id: ObjectId): (s: string)
    ensures |s| == HexWidth && AllHexDigits(s)
  {
    FixedHex(id, HexWidth)
  }

  /**
   * Mongoose's cast of a string to an ObjectId: 24 hexadecimal digits of either case; any
   * other string makes the query throw a CastError (`None`).
   */
  function Parse(s: string): (r: Option<ObjectId>)
    ensures r.Some? <==> |s| == HexWidth && AllHexDigits(s)
  {
    if |s| == HexWidth && AllHexDigits(s) then
      HexValueBound(s);
      Some(HexValue(s))
    else
      None
  }

  /** An id the server hands out is cast back to the same id. */
  lemma ParseFormat(id: ObjectId)
    ensures Parse(Format(id)) == Some(id)
  {
    HexValueOfFixedHex(id, HexWidth);
  }

  /** Every text that casts to an id is that id's text up to letter case. */
  lemma FormatParse(s: string)
    requires Parse(s).Some?
    ensures Format(Parse(s).value) == Lower(s)
  {
    FixedHexOfHexValue(s);
  }
}
