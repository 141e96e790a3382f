/**
 * The part of System.Guid the quoting controller relies on: the all-zero
 * `Guid.Empty` that its first guard compares against, and `ToString()`, the
 * canonical "D" text form (32 lower-case hexadecimal digits grouped 8-4-4-4-12
 * by hyphens) that turns each freshly generated identifier into the
 * SubmissionId and QuoteId strings of a quote.
 */
module Guids {

  import opened Wrappers

  /** 16^n, the number of values n hexadecimal digits can spell. */
  function Pow16(n: nat): nat
  {
    if n == 0 then 1 else 16 * Pow16(n - 1)
  }

  /** Number of distinct GUIDs: 2^128. */
  const GuidCount: nat := 0x1_0000_0000_0000_0000_0000_0000_0000_0000

  /** A GUID, viewed as the 128-bit number its 32 hexadecimal digits spell. */
  newtype Guid = x: int | 0 <= x < 0x1_0000_0000_0000_0000_0000_0000_0000_0000

  /** `Guid.Empty`: all 128 bits zero. */
  const Empty: Guid := 0

  /** Lower-case hexadecimal digit for a value below 16. */
  function HexDigit(d: nat): (c: char)
    requires d < 16
    ensures IsHexDigit(c)
  {
    if d < 10 then ('0' as int + d) as char else ('a' as int + d - 10) as char
  }

  predicate IsHexDigit(c: char) {
    '0' <= c <= '9' || 'a' <= c <= 'f'
  }

  /** Value of a lower-case hexadecimal digit (0 for any other character). */
  function HexValue(c: char): (d: nat)
    ensures d < 16
  {
    if '0' <= c <= '9' then c as int - '0' as int
    else if 'a' <= c <= 'f' then c as int - 'a' as int + 10
    else 0
  }

  lemma HexValueOfDigit(d: nat)
    requires d < 16
    ensures HexValue(HexDigit(d)) == d
  {
  }

  /** The n least significant hexadecimal digits of v, most significant first. */
  function Hex(v: nat, n: nat): (s: string)
    ensures |s| == n
    ensures forall i :: 0 <= i < |s| ==> IsHexDigit(s[i])
  {
    if n == 0 then [] else Hex(v / 16, n - 1) + [HexDigit(v % 16)]
  }

  /** The number a string of hexadecimal digits spells, most significant first. */
  function ParseHex(s: string): nat
  {
    if s == [] then 0 else 16 * ParseHex(s[..|s| - 1]) + HexValue(s[|s| - 1])
  }

  /** Reading back n digits written for a value that fits in n digits gives the value. */
  lemma {:induction false} ParseHexOfHex(v: nat, n: nat)
    requires v < Pow16(n)
    ensures ParseHex(Hex(v, n)) == v
  {
    if n > 0 {
      var s := Hex(v / 16, n - 1);
      assert v / 16 < Pow16(n - 1);
      ParseHexOfHex(v / 16, n - 1);
      HexValueOfDigit(v % 16);
      assert (s + [HexDigit(v % 16)])[..|s|] == s;
    }
  }

  lemma {:induction false} Pow16Add(a: nat, b: nat)
    ensures Pow16(a + b) == Pow16(a) * Pow16(b)
  {
    if a > 0 {
      Pow16Add(a - 1, b);
    }
  }

  /** 32 hexadecimal digits cover exactly the 2^128 GUIDs. */
  lemma Pow16Of32()
    ensures Pow16(32) == GuidCount
  {
    assert Pow16(4) == 0x1_0000;
    Pow16Add(4, 4);
    Pow16Add(8, 8);
    Pow16Add(16, 16);
  }

  /** Positions of the four hyphens in the "D" form. */
  predicate IsHyphenPosition(i: int) {
    i == 8 || i == 13 || i == 18 || i == 23
  }

  /** `Guid.ToString()`: xxxxxxxx-xxxx-xxxx-xxxx-xxxxxxxxxxxx in lower-case hex. */
  function Format(g: Guid): (t: string)
    ensures |t| == 36
    ensures forall i :: 0 <= i < 36 ==> (if IsHyphenPosition(i) then t[i] == '-' else IsHexDigit(t[i]))
  {
    var h := Hex(g as nat, 32);
    h[..8] + "-" + h[8..12] + "-" + h[12..16] + "-" + h[16..20] + "-" + h[20..]
  }

  /** The 32 digits of a 36-character "D" form, with the hyphen positions dropped. */
  function Digits(t: string): (h: string)
    requires |t| == 36
    ensures |h| == 32
  {
    t[..8] + t[9..13] + t[14..18] + t[19..23] + t[24..]
  }

  /** Reads the "D" form back; None for text of the wrong shape. */
  function Parse(t: string): (r: Option<Guid>)
    ensures r.Some? ==> |t| == 36 && t[8] == '-' && t[13] == '-' && t[18] == '-' && t[23] == '-'
  {
    if |t| == 36 && (forall i :: 0 <= i < 36 ==> (if IsHyphenPosition(i) then t[i] == '-' else IsHexDigit(t[i])))
    then
      var v := ParseHex(Digits(t));
      if v < GuidCount then Some(v as Guid) else None
    else None
  }

  /** Parsing the text of a GUID gives back that GUID. */
  lemma ParseFormat(g: Guid)
    ensures Parse(Format(g)) == Some(g)
  {
    var h := Hex(g as nat, 32);
    var t := Format(g);
    assert t[..8] == h[..8];
    assert t[9..13] == h[8..12];
    assert t[14..18] == h[12..16];
    assert t[19..23] == h[16..20];
    assert t[24..] == h[20..];
    assert h == h[..8] + h[8..12] + h[12..16] + h[16..20] + h[20..];
    Pow16Of32();
    ParseHexOfHex(g as nat, 32);
  }

  /** `ToString()` is injective: two GUIDs have the same text only if they are equal. */
  lemma FormatInjective(a: Guid, b: Guid)
    ensures Format(a) == Format(b) <==> a == b
  {
    if Format(a) == Format(b) {
      ParseFormat(a);
      ParseFormat(b);
    }
  }

}
