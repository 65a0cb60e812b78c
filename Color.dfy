/**
 * `hexToRgb(hex)`: an optional '#' and exactly six hexadecimal digits, in any letter case,
 * become three channel values; anything else becomes black.
 */
module Color {
  import opened Strings

  datatype Rgb = Rgb(r: nat, g: nat, b: nat)

  const Black := Rgb(0, 0, 0)

  predicate IsHexDigit(c: char)
  {
    '0' <= c <= '9' || 'a' <= c <= 'f' || 'A' <= c <= 'F'
  }

  /** `parseInt(c, 16)` of one digit. */
  function HexValue(c: char): (v: nat)
    requires IsHexDigit(c)
    ensures v < 16
  {
    if '0' <= c <= '9' then (c as int) - ('0' as int)
    else if 'a' <= c <= 'f' then (c as int) - ('a' as int) + 10
    else (c as int) - ('A' as int) + 10
  }

  /** The six digits after the optional '#'. */
  function Digits(hex: string): string
  {
    if |hex| > 0 && hex[0] == '#' then hex[1..] else hex
  }

  /** `/^#?([a-f\d]{2})([a-f\d]{2})([a-f\d]{2})$/i` matches. */
  predicate IsHexColor(hex: string)
  {
    var d := Digits(hex);
    |d| == 6 && forall i :: 0 <= i < 6 ==> IsHexDigit(d[i])
  }

  /** `parseInt` of the two digits starting at `k`. */
  function Pair(d: string, k: nat): (v: nat)
    requires k + 1 < |d| && IsHexDigit(d[k]) && IsHexDigit(d[k + 1])
    ensures v < 256
  {
    HexValue(d[k]) * 16 + HexValue(d[k + 1])
  }

  function HexToRgb(hex: string): (c: Rgb)
    ensures c.r < 256 && c.g < 256 && c.b < 256
    ensures !IsHexColor(hex) ==> c == Black
  {
    if IsHexColor(hex) then
      var d := Digits(hex);
      Rgb(Pair(d, 0), Pair(d, 2), Pair(d, 4))
    else Black
  }

  // ---------------------------------------------------------------------------
  // The colour picker's own notation, and reading it back
  // ---------------------------------------------------------------------------

  function HexDigitChar(v: nat): (c: char)
    requires v < 16
    ensures IsHexDigit(c) && HexValue(c) == v && !('A' <= c <= 'Z')
  {
    if v < 10 then (('0' as int) + v) as char else (('a' as int) + v - 10) as char
  }

  /** Two lower-case digits of one channel. */
  function HexByte(v: nat): (s: string)
    requires v < 256
    ensures |s| == 2 && IsHexDigit(s[0]) && IsHexDigit(s[1])
  {
    [HexDigitChar(v / 16), HexDigitChar(v % 16)]
  }

  /** "#rrggbb", the value a colour input holds. */
  function ToHex(c: Rgb): string
    requires c.r < 256 && c.g < 256 && c.b < 256
  {
    "#" + HexByte(c.r) + HexByte(c.g) + HexByte(c.b)
  }

  lemma HexBytePair(v: nat)
    requires v < 256
    ensures Pair(HexByte(v), 0) == v
  {
  }

  /** Every colour the picker can produce reads back as itself. */
  lemma HexRoundTrip(c: Rgb)
    requires c.r < 256 && c.g < 256 && c.b < 256
    ensures IsHexColor(ToHex(c)) && HexToRgb(ToHex(c)) == c
  {
    var s := ToHex(c);
    var d := HexByte(c.r) + HexByte(c.g) + HexByte(c.b);
    assert s == "#" + d;
    assert Digits(s) == d;
    HexBytePair(c.r);
    HexBytePair(c.g);
    HexBytePair(c.b);
    assert d[0..2] == HexByte(c.r) && d[2..4] == HexByte(c.g) && d[4..6] == HexByte(c.b);
  }

  /** The '#' is optional: with or without it the same digits give the same colour. */
  lemma HashOptional(d: string)
    requires |d| == 0 || d[0] != '#'
    ensures HexToRgb("#" + d) == HexToRgb(d)
  {
    assert ("#" + d)[1..] == d;
  }

  /** Letter case does not matter: upper-case digits give the same channels as lower-case ones. */
  lemma CaseInsensitive(hex: string)
    ensures IsHexColor(ToLower(hex)) <==> IsHexColor(hex)
    ensures HexToRgb(ToLower(hex)) == HexToRgb(hex)
  {
    var l := ToLower(hex);
    assert |l| > 0 && l[0] == '#' <==> |hex| > 0 && hex[0] == '#';
    var d, dl := Digits(hex), Digits(l);
    assert |dl| == |d|;
    assert forall i :: 0 <= i < |d| ==> dl[i] == LowerChar(d[i]);
    assert forall i :: 0 <= i < |d| ==> (IsHexDigit(dl[i]) <==> IsHexDigit(d[i]));
    assert forall i :: 0 <= i < |d| && IsHexDigit(d[i]) ==> HexValue(dl[i]) == HexValue(d[i]);
  }

  /** Shorthand, eight digits and stray characters are not colours: each gives black. */
  lemma RejectedForms()
    ensures HexToRgb("#fff") == Black
    ensures HexToRgb("#3b82f6ff") == Black
    ensures HexToRgb("#3b82g6") == Black
    ensures HexToRgb("") == Black
  {
    assert !IsHexDigit('g');
    assert Digits("#3b82g6")[4] == 'g';
  }

  /** The default brand colour. */
  lemma DefaultBrandColor()
    ensures HexToRgb("#3b82f6") == Rgb(59, 130, 246)
  {
    var d := Digits("#3b82f6");
    assert d == "3b82f6";
    assert Pair(d, 0) == 59 && Pair(d, 2) == 130 && Pair(d, 4) == 246;
  }
}
