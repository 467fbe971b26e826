/**
 * The colour helpers of app/components/StageCanvas.tsx: `hexToRgb` parses `#rrggbb` (the
 * `#` optional, digits in either case), `rgbToHex` serialises three channels through the
 * number `2^24 + r*2^16 + g*2^8 + b` in base 16 without its leading digit, and the layer
 * tints are added to the theme colours with an upper cap only.
 */
module Colors {

  datatype Rgb = Rgb(r: int, g: int, b: int)

  predicate InByteRange(c: Rgb) {
    0 <= c.r < 256 && 0 <= c.g < 256 && 0 <= c.b < 256
  }

  // ---------------------------------------------------------------- digits

  /** A hexadecimal digit in either case (`[a-f\d]` under the `i` flag). */
  predicate IsHexDigit(c: char) {
    '0' <= c <= '9' || 'a' <= c <= 'f' || 'A' <= c <= 'F'
  }

  function DigitValue(c: char): (v: nat)
    requires IsHexDigit(c)
    ensures v < 16
  {
    if '0' <= c <= '9' then (c - '0') as nat
    else if 'a' <= c <= 'f' then (c - 'a') as nat + 10
    else (c - 'A') as nat + 10
  }

  /** The lower-case digit `toString(16)` writes for a value below 16. */
  function HexChar(v: nat): (c: char)
    requires v < 16
    ensures IsHexDigit(c) && DigitValue(c) == v && !('A' <= c <= 'F')
  {
    if v < 10 then ('0' as int + v) as char else ('a' as int + v - 10) as char
  }

  /** The lower-case form of a digit. */
  function LowerDigit(c: char): char
    requires IsHexDigit(c)
  {
    if 'A' <= c <= 'F' then (c - 'A' + 'a') as char else c
  }

  lemma HexCharOfValue(c: char)
    requires IsHexDigit(c)
    ensures HexChar(DigitValue(c)) == LowerDigit(c)
  {}

  /** `n.toString(16)` for a non-negative integer: the digits without leading zeros. */
  function Hex(n: nat): (s: string)
    ensures |s| >= 1
    decreases n
  {
    if n < 16 then [HexChar(n)] else Hex(n / 16) + [HexChar(n % 16)]
  }

  /** `n.toString(16)` for any integer. */
  function ToString16(n: int): string {
    if n < 0 then "-" + Hex(-n) else Hex(n)
  }

  /** Exactly `k` digits of `x`, most significant first. */
  function Padded(x: nat, k: nat): (s: string)
    ensures |s| == k
  {
    if k == 0 then [] else Padded(x / 16, k - 1) + [HexChar(x % 16)]
  }

  function Pow16(k: nat): (p: nat)
    ensures p >= 1
  {
    if k == 0 then 1 else 16 * Pow16(k - 1)
  }

  lemma Pow16Values()
    ensures Pow16(2) == 256 && Pow16(4) == 0x1_0000 && Pow16(6) == 0x100_0000
  {}

  lemma DivMod16(q: int, d: int)
    requires 0 <= d < 16
    ensures (16 * q + d) / 16 == q && (16 * q + d) % 16 == d
  {}

  /** The digits of `a * 16^k + c`, for `c` below `16^k`, are those of `a` followed by those of `c`. */
  lemma {:induction false} PaddedConcat(a: nat, c: nat, j: nat, k: nat)
    requires c < Pow16(k)
    ensures Padded(a * Pow16(k) + c, j + k) == Padded(a, j) + Padded(c, k)
  {
    if k > 0 {
      var n := a * Pow16(k) + c;
      assert a * Pow16(k) == 16 * (a * Pow16(k - 1));
      assert c == 16 * (c / 16) + c % 16;
      assert n == 16 * (a * Pow16(k - 1) + c / 16) + c % 16;
      DivMod16(a * Pow16(k - 1) + c / 16, c % 16);
      assert c / 16 < Pow16(k - 1);
      PaddedConcat(a, c / 16, j, k - 1);
    }
  }

  /** `(16^k + x).toString(16)` is a `1` followed by the `k` digits of `x`. */
  lemma {:induction false} LeadingOne(x: nat, k: nat)
    requires k >= 1 && x < Pow16(k)
    ensures Hex(Pow16(k) + x) == "1" + Padded(x, k)
  {
    var n := Pow16(k) + x;
    assert x == 16 * (x / 16) + x % 16;
    assert n == 16 * (Pow16(k - 1) + x / 16) + x % 16;
    DivMod16(Pow16(k - 1) + x / 16, x % 16);
    assert x / 16 < Pow16(k - 1);
    if k == 1 {
      assert x / 16 == 0;
    } else {
      LeadingOne(x / 16, k - 1);
    }
  }

  /** The two digits of a byte: its high and its low nibble. */
  lemma PairOfByte(v: nat)
    requires v < 256
    ensures v / 16 < 16
    ensures Padded(v, 2) == [HexChar(v / 16), HexChar(v % 16)]
  {
    assert Padded(v, 2) == [HexChar(v / 16 % 16), HexChar(v % 16)];
  }

  // ---------------------------------------------------------------- hexToRgb / rgbToHex

  predicate AllHex(s: string) {
    forall i :: 0 <= i < |s| ==> IsHexDigit(s[i])
  }

  /** `/^#?([a-f\d]{2})([a-f\d]{2})([a-f\d]{2})$/i` */
  predicate MatchesColour(hex: string) {
    (|hex| == 7 && hex[0] == '#' && AllHex(hex[1..])) || (|hex| == 6 && AllHex(hex))
  }

  /** The six digits of a matching string. */
  function DigitsOf(hex: string): (d: string)
    requires MatchesColour(hex)
    ensures |d| == 6 && AllHex(d)
  {
    if |hex| == 7 then hex[1..] else hex
  }

  function PairAt(d: string, i: nat): nat
    requires i + 1 < |d| && IsHexDigit(d[i]) && IsHexDigit(d[i + 1])
  {
    16 * DigitValue(d[i]) + DigitValue(d[i + 1])
  }

  /** `hexToRgb`: the three bytes of a matching string, black otherwise. */
  function HexToRgb(hex: string): (c: Rgb)
    ensures InByteRange(c)
    ensures !MatchesColour(hex) ==> c == Rgb(0, 0, 0)
  {
    if MatchesColour(hex) then
      var d := DigitsOf(hex);
      Rgb(PairAt(d, 0), PairAt(d, 2), PairAt(d, 4))
    else Rgb(0, 0, 0)
  }

  /** The number `rgbToHex` formats; the shifts are exact for channels of up to 15 bits. */
  function Packed(r: int, g: int, b: int): int {
    0x100_0000 + r * 0x1_0000 + g * 0x100 + b
  }

  /** `rgbToHex` for integer channels (`Math.round` is then the identity). */
  function RgbToHex(r: int, g: int, b: int): (s: string)
    ensures |s| >= 1 && s[0] == '#'
  {
    var digits := ToString16(Packed(r, g, b));
    "#" + digits[1..]
  }

  /** The seven characters of a byte colour: `#` and two lower-case digits per channel. */
  function HexForm(c: Rgb): string
    requires InByteRange(c)
  {
    ['#', HexChar(c.r / 16), HexChar(c.r % 16), HexChar(c.g / 16), HexChar(c.g % 16),
     HexChar(c.b / 16), HexChar(c.b % 16)]
  }

  /** The digits of `a * 256 + c`, for a byte `c`, are those of `a` followed by two for `c`. */
  lemma PaddedByte(a: nat, c: nat, j: nat)
    requires c < 256
    ensures Padded(a * 256 + c, j + 2) == Padded(a, j) + Padded(c, 2)
  {
    Pow16Values();
    PaddedConcat(a, c, j, 2);
  }

  /** Six digits of three bytes are two digits per byte. */
  lemma ByteTriple(c: Rgb)
    requires InByteRange(c)
    ensures Padded(c.r * 0x1_0000 + c.g * 0x100 + c.b, 6) == Padded(c.r, 2) + Padded(c.g, 2) + Padded(c.b, 2)
  {
    var rg := c.r * 256 + c.g;
    PaddedByte(c.r, c.g, 2);
    PaddedByte(rg, c.b, 4);
    assert rg * 256 + c.b == c.r * 0x1_0000 + c.g * 0x100 + c.b;
  }

  /** For bytes, the packed number in base 16 is a `1` and two digits per channel. */
  lemma PackedDigits(c: Rgb)
    requires InByteRange(c)
    ensures Hex(Packed(c.r, c.g, c.b)) == "1" + Padded(c.r, 2) + Padded(c.g, 2) + Padded(c.b, 2)
  {
    var x := c.r * 0x1_0000 + c.g * 0x100 + c.b;
    Pow16Values();
    ByteTriple(c);
    LeadingOne(x, 6);
    assert Packed(c.r, c.g, c.b) == Pow16(6) + x;
  }

  /** For bytes, `rgbToHex` is `#` followed by two lower-case digits per channel. */
  lemma RgbToHexForm(c: Rgb)
    requires InByteRange(c)
    ensures RgbToHex(c.r, c.g, c.b) == HexForm(c)
  {
    PackedDigits(c);
    PairOfByte(c.r);
    PairOfByte(c.g);
    PairOfByte(c.b);
    var tail := Padded(c.r, 2) + Padded(c.g, 2) + Padded(c.b, 2);
    assert ("1" + tail)[1..] == tail;
  }

  /** A seven-character `#`-string of digits matches, and its pairs are read as written. */
  lemma ParseForm(s: string)
    requires |s| == 7 && s[0] == '#' && AllHex(s[1..])
    ensures MatchesColour(s)
    ensures HexToRgb(s) == Rgb(PairAt(s, 1), PairAt(s, 3), PairAt(s, 5))
  {
    var d := s[1..];
    assert d[0] == s[1] && d[1] == s[2] && d[2] == s[3] && d[3] == s[4] && d[4] == s[5] && d[5] == s[6];
  }

  /** Round trip: parsing a serialised colour gives back its channels. */
  lemma ParseSerialised(c: Rgb)
    requires InByteRange(c)
    ensures HexToRgb(RgbToHex(c.r, c.g, c.b)) == c
  {
    RgbToHexForm(c);
    var s := HexForm(c);
    assert forall i :: 1 <= i < 7 ==> IsHexDigit(s[i]);
    assert AllHex(s[1..]);
    ParseForm(s);
  }

  /** The `#`-form of a matching string in lower case. */
  function Canonical(hex: string): string
    requires MatchesColour(hex)
  {
    var d := DigitsOf(hex);
    "#" + [LowerDigit(d[0]), LowerDigit(d[1]), LowerDigit(d[2]), LowerDigit(d[3]), LowerDigit(d[4]), LowerDigit(d[5])]
  }

  /** Two digits read as a byte and written back are the lower-case digits. */
  lemma PairDigits(d: string, i: nat)
    requires i + 1 < |d| && IsHexDigit(d[i]) && IsHexDigit(d[i + 1])
    ensures PairAt(d, i) < 256 && PairAt(d, i) / 16 < 16
    ensures HexChar(PairAt(d, i) / 16) == LowerDigit(d[i])
    ensures HexChar(PairAt(d, i) % 16) == LowerDigit(d[i + 1])
  {
    var hi, lo := DigitValue(d[i]), DigitValue(d[i + 1]);
    DivMod16(hi, lo);
    assert PairAt(d, i) == 16 * hi + lo;
    HexCharOfValue(d[i]);
    HexCharOfValue(d[i + 1]);
  }

  /** Round trip: serialising a parsed colour gives its lower-case `#`-form. */
  lemma SerialiseParsed(hex: string)
    requires MatchesColour(hex)
    ensures var c := HexToRgb(hex); RgbToHex(c.r, c.g, c.b) == Canonical(hex)
  {
    var c := HexToRgb(hex);
    var d := DigitsOf(hex);
    assert c == Rgb(PairAt(d, 0), PairAt(d, 2), PairAt(d, 4));
    PairDigits(d, 0);
    PairDigits(d, 2);
    PairDigits(d, 4);
    RgbToHexForm(c);
  }

  // ---------------------------------------------------------------- tints

  /** A colour with a tint added channel by channel. */
  function Tinted(c: Rgb, tint: Rgb): Rgb {
    Rgb(c.r + tint.r, c.g + tint.g, c.b + tint.b)
  }

  function CapHigh(v: int): (r: int)
    ensures r <= 255 && (v <= 255 ==> r == v)
  {
    if v <= 255 then v else 255
  }

  /** `applyColorTint`: add the tint per channel and cap each at 255; there is no lower bound. */
  function ApplyColorTint(hex: string, tint: Rgb): string {
    var t := Tinted(HexToRgb(hex), tint);
    RgbToHex(CapHigh(t.r), CapHigh(t.g), CapHigh(t.b))
  }

  /** `getLayerTints`: melody adds (20, 0, 15), drums (25, -5, 0). */
  function LayerTints(drums: bool, melody: bool): (t: Rgb)
    ensures !drums && !melody ==> t == Rgb(0, 0, 0)
    ensures melody && !drums ==> t == Rgb(20, 0, 15)
    ensures drums && !melody ==> t == Rgb(25, -5, 0)
    ensures drums && melody ==> t == Rgb(45, -5, 15)
  {
    var t0 := Rgb(0, 0, 0);
    var t1 := if melody then t0.(r := t0.r + 20, b := t0.b + 15) else t0;
    if drums then t1.(r := t1.r + 25, g := t1.g - 5) else t1
  }

  /** With no layer playing the tint leaves a colour's lower-case form unchanged. */
  lemma NoTintIsCanonical(hex: string)
    requires MatchesColour(hex)
    ensures ApplyColorTint(hex, LayerTints(false, false)) == Canonical(hex)
  {
    SerialiseParsed(hex);
    assert Tinted(HexToRgb(hex), Rgb(0, 0, 0)) == HexToRgb(hex);
  }

  /** A tint that keeps every channel a byte is parsed back exactly. */
  lemma TintedWithinBytes(hex: string, tint: Rgb)
    requires InByteRange(Tinted(HexToRgb(hex), tint))
    ensures HexToRgb(ApplyColorTint(hex, tint)) == Tinted(HexToRgb(hex), tint)
  {
    var t := Tinted(HexToRgb(hex), tint);
    assert RgbToHex(CapHigh(t.r), CapHigh(t.g), CapHigh(t.b)) == RgbToHex(t.r, t.g, t.b);
    ParseSerialised(t);
  }

  /**
   * As written, a negative green borrows from red in the packed number: the string
   * `rgbToHex` writes is read back with red one lower and green wrapped past zero.
   */
  lemma NegativeGreenBorrows(c: Rgb)
    requires 1 <= c.r < 256 && -256 <= c.g < 0 && 0 <= c.b < 256
    ensures HexToRgb(RgbToHex(c.r, c.g, c.b)) == Rgb(c.r - 1, c.g + 256, c.b)
  {
    var drawn := Rgb(c.r - 1, c.g + 256, c.b);
    assert Packed(c.r, c.g, c.b) == Packed(drawn.r, drawn.g, drawn.b);
    ParseSerialised(drawn);
  }

  /** The club theme's `#ff00ff` under the drums tint is drawn as `#fefbff`, not a tinted magenta. */
  lemma ClubDrumsTintBorrows(club: string)
    requires club == "#ff00ff"
    ensures HexToRgb(ApplyColorTint(club, LayerTints(true, false))) == Rgb(254, 251, 255)
  {
    ParseForm(club);
    assert HexToRgb(club) == Rgb(255, 0, 255);
    NegativeGreenBorrows(Rgb(255, -5, 255));
  }

  function Byte(v: int): (r: int)
    ensures 0 <= r < 256
    ensures 0 <= v < 256 ==> r == v
    ensures v < 0 ==> r == 0
    ensures v > 255 ==> r == 255
  {
    if v < 0 then 0 else if v > 255 then 255 else v
  }

  /** A colour with each channel clamped into 0 .. 255. */
  function Clamped(c: Rgb): (k: Rgb)
    ensures InByteRange(k)
    ensures InByteRange(c) ==> k == c
  {
    Rgb(Byte(c.r), Byte(c.g), Byte(c.b))
  }

  /** The evidently intended tint: every channel clamped into 0 .. 255, so parsing it back gives that colour. */
  function ApplyColorTintClamped(hex: string, tint: Rgb): (s: string)
    ensures HexToRgb(s) == Clamped(Tinted(HexToRgb(hex), tint))
  {
    var k := Clamped(Tinted(HexToRgb(hex), tint));
    ParseSerialised(k);
    RgbToHex(k.r, k.g, k.b)
  }

  /** With the clamp the drums tint keeps the club magenta magenta. */
  lemma ClubDrumsTintClamped(club: string)
    requires club == "#ff00ff"
    ensures HexToRgb(ApplyColorTintClamped(club, LayerTints(true, false))) == Rgb(255, 0, 255)
  {
    ParseForm(club);
    assert HexToRgb(club) == Rgb(255, 0, 255);
  }

  /** Where no channel goes below zero, the clamped tint is the tint as written. */
  lemma ClampedAgreesInRange(hex: string, tint: Rgb)
    requires var t := Tinted(HexToRgb(hex), tint); 0 <= t.r && 0 <= t.g && 0 <= t.b
    ensures ApplyColorTintClamped(hex, tint) == ApplyColorTint(hex, tint)
  {
    var t := Tinted(HexToRgb(hex), tint);
    assert Clamped(t) == Rgb(CapHigh(t.r), CapHigh(t.g), CapHigh(t.b));
  }
}
