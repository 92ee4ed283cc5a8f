/**
 * Packing of three 8-bit colour components into one 24-bit colour number,
 * its inverse, and the named colour constants (dmx.ts).
 *
 * The source computes with JavaScript's bitwise operators, which first convert
 * their operand to a 32-bit two's-complement integer. For an integer x the bits
 * k .. k+7 of that 32-bit pattern are `(x / 2^k) % 256` (floor division), so the
 * model states the operations over `int` with Dafny's Euclidean `/` and `%`,
 * which agree with floor division for a positive divisor.
 */
module ColorPacking {

  /** The well-known colour constants offered to the block editor. */
  datatype Color = Red | Orange | Yellow | Green | Blue | Purple | White | Black

  /** The numeric value of a named colour; `colors` hands the enum value back unchanged. */
  function Colors(color: Color): (v: int)
    ensures 0 <= v <= 0xFFFFFF
  {
    match color
    case Red => 0xFF0000
    case Orange => 0xFFA500
    case Yellow => 0xFFFF00
    case Green => 0x00FF00
    case Blue => 0x0000FF
    case Purple => 0xFF00FF
    case White => 0xFFFFFF
    case Black => 0x000000
  }

  /** The low 8 bits of an integer, which is what `x & 0xFF` (or `x & 255`) keeps. */
  function LowByte(x: int): (b: int)
    ensures 0 <= b < 256
    ensures (x - b) % 256 == 0
  {
    x % 256
  }

  /** `rgb`: mask each component to 8 bits and pack red, green, blue from high to low byte. */
  function Rgb(red: int, green: int, blue: int): (c: int)
    ensures 0 <= c <= 0xFFFFFF
  {
    LowByte(red) * 0x10000 + LowByte(green) * 0x100 + LowByte(blue)
  }

  /** `hexToRgb`: the three bytes 16..23, 8..15 and 0..7 of a colour number. */
  function HexToRgb(hex: int): (s: seq<int>)
    ensures |s| == 3
    ensures forall k :: 0 <= k < |s| ==> 0 <= s[k] < 256
  {
    [LowByte(hex / 0x10000), LowByte(hex / 0x100), LowByte(hex)]
  }

  /** Unpacking a packed colour gives back the low byte of each component. */
  lemma RgbRoundTrip(red: int, green: int, blue: int)
    ensures HexToRgb(Rgb(red, green, blue)) == [LowByte(red), LowByte(green), LowByte(blue)]
  {
    var r, g, b := LowByte(red), LowByte(green), LowByte(blue);
    var c := r * 0x10000 + g * 0x100 + b;
    assert c / 0x10000 == r;
    assert c / 0x100 == r * 0x100 + g;
    assert LowByte(r * 0x100 + g) == g;
  }

  /** For components already in [0, 255], unpacking returns exactly the components. */
  lemma RgbRoundTripInRange(red: int, green: int, blue: int)
    requires 0 <= red < 256 && 0 <= green < 256 && 0 <= blue < 256
    ensures HexToRgb(Rgb(red, green, blue)) == [red, green, blue]
  {
    RgbRoundTrip(red, green, blue);
    assert LowByte(red) == red && LowByte(green) == green && LowByte(blue) == blue;
  }

  /** `rgb` reads only the low 8 bits of each component. */
  lemma RgbUsesLowBytesOnly(red: int, green: int, blue: int, red': int, green': int, blue': int)
    requires LowByte(red) == LowByte(red') && LowByte(green) == LowByte(green') && LowByte(blue) == LowByte(blue')
    ensures Rgb(red, green, blue) == Rgb(red', green', blue')
  {
  }

  /** Re-packing the unpacked components gives the low 24 bits of the colour number. */
  lemma HexToRgbRoundTrip(hex: int)
    ensures Rgb(HexToRgb(hex)[0], HexToRgb(hex)[1], HexToRgb(hex)[2]) == hex % 0x1000000
  {
    var q := hex / 0x100;
    var b := hex % 0x100;
    assert hex == q * 0x100 + b;
    var q2 := q / 0x100;
    var g := q % 0x100;
    assert q == q2 * 0x100 + g;
    assert hex / 0x10000 == q2;
    var r := q2 % 0x100;
    assert hex == (q2 / 0x100) * 0x1000000 + r * 0x10000 + g * 0x100 + b;
    assert hex % 0x1000000 == r * 0x10000 + g * 0x100 + b;
    assert HexToRgb(hex) == [r, g, b];
  }

  /** On 24-bit colour numbers `rgb` and `hexToRgb` are mutually inverse. */
  lemma HexToRgbRoundTripInRange(hex: int)
    requires 0 <= hex <= 0xFFFFFF
    ensures Rgb(HexToRgb(hex)[0], HexToRgb(hex)[1], HexToRgb(hex)[2]) == hex
  {
    HexToRgbRoundTrip(hex);
  }

  /** Distinct named colours have distinct numeric values. */
  lemma ColorsInjective(a: Color, b: Color)
    ensures Colors(a) == Colors(b) <==> a == b
  {
  }
}
