/**
  The colour helper of the Tk settings window: an (R, G, B) triple written as
  a Tk colour string `#rrggbb`. The window itself (widgets, fonts, images) is
  not part of this model.
*/
module SettingsTk {
  import opened PyText

  /** rgb_to_hex: '#' followed by each component in the `{:02x}` format. */
  function RgbToHex(r: int, g: int, b: int): (s: string)
    ensures |s| >= 7 && s[0] == '#'
  {
    "#" + Format02x(r) + Format02x(g) + Format02x(b)
  }

  /**
    For components in 0..255 the colour string has exactly seven characters,
    each two-character group after the '#' is lowercase hexadecimal, and
    reading the groups back gives R, G and B.
  */
  lemma RgbToHexRoundTrip(r: int, g: int, b: int)
    requires 0 <= r <= 255 && 0 <= g <= 255 && 0 <= b <= 255
    ensures |RgbToHex(r, g, b)| == 7
    ensures forall k :: 1 <= k < 7 ==> IsHexDigit(RgbToHex(r, g, b)[k])
    ensures HexValue(RgbToHex(r, g, b)[1..3]) == r
    ensures HexValue(RgbToHex(r, g, b)[3..5]) == g
    ensures HexValue(RgbToHex(r, g, b)[5..7]) == b
  {
    Format02xByte(r);
    Format02xByte(g);
    Format02xByte(b);
    var s := RgbToHex(r, g, b);
    assert s[1..3] == Format02x(r);
    assert s[3..5] == Format02x(g);
    assert s[5..7] == Format02x(b);
  }
}
