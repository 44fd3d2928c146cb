/**
 * Conversion of 24-bit RGB colours to the controller's 16-bit RGB565 format:
 * five bits of red in bits 15..11, six bits of green in bits 10..5 and five
 * bits of blue in bits 4..0.
 */
module Color {
  import opened Wire

  /**
   * rgb888_to_rgb565: `((r >> 3) << 11) | ((g >> 2) << 5) | (b >> 3)`.  The
   * three fields do not overlap, so the OR is a sum.
   */
  function Rgb888ToRgb565(r: Byte, g: Byte, b: Byte): (c: Word)
  {
    (r / 8) * 0x800 + (g / 4) * 0x20 + b / 8
  }

  /**
   * The packed value fits 16 bits, so nothing is lost when the driver returns
   * it as a uint16_t, and each field holds the top bits of its channel.
   */
  lemma Rgb565Fields(r: Byte, g: Byte, b: Byte)
    ensures Rgb888ToRgb565(r, g, b) < 0x1_0000
    ensures Rgb888ToRgb565(r, g, b) / 0x800 == r / 8        // c >> 11 == r >> 3
    ensures Rgb888ToRgb565(r, g, b) / 0x20 % 0x40 == g / 4  // (c >> 5) & 0x3F == g >> 2
    ensures Rgb888ToRgb565(r, g, b) % 0x20 == b / 8         // c & 0x1F == b >> 3
  {
    DivMod(r / 8, (g / 4) * 0x20 + b / 8, 0x800);
    DivMod((r / 8) * 0x40 + g / 4, b / 8, 0x20);
    DivMod(r / 8, g / 4, 0x40);
  }

  /** The 24-bit colour an RGB565 value stands for, with the dropped low bits zero. */
  function Rgb565ToRgb888(c: Word): (Byte, Byte, Byte)
  {
    ((c / 0x800) * 8, (c / 0x20 % 0x40) * 4, (c % 0x20) * 8)
  }

  /** Every 16-bit value is the packing of the colour it stands for. */
  lemma Rgb565RoundTrip(c: Word)
    ensures Rgb888ToRgb565(Rgb565ToRgb888(c).0, Rgb565ToRgb888(c).1, Rgb565ToRgb888(c).2) == c
  {
    var red, m := c / 0x800, c % 0x800;
    var green, blue := m / 0x20, m % 0x20;
    DivMod(red * 0x40 + green, blue, 0x20);
    DivMod(red, green, 0x40);
    DivMod(red, 0, 8);
    DivMod(green, 0, 4);
    DivMod(blue, 0, 8);
  }

  /** Packing and unpacking keeps exactly the high bits of each channel. */
  lemma Rgb565KeepsHighBits(r: Byte, g: Byte, b: Byte)
    ensures Rgb565ToRgb888(Rgb888ToRgb565(r, g, b)) == (r - r % 8, g - g % 4, b - b % 8)
  {
    Rgb565Fields(r, g, b);
  }

  // The four colours below: black, white, pure red, and the colour the
  // application fills the screen with.

  lemma Rgb565Black()
    ensures Rgb888ToRgb565(0, 0, 0) == 0x0000
  {
  }

  lemma Rgb565White()
    ensures Rgb888ToRgb565(255, 255, 255) == 0xFFFF
  {
  }

  lemma Rgb565Red()
    ensures Rgb888ToRgb565(255, 0, 0) == 0xF800
  {
  }

  lemma Rgb565AppColor()
    ensures Rgb888ToRgb565(210, 132, 120) == 0xD42F
  {
  }
}
