/** Colours as the Win32 COLORREF layout the shell uses: a `u32` holding
    red in bits 0-7, green in bits 8-15 and blue in bits 16-23. */
module Colour {

  /** The shell's `rgb(r, g, b)`: `r | g << 8 | b << 16` on `u32`. */
  function Rgb(r: bv8, g: bv8, b: bv8): (c: bv32)
    ensures Red(c) == r && Green(c) == g && Blue(c) == b
    ensures c >> 24 == 0
  {
    (r as bv32) | ((g as bv32) << 8) | ((b as bv32) << 16)
  }

  /** `color & 0xFF` */
  function Red(c: bv32): bv8 {
    (c & 0xFF) as bv8
  }

  /** `(color >> 8) & 0xFF` */
  function Green(c: bv32): bv8 {
    ((c >> 8) & 0xFF) as bv8
  }

  /** `(color >> 16) & 0xFF` */
  function Blue(c: bv32): bv8 {
    ((c >> 16) & 0xFF) as bv8
  }

  /** The other direction of the round trip: a colour with an empty top
      byte is rebuilt exactly from its three channels. */
  lemma RgbOfChannels(c: bv32)
    requires c >> 24 == 0
    ensures Rgb(Red(c), Green(c), Blue(c)) == c
  {
  }
}
