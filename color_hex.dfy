/**
 * The integer part of `Color.init(hex:)`: splitting a scanned 64-bit
 * `rgb` value into its red, green and blue bytes.
 */
module ColorHex {

  /** `(rgb >> 16) & 0xFF`: bits 16-23 of `rgb`. */
  function Red(rgb: bv64): (r: bv64)
    ensures r <= 0xFF
    ensures r << 16 == rgb & 0xFF_0000
  {
    (rgb >> 16) & 0xFF
  }

  /** `(rgb >> 8) & 0xFF`: bits 8-15 of `rgb`. */
  function Green(rgb: bv64): (g: bv64)
    ensures g <= 0xFF
    ensures g << 8 == rgb & 0xFF00
  {
    (rgb >> 8) & 0xFF
  }

  /** `rgb & 0xFF`: bits 0-7 of `rgb`. */
  function Blue(rgb: bv64): (b: bv64)
    ensures b <= 0xFF
    ensures b == rgb & 0xFF
  {
    rgb & 0xFF
  }

  /**
   * The three channels hold exactly the low 24 bits of `rgb`, so a colour
   * of six hex digits is put back together from them; higher bits are
   * dropped.
   */
  lemma Recompose(rgb: bv64)
    ensures (Red(rgb) << 16) | (Green(rgb) << 8) | Blue(rgb) == rgb & 0xFF_FFFF
    ensures rgb <= 0xFF_FFFF ==> (Red(rgb) << 16) | (Green(rgb) << 8) | Blue(rgb) == rgb
  {
  }
}
