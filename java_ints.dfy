/** The bounds of Java's 32-bit `int`, shared by every part of the model. */
module JavaInts {
  /** Java's Integer.MAX_VALUE: the widest component a Swing view can have, and the largest data length. */
  const INT_MAX: int := 0x7fff_ffff
  /** Java's Integer.MIN_VALUE. */
  const INT_MIN: int := -0x8000_0000
}
