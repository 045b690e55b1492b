/** Fixed-width unsigned integers of the C sources, as ranges of `int`,
    and the Option wrapper used for "no value". */
module Ints {

  /** uint8_t: one byte on the SPI bus. */
  newtype byte = x: int | 0 <= x < 0x100

  /** uint16_t: panel coordinates, widths and heights. */
  newtype u16 = x: int | 0 <= x < 0x1_0000

  /** uint32_t: baud rates and clock frequencies. */
  newtype u32 = x: int | 0 <= x < 0x1_0000_0000

  datatype Option<+T> = None | Some(value: T)

  function Min(a: int, b: int): (m: int)
    ensures m <= a && m <= b && (m == a || m == b)
  {
    if a < b then a else b
  }

  /** The high byte of a 16-bit word, `(v >> 8) & 0xFF` in C. */
  function HighByte(v: u16): byte
  {
    (v / 256) as byte
  }

  /** The low byte of a 16-bit word, `v & 0xFF` in C. */
  function LowByte(v: u16): byte
  {
    (v % 256) as byte
  }

  /** The big-endian word two bytes stand for. */
  function Word(hi: byte, lo: byte): u16
  {
    (hi as int * 256 + lo as int) as u16
  }

  /** Splitting a word into its big-endian bytes and joining them again gives the word back. */
  lemma WordRoundTrip(v: u16)
    ensures Word(HighByte(v), LowByte(v)) == v
  {
  }

  /** The bytes determine the word: two different words never split into the same bytes. */
  lemma {:induction false} SplitInjective(v: u16, w: u16)
    requires HighByte(v) == HighByte(w) && LowByte(v) == LowByte(w)
    ensures v == w
  {
    WordRoundTrip(v);
    WordRoundTrip(w);
  }

  lemma DivMod256(n: int, q: int, r: int)
    requires q * 256 + r == n && 0 <= r < 256
    ensures n / 256 == q && n % 256 == r
  {
  }

  /** The arithmetic split agrees with the C bit operations `(v >> 8) & 0xFF` and `v & 0xFF`
      for every 16-bit pattern. */
  lemma SplitIsShiftAndMask(w: bv16)
    ensures HighByte(w as int as u16) as int == ((w >> 8) & 0xFF) as int
    ensures LowByte(w as int as u16) as int == (w & 0xFF) as int
  {
    var q, r := ((w >> 8) & 0xFF) as int, (w & 0xFF) as int;
    assert q * 256 + r == w as int;
    DivMod256(w as int, q, r);
  }
}
