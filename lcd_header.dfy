/** The constants of the PicoCalc display header: the RGB565 palette and the
    controller's command opcodes. */
module LcdHeader {
  import opened Ints

  // ---------------------------------------------------------------------------
  // RGB565 colours: red in bits 15-11, green in bits 10-5, blue in bits 4-0.
  // ---------------------------------------------------------------------------

  type Color = bv16

  const WHITE: Color := 0xFFFF
  const BLACK: Color := 0x0000
  const RED: Color := 0xF800
  const GREEN: Color := 0x07E0
  const BLUE: Color := 0x001F
  const YELLOW: Color := 0xFFE0
  const CYAN: Color := 0x07FF
  const MAGENTA: Color := 0xF81F
  const GRAY: Color := 0x8410

  /** The 5-bit red intensity of a colour. */
  function Red5(c: Color): (r: bv16)
    ensures r < 32
  {
    (c >> 11) & 0x1F
  }

  /** The 6-bit green intensity of a colour. */
  function Green6(c: Color): (g: bv16)
    ensures g < 64
  {
    (c >> 5) & 0x3F
  }

  /** The 5-bit blue intensity of a colour. */
  function Blue5(c: Color): (b: bv16)
    ensures b < 32
  {
    c & 0x1F
  }

  /** The colour with the given channel intensities. */
  function Pack(r: bv16, g: bv16, b: bv16): Color
    requires r < 32 && g < 64 && b < 32
  {
    (r << 11) | (g << 5) | b
  }

  /** Packing and unpacking are inverse: a colour is exactly its three channels. */
  lemma PackUnpack(c: Color, r: bv16, g: bv16, b: bv16)
    requires r < 32 && g < 64 && b < 32
    ensures Pack(Red5(c), Green6(c), Blue5(c)) == c
    ensures Red5(Pack(r, g, b)) == r && Green6(Pack(r, g, b)) == g && Blue5(Pack(r, g, b)) == b
  {
  }

  /** RED, GREEN and BLUE are pairwise disjoint masks that together cover the word. */
  lemma PrimariesPartitionTheWord()
    ensures RED & GREEN == 0 && GREEN & BLUE == 0 && RED & BLUE == 0
    ensures RED | GREEN | BLUE == WHITE
  {
  }

  /** Each primary masks exactly its channel field: red is bits 15-11, green bits 10-5
      and blue bits 4-0 of every colour. */
  lemma PrimariesAreChannelFields(c: Color)
    ensures c & RED == Red5(c) << 11
    ensures c & GREEN == Green6(c) << 5
    ensures c & BLUE == Blue5(c)
  {
  }

  /** The secondary colours are unions of two primaries. */
  lemma SecondariesAreUnions()
    ensures YELLOW == RED | GREEN
    ensures CYAN == GREEN | BLUE
    ensures MAGENTA == RED | BLUE
  {
  }

  /** The channel intensities of every named colour; GRAY sets only the top bit of
      each channel (bits 15, 10 and 4), i.e. half of each channel's full scale. */
  lemma PaletteChannels()
    ensures Red5(WHITE) == 31 && Green6(WHITE) == 63 && Blue5(WHITE) == 31
    ensures Red5(BLACK) == 0 && Green6(BLACK) == 0 && Blue5(BLACK) == 0
    ensures Red5(RED) == 31 && Green6(RED) == 0 && Blue5(RED) == 0
    ensures Red5(GREEN) == 0 && Green6(GREEN) == 63 && Blue5(GREEN) == 0
    ensures Red5(BLUE) == 0 && Green6(BLUE) == 0 && Blue5(BLUE) == 31
    ensures Red5(YELLOW) == 31 && Green6(YELLOW) == 63 && Blue5(YELLOW) == 0
    ensures Red5(CYAN) == 0 && Green6(CYAN) == 63 && Blue5(CYAN) == 31
    ensures Red5(MAGENTA) == 31 && Green6(MAGENTA) == 0 && Blue5(MAGENTA) == 31
    ensures Red5(GRAY) == 16 && Green6(GRAY) == 32 && Blue5(GRAY) == 16
    ensures GRAY == (1 << 15) | (1 << 10) | (1 << 4)
  {
  }

  /** The byte sent first for a pixel of this colour: `(color >> 8) & 0xFF`. */
  function ColorHigh(c: Color): byte
  {
    ((c >> 8) & 0xFF) as int as byte
  }

  /** The byte sent second for a pixel of this colour: `color & 0xFF`. */
  function ColorLow(c: Color): byte
  {
    (c & 0xFF) as int as byte
  }

  /** The two pixel bytes are the big-endian halves of the colour's value. */
  lemma ColorBytes(c: Color)
    ensures Word(ColorHigh(c), ColorLow(c)) as int == c as int
  {
  }

  // ---------------------------------------------------------------------------
  // Controller opcodes: standard commands, then extended (EXTC) commands.
  // ---------------------------------------------------------------------------

  /** One constructor per `PC_LCD_*` opcode constant of the header, in header order. */
  datatype Opcode =
    | NOP | SWRESET | RDID | RDNUMED | RDDST | RDDPM | RDDMADCTL | RDDCOLMOD | RDDIM | RDDSM
    | RDDSDR | SLPIN | SLPOUT | PTLON | NORON | INVON | INVOFF | ALLPOFF | ALLPON | DISPOFF
    | DISPON | CASET | PASET | RAMWR | RAMRD | PTLAR | VSCRDEF | TEOFF | TEON | MADCTL
    | VSCRSADD | IDMOFF | IDMON | COLMOD | RAMWRC | RAMRDRC | TESLWR | TESLRD | WRDISBV
    | RDDISBV | WRCTRLD | RDCTRLD | WRCABC | RDCABC | WRCABCMB | RDCABCMB | RDABCSDR | RDID1
    | RDID2 | RDID3 | IFMODE | FRMCTR1 | FRMCTR2 | FRMCTR3 | INVTR | PRCTR | DISCTRL | ETMOD
    | CECTRL1 | CECTRL2 | HSLCTRL | PWCTRL1 | PWCTRL2 | PWCTRL3 | PWCTRL4 | PWCTRL5 | VMCTRL
    | CABCCTRL1 | CABCCTRL2 | CABCCTRL3 | CABCCTRL4 | CABCCTRL5 | CABCCTRL6 | CABCCTRL7
    | CABCCTRL8 | CABCCTRL9 | NVMWR | NVMPKEY | NVMRD | RDID4 | ADJCTRL1 | RDIDVER | PGAMCTRL
    | NGAMCTRL | DGAMCTRL1 | DGAMCTRL2 | SETIMAGE | ADJCTRL2 | ADJCTRL3 | ADJCTRL4 | ADJCTRL5
    | SET_SPI_READCMD | ADJCTRL6 | ADJCTRL7

  /** The byte the controller receives for each opcode. */
  function Code(op: Opcode): byte
  {
    match op
    case NOP => 0x00
    case SWRESET => 0x01
    case RDID => 0x04
    case RDNUMED => 0x05
    case RDDST => 0x09
    case RDDPM => 0x0A
    case RDDMADCTL => 0x0B
    case RDDCOLMOD => 0x0C
    case RDDIM => 0x0D
    case RDDSM => 0x0E
    case RDDSDR => 0x0F
    case SLPIN => 0x10
    case SLPOUT => 0x11
    case PTLON => 0x12
    case NORON => 0x13
    case INVON => 0x20
    case INVOFF => 0x21
    case ALLPOFF => 0x22
    case ALLPON => 0x23
    case DISPOFF => 0x28
    case DISPON => 0x29
    case CASET => 0x2A
    case PASET => 0x2B
    case RAMWR => 0x2C
    case RAMRD => 0x2E
    case PTLAR => 0x30
    case VSCRDEF => 0x33
    case TEOFF => 0x34
    case TEON => 0x35
    case MADCTL => 0x36
    case VSCRSADD => 0x37
    case IDMOFF => 0x38
    case IDMON => 0x39
    case COLMOD => 0x3A
    case RAMWRC => 0x3C
    case RAMRDRC => 0x3E
    case TESLWR => 0x44
    case TESLRD => 0x45
    case WRDISBV => 0x51
    case RDDISBV => 0x52
    case WRCTRLD => 0x53
    case RDCTRLD => 0x54
    case WRCABC => 0x55
    case RDCABC => 0x56
    case WRCABCMB => 0x5E
    case RDCABCMB => 0x5F
    case RDABCSDR => 0x68
    case RDID1 => 0xDA
    case RDID2 => 0xDB
    case RDID3 => 0xDC
    case IFMODE => 0xB0
    case FRMCTR1 => 0xB1
    case FRMCTR2 => 0xB2
    case FRMCTR3 => 0xB3
    case INVTR => 0xB4
    case PRCTR => 0xB5
    case DISCTRL => 0xB6
    case ETMOD => 0xB7
    case CECTRL1 => 0xB9
    case CECTRL2 => 0xBA
    case HSLCTRL => 0xBE
    case PWCTRL1 => 0xC0
    case PWCTRL2 => 0xC1
    case PWCTRL3 => 0xC2
    case PWCTRL4 => 0xC3
    case PWCTRL5 => 0xC4
    case VMCTRL => 0xC5
    case CABCCTRL1 => 0xC6
    case CABCCTRL2 => 0xC8
    case CABCCTRL3 => 0xC9
    case CABCCTRL4 => 0xCA
    case CABCCTRL5 => 0xCB
    case CABCCTRL6 => 0xCC
    case CABCCTRL7 => 0xCD
    case CABCCTRL8 => 0xCE
    case CABCCTRL9 => 0xCF
    case NVMWR => 0xD0
    case NVMPKEY => 0xD1
    case NVMRD => 0xD2
    case RDID4 => 0xD3
    case ADJCTRL1 => 0xD7
    case RDIDVER => 0xD8
    case PGAMCTRL => 0xE0
    case NGAMCTRL => 0xE1
    case DGAMCTRL1 => 0xE2
    case DGAMCTRL2 => 0xE3
    case SETIMAGE => 0xE9
    case ADJCTRL2 => 0xF2
    case ADJCTRL3 => 0xF7
    case ADJCTRL4 => 0xF8
    case ADJCTRL5 => 0xF9
    case SET_SPI_READCMD => 0xFB
    case ADJCTRL6 => 0xFC
    case ADJCTRL7 => 0xFF
  }

  /** The opcode a command byte names, if any. */
  function FromCode(b: byte): Option<Opcode>
  {
    match b
    case 0x00 => Some(NOP)
    case 0x01 => Some(SWRESET)
    case 0x04 => Some(RDID)
    case 0x05 => Some(RDNUMED)
    case 0x09 => Some(RDDST)
    case 0x0A => Some(RDDPM)
    case 0x0B => Some(RDDMADCTL)
    case 0x0C => Some(RDDCOLMOD)
    case 0x0D => Some(RDDIM)
    case 0x0E => Some(RDDSM)
    case 0x0F => Some(RDDSDR)
    case 0x10 => Some(SLPIN)
    case 0x11 => Some(SLPOUT)
    case 0x12 => Some(PTLON)
    case 0x13 => Some(NORON)
    case 0x20 => Some(INVON)
    case 0x21 => Some(INVOFF)
    case 0x22 => Some(ALLPOFF)
    case 0x23 => Some(ALLPON)
    case 0x28 => Some(DISPOFF)
    case 0x29 => Some(DISPON)
    case 0x2A => Some(CASET)
    case 0x2B => Some(PASET)
    case 0x2C => Some(RAMWR)
    case 0x2E => Some(RAMRD)
    case 0x30 => Some(PTLAR)
    case 0x33 => Some(VSCRDEF)
    case 0x34 => Some(TEOFF)
    case 0x35 => Some(TEON)
    case 0x36 => Some(MADCTL)
    case 0x37 => Some(VSCRSADD)
    case 0x38 => Some(IDMOFF)
    case 0x39 => Some(IDMON)
    case 0x3A => Some(COLMOD)
    case 0x3C => Some(RAMWRC)
    case 0x3E => Some(RAMRDRC)
    case 0x44 => Some(TESLWR)
    case 0x45 => Some(TESLRD)
    case 0x51 => Some(WRDISBV)
    case 0x52 => Some(RDDISBV)
    case 0x53 => Some(WRCTRLD)
    case 0x54 => Some(RDCTRLD)
    case 0x55 => Some(WRCABC)
    case 0x56 => Some(RDCABC)
    case 0x5E => Some(WRCABCMB)
    case 0x5F => Some(RDCABCMB)
    case 0x68 => Some(RDABCSDR)
    case 0xDA => Some(RDID1)
    case 0xDB => Some(RDID2)
    case 0xDC => Some(RDID3)
    case 0xB0 => Some(IFMODE)
    case 0xB1 => Some(FRMCTR1)
    case 0xB2 => Some(FRMCTR2)
    case 0xB3 => Some(FRMCTR3)
    case 0xB4 => Some(INVTR)
    case 0xB5 => Some(PRCTR)
    case 0xB6 => Some(DISCTRL)
    case 0xB7 => Some(ETMOD)
    case 0xB9 => Some(CECTRL1)
    case 0xBA => Some(CECTRL2)
    case 0xBE => Some(HSLCTRL)
    case 0xC0 => Some(PWCTRL1)
    case 0xC1 => Some(PWCTRL2)
    case 0xC2 => Some(PWCTRL3)
    case 0xC3 => Some(PWCTRL4)
    case 0xC4 => Some(PWCTRL5)
    case 0xC5 => Some(VMCTRL)
    case 0xC6 => Some(CABCCTRL1)
    case 0xC8 => Some(CABCCTRL2)
    case 0xC9 => Some(CABCCTRL3)
    case 0xCA => Some(CABCCTRL4)
    case 0xCB => Some(CABCCTRL5)
    case 0xCC => Some(CABCCTRL6)
    case 0xCD => Some(CABCCTRL7)
    case 0xCE => Some(CABCCTRL8)
    case 0xCF => Some(CABCCTRL9)
    case 0xD0 => Some(NVMWR)
    case 0xD1 => Some(NVMPKEY)
    case 0xD2 => Some(NVMRD)
    case 0xD3 => Some(RDID4)
    case 0xD7 => Some(ADJCTRL1)
    case 0xD8 => Some(RDIDVER)
    case 0xE0 => Some(PGAMCTRL)
    case 0xE1 => Some(NGAMCTRL)
    case 0xE2 => Some(DGAMCTRL1)
    case 0xE3 => Some(DGAMCTRL2)
    case 0xE9 => Some(SETIMAGE)
    case 0xF2 => Some(ADJCTRL2)
    case 0xF7 => Some(ADJCTRL3)
    case 0xF8 => Some(ADJCTRL4)
    case 0xF9 => Some(ADJCTRL5)
    case 0xFB => Some(SET_SPI_READCMD)
    case 0xFC => Some(ADJCTRL6)
    case 0xFF => Some(ADJCTRL7)
    case _ => None
  }

  // FromCodeInvertsCode for one range of opcode bytes at a time, to keep each proof small.

  lemma FromCodeInvertsCodeIn0(op: Opcode)
    requires Code(op) < 0x0C
    ensures FromCode(Code(op)) == Some(op)
  {
  }

  lemma FromCodeInvertsCodeIn1(op: Opcode)
    requires 0x0C <= Code(op) < 0x18
    ensures FromCode(Code(op)) == Some(op)
  {
  }

  lemma FromCodeInvertsCodeIn2(op: Opcode)
    requires 0x18 <= Code(op) < 0x24
    ensures FromCode(Code(op)) == Some(op)
  {
  }

  lemma FromCodeInvertsCodeIn3(op: Opcode)
    requires 0x24 <= Code(op) < 0x30
    ensures FromCode(Code(op)) == Some(op)
  {
  }

  lemma FromCodeInvertsCodeIn4(op: Opcode)
    requires 0x30 <= Code(op) < 0x3C
    ensures FromCode(Code(op)) == Some(op)
  {
  }

  lemma FromCodeInvertsCodeIn5(op: Opcode)
    requires 0x3C <= Code(op) < 0x48
    ensures FromCode(Code(op)) == Some(op)
  {
  }

  lemma FromCodeInvertsCodeIn6(op: Opcode)
    requires 0x48 <= Code(op) < 0x54
    ensures FromCode(Code(op)) == Some(op)
  {
  }

  lemma FromCodeInvertsCodeIn7(op: Opcode)
    requires 0x54 <= Code(op) < 0x60
    ensures FromCode(Code(op)) == Some(op)
  {
  }

  lemma FromCodeInvertsCodeIn8(op: Opcode)
    requires 0x60 <= Code(op) < 0xC0
    ensures FromCode(Code(op)) == Some(op)
  {
  }

  lemma FromCodeInvertsCodeIn9(op: Opcode)
    requires 0xC0 <= Code(op) < 0xD0
    ensures FromCode(Code(op)) == Some(op)
  {
  }

  lemma FromCodeInvertsCodeIn10(op: Opcode)
    requires 0xD0 <= Code(op)
    ensures FromCode(Code(op)) == Some(op)
  {
  }

  /** Decoding the byte of an opcode gives the opcode back. */
  lemma {:induction false} FromCodeInvertsCode(op: Opcode)
    ensures FromCode(Code(op)) == Some(op)
  {
    var b := Code(op);
    if b < 0x0C {
      FromCodeInvertsCodeIn0(op);
    } else if b < 0x18 {
      FromCodeInvertsCodeIn1(op);
    } else if b < 0x24 {
      FromCodeInvertsCodeIn2(op);
    } else if b < 0x30 {
      FromCodeInvertsCodeIn3(op);
    } else if b < 0x3C {
      FromCodeInvertsCodeIn4(op);
    } else if b < 0x48 {
      FromCodeInvertsCodeIn5(op);
    } else if b < 0x54 {
      FromCodeInvertsCodeIn6(op);
    } else if b < 0x60 {
      FromCodeInvertsCodeIn7(op);
    } else if b < 0xC0 {
      FromCodeInvertsCodeIn8(op);
    } else if b < 0xD0 {
      FromCodeInvertsCodeIn9(op);
    } else {
      FromCodeInvertsCodeIn10(op);
    }
  }

  /** All opcode constants are distinct bytes: the name-to-byte table is injective. */
  lemma {:induction false} CodeInjective(a: Opcode, b: Opcode)
    ensures Code(a) == Code(b) ==> a == b
  {
    FromCodeInvertsCode(a);
    FromCodeInvertsCode(b);
  }

  /** The window and memory-access opcodes, and the two inversion opcodes. */
  lemma WindowAndInversionOpcodes()
    ensures Code(CASET) == 0x2A && Code(PASET) == 0x2B && Code(RAMWR) == 0x2C && Code(RAMRD) == 0x2E
    ensures Code(INVON) == 0x20 && Code(INVOFF) == 0x21
  {
  }
}
