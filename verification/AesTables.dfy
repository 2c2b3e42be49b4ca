/** The lookup tables of the cipher, entry by entry. */
module AesTables {
  type Byte = bv8

  /** Row from the high nibble, column from the low one. */
  function Sbox(b: Byte): Byte {
    match b >> 4
    case 0 => SboxRow0(b & 0x0F)
    case 1 => SboxRow1(b & 0x0F)
    case 2 => SboxRow2(b & 0x0F)
    case 3 => SboxRow3(b & 0x0F)
    case 4 => SboxRow4(b & 0x0F)
    case 5 => SboxRow5(b & 0x0F)
    case 6 => SboxRow6(b & 0x0F)
    case 7 => SboxRow7(b & 0x0F)
    case 8 => SboxRow8(b & 0x0F)
    case 9 => SboxRow9(b & 0x0F)
    case 10 => SboxRowA(b & 0x0F)
    case 11 => SboxRowB(b & 0x0F)
    case 12 => SboxRowC(b & 0x0F)
    case 13 => SboxRowD(b & 0x0F)
    case 14 => SboxRowE(b & 0x0F)
    case _ => SboxRowF(b & 0x0F)
  }

  function SboxRow0(lo: Byte): Byte {
    match lo
    case 0 => 0x63 case 1 => 0x7C case 2 => 0x77 case 3 => 0x7B
    case 4 => 0xF2 case 5 => 0x6B case 6 => 0x6F case 7 => 0xC5
    case 8 => 0x30 case 9 => 0x01 case 10 => 0x67 case 11 => 0x2B
    case 12 => 0xFE case 13 => 0xD7 case 14 => 0xAB case _ => 0x76
  }

  function SboxRow1(lo: Byte): Byte {
    match lo
    case 0 => 0xCA case 1 => 0x82 case 2 => 0xC9 case 3 => 0x7D
    case 4 => 0xFA case 5 => 0x59 case 6 => 0x47 case 7 => 0xF0
    case 8 => 0xAD case 9 => 0xD4 case 10 => 0xA2 case 11 => 0xAF
    case 12 => 0x9C case 13 => 0xA4 case 14 => 0x72 case _ => 0xC0
  }

  function SboxRow2(lo: Byte): Byte {
    match lo
    case 0 => 0xB7 case 1 => 0xFD case 2 => 0x93 case 3 => 0x26
    case 4 => 0x36 case 5 => 0x3F case 6 => 0xF7 case 7 => 0xCC
    case 8 => 0x34 case 9 => 0xA5 case 10 => 0xE5 case 11 => 0xF1
    case 12 => 0x71 case 13 => 0xD8 case 14 => 0x31 case _ => 0x15
  }

  function SboxRow3(lo: Byte): Byte {
    match lo
    case 0 => 0x04 case 1 => 0xC7 case 2 => 0x23 case 3 => 0xC3
    case 4 => 0x18 case 5 => 0x96 case 6 => 0x05 case 7 => 0x9A
    case 8 => 0x07 case 9 => 0x12 case 10 => 0x80 case 11 => 0xE2
    case 12 => 0xEB case 13 => 0x27 case 14 => 0xB2 case _ => 0x75
  }

  function SboxRow4(lo: Byte): Byte {
    match lo
    case 0 => 0x09 case 1 => 0x83 case 2 => 0x2C case 3 => 0x1A
    case 4 => 0x1B case 5 => 0x6E case 6 => 0x5A case 7 => 0xA0
    case 8 => 0x52 case 9 => 0x3B case 10 => 0xD6 case 11 => 0xB3
    case 12 => 0x29 case 13 => 0xE3 case 14 => 0x2F case _ => 0x84
  }

  function SboxRow5(lo: Byte): Byte {
    match lo
    case 0 => 0x53 case 1 => 0xD1 case 2 => 0x00 case 3 => 0xED
    case 4 => 0x20 case 5 => 0xFC case 6 => 0xB1 case 7 => 0x5B
    case 8 => 0x6A case 9 => 0xCB case 10 => 0xBE case 11 => 0x39
    case 12 => 0x4A case 13 => 0x4C case 14 => 0x58 case _ => 0xCF
  }

  function SboxRow6(lo: Byte): Byte {
    match lo
    case 0 => 0xD0 case 1 => 0xEF case 2 => 0xAA case 3 => 0xFB
    case 4 => 0x43 case 5 => 0x4D case 6 => 0x33 case 7 => 0x85
    case 8 => 0x45 case 9 => 0xF9 case 10 => 0x02 case 11 => 0x7F
    case 12 => 0x50 case 13 => 0x3C case 14 => 0x9F case _ => 0xA8
  }

  function SboxRow7(lo: Byte): Byte {
    match lo
    case 0 => 0x51 case 1 => 0xA3 case 2 => 0x40 case 3 => 0x8F
    case 4 => 0x92 case 5 => 0x9D case 6 => 0x38 case 7 => 0xF5
    case 8 => 0xBC case 9 => 0xB6 case 10 => 0xDA case 11 => 0x21
    case 12 => 0x10 case 13 => 0xFF case 14 => 0xF3 case _ => 0xD2
  }

  function SboxRow8(lo: Byte): Byte {
    match lo
    case 0 => 0xCD case 1 => 0x0C case 2 => 0x13 case 3 => 0xEC
    case 4 => 0x5F case 5 => 0x97 case 6 => 0x44 case 7 => 0x17
    case 8 => 0xC4 case 9 => 0xA7 case 10 => 0x7E case 11 => 0x3D
    case 12 => 0x64 case 13 => 0x5D case 14 => 0x19 case _ => 0x73
  }

  function SboxRow9(lo: Byte): Byte {
    match lo
    case 0 => 0x60 case 1 => 0x81 case 2 => 0x4F case 3 => 0xDC
    case 4 => 0x22 case 5 => 0x2A case 6 => 0x90 case 7 => 0x88
    case 8 => 0x46 case 9 => 0xEE case 10 => 0xB8 case 11 => 0x14
    case 12 => 0xDE case 13 => 0x5E case 14 => 0x0B case _ => 0xDB
  }

  function SboxRowA(lo: Byte): Byte {
    match lo
    case 0 => 0xE0 case 1 => 0x32 case 2 => 0x3A case 3 => 0x0A
    case 4 => 0x49 case 5 => 0x06 case 6 => 0x24 case 7 => 0x5C
    case 8 => 0xC2 case 9 => 0xD3 case 10 => 0xAC case 11 => 0x62
    case 12 => 0x91 case 13 => 0x95 case 14 => 0xE4 case _ => 0x79
  }

  function SboxRowB(lo: Byte): Byte {
    match lo
    case 0 => 0xE7 case 1 => 0xC8 case 2 => 0x37 case 3 => 0x6D
    case 4 => 0x8D case 5 => 0xD5 case 6 => 0x4E case 7 => 0xA9
    case 8 => 0x6C case 9 => 0x56 case 10 => 0xF4 case 11 => 0xEA
    case 12 => 0x65 case 13 => 0x7A case 14 => 0xAE case _ => 0x08
  }

  function SboxRowC(lo: Byte): Byte {
    match lo
    case 0 => 0xBA case 1 => 0x78 case 2 => 0x25 case 3 => 0x2E
    case 4 => 0x1C case 5 => 0xA6 case 6 => 0xB4 case 7 => 0xC6
    case 8 => 0xE8 case 9 => 0xDD case 10 => 0x74 case 11 => 0x1F
    case 12 => 0x4B case 13 => 0xBD case 14 => 0x8B case _ => 0x8A
  }

  function SboxRowD(lo: Byte): Byte {
    match lo
    case 0 => 0x70 case 1 => 0x3E case 2 => 0xB5 case 3 => 0x66
    case 4 => 0x48 case 5 => 0x03 case 6 => 0xF6 case 7 => 0x0E
    case 8 => 0x61 case 9 => 0x35 case 10 => 0x57 case 11 => 0xB9
    case 12 => 0x86 case 13 => 0xC1 case 14 => 0x1D case _ => 0x9E
  }

  function SboxRowE(lo: Byte): Byte {
    match lo
    case 0 => 0xE1 case 1 => 0xF8 case 2 => 0x98 case 3 => 0x11
    case 4 => 0x69 case 5 => 0xD9 case 6 => 0x8E case 7 => 0x94
    case 8 => 0x9B case 9 => 0x1E case 10 => 0x87 case 11 => 0xE9
    case 12 => 0xCE case 13 => 0x55 case 14 => 0x28 case _ => 0xDF
  }

  function SboxRowF(lo: Byte): Byte {
    match lo
    case 0 => 0x8C case 1 => 0xA1 case 2 => 0x89 case 3 => 0x0D
    case 4 => 0xBF case 5 => 0xE6 case 6 => 0x42 case 7 => 0x68
    case 8 => 0x41 case 9 => 0x99 case 10 => 0x2D case 11 => 0x0F
    case 12 => 0xB0 case 13 => 0x54 case 14 => 0xBB case _ => 0x16
  }

  /** The table of the inverse substitution. */
  function InvSbox(b: Byte): Byte {
    match b >> 4
    case 0 => InvSboxRow0(b & 0x0F)
    case 1 => InvSboxRow1(b & 0x0F)
    case 2 => InvSboxRow2(b & 0x0F)
    case 3 => InvSboxRow3(b & 0x0F)
    case 4 => InvSboxRow4(b & 0x0F)
    case 5 => InvSboxRow5(b & 0x0F)
    case 6 => InvSboxRow6(b & 0x0F)
    case 7 => InvSboxRow7(b & 0x0F)
    case 8 => InvSboxRow8(b & 0x0F)
    case 9 => InvSboxRow9(b & 0x0F)
    case 10 => InvSboxRowA(b & 0x0F)
    case 11 => InvSboxRowB(b & 0x0F)
    case 12 => InvSboxRowC(b & 0x0F)
    case 13 => InvSboxRowD(b & 0x0F)
    case 14 => InvSboxRowE(b & 0x0F)
    case _ => InvSboxRowF(b & 0x0F)
  }

  function InvSboxRow0(lo: Byte): Byte {
    match lo
    case 0 => 0x52 case 1 => 0x09 case 2 => 0x6A case 3 => 0xD5
    case 4 => 0x30 case 5 => 0x36 case 6 => 0xA5 case 7 => 0x38
    case 8 => 0xBF case 9 => 0x40 case 10 => 0xA3 case 11 => 0x9E
    case 12 => 0x81 case 13 => 0xF3 case 14 => 0xD7 case _ => 0xFB
  }

  function InvSboxRow1(lo: Byte): Byte {
    match lo
    case 0 => 0x7C case 1 => 0xE3 case 2 => 0x39 case 3 => 0x82
    case 4 => 0x9B case 5 => 0x2F case 6 => 0xFF case 7 => 0x87
    case 8 => 0x34 case 9 => 0x8E case 10 => 0x43 case 11 => 0x44
    case 12 => 0xC4 case 13 => 0xDE case 14 => 0xE9 case _ => 0xCB
  }

  function InvSboxRow2(lo: Byte): Byte {
    match lo
    case 0 => 0x54 case 1 => 0x7B case 2 => 0x94 case 3 => 0x32
    case 4 => 0xA6 case 5 => 0xC2 case 6 => 0x23 case 7 => 0x3D
    case 8 => 0xEE case 9 => 0x4C case 10 => 0x95 case 11 => 0x0B
    case 12 => 0x42 case 13 => 0xFA case 14 => 0xC3 case _ => 0x4E
  }

  function InvSboxRow3(lo: Byte): Byte {
    match lo
    case 0 => 0x08 case 1 => 0x2E case 2 => 0xA1 case 3 => 0x66
    case 4 => 0x28 case 5 => 0xD9 case 6 => 0x24 case 7 => 0xB2
    case 8 => 0x76 case 9 => 0x5B case 10 => 0xA2 case 11 => 0x49
    case 12 => 0x6D case 13 => 0x8B case 14 => 0xD1 case _ => 0x25
  }

  function InvSboxRow4(lo: Byte): Byte {
    match lo
    case 0 => 0x72 case 1 => 0xF8 case 2 => 0xF6 case 3 => 0x64
    case 4 => 0x86 case 5 => 0x68 case 6 => 0x98 case 7 => 0x16
    case 8 => 0xD4 case 9 => 0xA4 case 10 => 0x5C case 11 => 0xCC
    case 12 => 0x5D case 13 => 0x65 case 14 => 0xB6 case _ => 0x92
  }

  function InvSboxRow5(lo: Byte): Byte {
    match lo
    case 0 => 0x6C case 1 => 0x70 case 2 => 0x48 case 3 => 0x50
    case 4 => 0xFD case 5 => 0xED case 6 => 0xB9 case 7 => 0xDA
    case 8 => 0x5E case 9 => 0x15 case 10 => 0x46 case 11 => 0x57
    case 12 => 0xA7 case 13 => 0x8D case 14 => 0x9D case _ => 0x84
  }

  function InvSboxRow6(lo: Byte): Byte {
    match lo
    case 0 => 0x90 case 1 => 0xD8 case 2 => 0xAB case 3 => 0x00
    case 4 => 0x8C case 5 => 0xBC case 6 => 0xD3 case 7 => 0x0A
    case 8 => 0xF7 case 9 => 0xE4 case 10 => 0x58 case 11 => 0x05
    case 12 => 0xB8 case 13 => 0xB3 case 14 => 0x45 case _ => 0x06
  }

  function InvSboxRow7(lo: Byte): Byte {
    match lo
    case 0 => 0xD0 case 1 => 0x2C case 2 => 0x1E case 3 => 0x8F
    case 4 => 0xCA case 5 => 0x3F case 6 => 0x0F case 7 => 0x02
    case 8 => 0xC1 case 9 => 0xAF case 10 => 0xBD case 11 => 0x03
    case 12 => 0x01 case 13 => 0x13 case 14 => 0x8A case _ => 0x6B
  }

  function InvSboxRow8(lo: Byte): Byte {
    match lo
    case 0 => 0x3A case 1 => 0x91 case 2 => 0x11 case 3 => 0x41
    case 4 => 0x4F case 5 => 0x67 case 6 => 0xDC case 7 => 0xEA
    case 8 => 0x97 case 9 => 0xF2 case 10 => 0xCF case 11 => 0xCE
    case 12 => 0xF0 case 13 => 0xB4 case 14 => 0xE6 case _ => 0x73
  }

  function InvSboxRow9(lo: Byte): Byte {
    match lo
    case 0 => 0x96 case 1 => 0xAC case 2 => 0x74 case 3 => 0x22
    case 4 => 0xE7 case 5 => 0xAD case 6 => 0x35 case 7 => 0x85
    case 8 => 0xE2 case 9 => 0xF9 case 10 => 0x37 case 11 => 0xE8
    case 12 => 0x1C case 13 => 0x75 case 14 => 0xDF case _ => 0x6E
  }

  function InvSboxRowA(lo: Byte): Byte {
    match lo
    case 0 => 0x47 case 1 => 0xF1 case 2 => 0x1A case 3 => 0x71
    case 4 => 0x1D case 5 => 0x29 case 6 => 0xC5 case 7 => 0x89
    case 8 => 0x6F case 9 => 0xB7 case 10 => 0x62 case 11 => 0x0E
    case 12 => 0xAA case 13 => 0x18 case 14 => 0xBE case _ => 0x1B
  }

  function InvSboxRowB(lo: Byte): Byte {
    match lo
    case 0 => 0xFC case 1 => 0x56 case 2 => 0x3E case 3 => 0x4B
    case 4 => 0xC6 case 5 => 0xD2 case 6 => 0x79 case 7 => 0x20
    case 8 => 0x9A case 9 => 0xDB case 10 => 0xC0 case 11 => 0xFE
    case 12 => 0x78 case 13 => 0xCD case 14 => 0x5A case _ => 0xF4
  }

  function InvSboxRowC(lo: Byte): Byte {
    match lo
    case 0 => 0x1F case 1 => 0xDD case 2 => 0xA8 case 3 => 0x33
    case 4 => 0x88 case 5 => 0x07 case 6 => 0xC7 case 7 => 0x31
    case 8 => 0xB1 case 9 => 0x12 case 10 => 0x10 case 11 => 0x59
    case 12 => 0x27 case 13 => 0x80 case 14 => 0xEC case _ => 0x5F
  }

  function InvSboxRowD(lo: Byte): Byte {
    match lo
    case 0 => 0x60 case 1 => 0x51 case 2 => 0x7F case 3 => 0xA9
    case 4 => 0x19 case 5 => 0xB5 case 6 => 0x4A case 7 => 0x0D
    case 8 => 0x2D case 9 => 0xE5 case 10 => 0x7A case 11 => 0x9F
    case 12 => 0x93 case 13 => 0xC9 case 14 => 0x9C case _ => 0xEF
  }

  function InvSboxRowE(lo: Byte): Byte {
    match lo
    case 0 => 0xA0 case 1 => 0xE0 case 2 => 0x3B case 3 => 0x4D
    case 4 => 0xAE case 5 => 0x2A case 6 => 0xF5 case 7 => 0xB0
    case 8 => 0xC8 case 9 => 0xEB case 10 => 0xBB case 11 => 0x3C
    case 12 => 0x83 case 13 => 0x53 case 14 => 0x99 case _ => 0x61
  }

  function InvSboxRowF(lo: Byte): Byte {
    match lo
    case 0 => 0x17 case 1 => 0x2B case 2 => 0x04 case 3 => 0x7E
    case 4 => 0xBA case 5 => 0x77 case 6 => 0xD6 case 7 => 0x26
    case 8 => 0xE1 case 9 => 0x69 case 10 => 0x14 case 11 => 0x63
    case 12 => 0x55 case 13 => 0x21 case 14 => 0x0C case _ => 0x7D
  }

  /** Products by 2, 3, 9, 11, 13 and 14. */
  datatype Products = P(by2: Byte, by3: Byte, by9: Byte, by11: Byte, by13: Byte, by14: Byte)

  function GfMul(b: Byte): Products {
    match b >> 4
    case 0 => GfMulRow0(b & 0x0F)
    case 1 => GfMulRow1(b & 0x0F)
    case 2 => GfMulRow2(b & 0x0F)
    case 3 => GfMulRow3(b & 0x0F)
    case 4 => GfMulRow4(b & 0x0F)
    case 5 => GfMulRow5(b & 0x0F)
    case 6 => GfMulRow6(b & 0x0F)
    case 7 => GfMulRow7(b & 0x0F)
    case 8 => GfMulRow8(b & 0x0F)
    case 9 => GfMulRow9(b & 0x0F)
    case 10 => GfMulRowA(b & 0x0F)
    case 11 => GfMulRowB(b & 0x0F)
    case 12 => GfMulRowC(b & 0x0F)
    case 13 => GfMulRowD(b & 0x0F)
    case 14 => GfMulRowE(b & 0x0F)
    case _ => GfMulRowF(b & 0x0F)
  }

  function GfMulRow0(lo: Byte): Products {
    match lo
    case 0 => P(0x00, 0x00, 0x00, 0x00, 0x00, 0x00)
    case 1 => P(0x02, 0x03, 0x09, 0x0b, 0x0d, 0x0e)
    case 2 => P(0x04, 0x06, 0x12, 0x16, 0x1a, 0x1c)
    case 3 => P(0x06, 0x05, 0x1b, 0x1d, 0x17, 0x12)
    case 4 => P(0x08, 0x0c, 0x24, 0x2c, 0x34, 0x38)
    case 5 => P(0x0a, 0x0f, 0x2d, 0x27, 0x39, 0x36)
    case 6 => P(0x0c, 0x0a, 0x36, 0x3a, 0x2e, 0x24)
    case 7 => P(0x0e, 0x09, 0x3f, 0x31, 0x23, 0x2a)
    case 8 => P(0x10, 0x18, 0x48, 0x58, 0x68, 0x70)
    case 9 => P(0x12, 0x1b, 0x41, 0x53, 0x65, 0x7e)
    case 10 => P(0x14, 0x1e, 0x5a, 0x4e, 0x72, 0x6c)
    case 11 => P(0x16, 0x1d, 0x53, 0x45, 0x7f, 0x62)
    case 12 => P(0x18, 0x14, 0x6c, 0x74, 0x5c, 0x48)
    case 13 => P(0x1a, 0x17, 0x65, 0x7f, 0x51, 0x46)
    case 14 => P(0x1c, 0x12, 0x7e, 0x62, 0x46, 0x54)
    case _ => P(0x1e, 0x11, 0x77, 0x69, 0x4b, 0x5a)
  }

  function GfMulRow1(lo: Byte): Products {
    match lo
    case 0 => P(0x20, 0x30, 0x90, 0xb0, 0xd0, 0xe0)
    case 1 => P(0x22, 0x33, 0x99, 0xbb, 0xdd, 0xee)
    case 2 => P(0x24, 0x36, 0x82, 0xa6, 0xca, 0xfc)
    case 3 => P(0x26, 0x35, 0x8b, 0xad, 0xc7, 0xf2)
    case 4 => P(0x28, 0x3c, 0xb4, 0x9c, 0xe4, 0xd8)
    case 5 => P(0x2a, 0x3f, 0xbd, 0x97, 0xe9, 0xd6)
    case 6 => P(0x2c, 0x3a, 0xa6, 0x8a, 0xfe, 0xc4)
    case 7 => P(0x2e, 0x39, 0xaf, 0x81, 0xf3, 0xca)
    case 8 => P(0x30, 0x28, 0xd8, 0xe8, 0xb8, 0x90)
    case 9 => P(0x32, 0x2b, 0xd1, 0xe3, 0xb5, 0x9e)
    case 10 => P(0x34, 0x2e, 0xca, 0xfe, 0xa2, 0x8c)
    case 11 => P(0x36, 0x2d, 0xc3, 0xf5, 0xaf, 0x82)
    case 12 => P(0x38, 0x24, 0xfc, 0xc4, 0x8c, 0xa8)
    case 13 => P(0x3a, 0x27, 0xf5, 0xcf, 0x81, 0xa6)
    case 14 => P(0x3c, 0x22, 0xee, 0xd2, 0x96, 0xb4)
    case _ => P(0x3e, 0x21, 0xe7, 0xd9, 0x9b, 0xba)
  }

  function GfMulRow2(lo: Byte): Products {
    match lo
    case 0 => P(0x40, 0x60, 0x3b, 0x7b, 0xbb, 0xdb)
    case 1 => P(0x42, 0x63, 0x32, 0x70, 0xb6, 0xd5)
    case 2 => P(0x44, 0x66, 0x29, 0x6d, 0xa1, 0xc7)
    case 3 => P(0x46, 0x65, 0x20, 0x66, 0xac, 0xc9)
    case 4 => P(0x48, 0x6c, 0x1f, 0x57, 0x8f, 0xe3)
    case 5 => P(0x4a, 0x6f, 0x16, 0x5c, 0x82, 0xed)
    case 6 => P(0x4c, 0x6a, 0x0d, 0x41, 0x95, 0xff)
    case 7 => P(0x4e, 0x69, 0x04, 0x4a, 0x98, 0xf1)
    case 8 => P(0x50, 0x78, 0x73, 0x23, 0xd3, 0xab)
    case 9 => P(0x52, 0x7b, 0x7a, 0x28, 0xde, 0xa5)
    case 10 => P(0x54, 0x7e, 0x61, 0x35, 0xc9, 0xb7)
    case 11 => P(0x56, 0x7d, 0x68, 0x3e, 0xc4, 0xb9)
    case 12 => P(0x58, 0x74, 0x57, 0x0f, 0xe7, 0x93)
    case 13 => P(0x5a, 0x77, 0x5e, 0x04, 0xea, 0x9d)
    case 14 => P(0x5c, 0x72, 0x45, 0x19, 0xfd, 0x8f)
    case _ => P(0x5e, 0x71, 0x4c, 0x12, 0xf0, 0x81)
  }

  function GfMulRow3(lo: Byte): Products {
    match lo
    case 0 => P(0x60, 0x50, 0xab, 0xcb, 0x6b, 0x3b)
    case 1 => P(0x62, 0x53, 0xa2, 0xc0, 0x66, 0x35)
    case 2 => P(0x64, 0x56, 0xb9, 0xdd, 0x71, 0x27)
    case 3 => P(0x66, 0x55, 0xb0, 0xd6, 0x7c, 0x29)
    case 4 => P(0x68, 0x5c, 0x8f, 0xe7, 0x5f, 0x03)
    case 5 => P(0x6a, 0x5f, 0x86, 0xec, 0x52, 0x0d)
    case 6 => P(0x6c, 0x5a, 0x9d, 0xf1, 0x45, 0x1f)
    case 7 => P(0x6e, 0x59, 0x94, 0xfa, 0x48, 0x11)
    case 8 => P(0x70, 0x48, 0xe3, 0x93, 0x03, 0x4b)
    case 9 => P(0x72, 0x4b, 0xea, 0x98, 0x0e, 0x45)
    case 10 => P(0x74, 0x4e, 0xf1, 0x85, 0x19, 0x57)
    case 11 => P(0x76, 0x4d, 0xf8, 0x8e, 0x14, 0x59)
    case 12 => P(0x78, 0x44, 0xc7, 0xbf, 0x37, 0x73)
    case 13 => P(0x7a, 0x47, 0xce, 0xb4, 0x3a, 0x7d)
    case 14 => P(0x7c, 0x42, 0xd5, 0xa9, 0x2d, 0x6f)
    case _ => P(0x7e, 0x41, 0xdc, 0xa2, 0x20, 0x61)
  }

  function GfMulRow4(lo: Byte): Products {
    match lo
    case 0 => P(0x80, 0xc0, 0x76, 0xf6, 0x6d, 0xad)
    case 1 => P(0x82, 0xc3, 0x7f, 0xfd, 0x60, 0xa3)
    case 2 => P(0x84, 0xc6, 0x64, 0xe0, 0x77, 0xb1)
    case 3 => P(0x86, 0xc5, 0x6d, 0xeb, 0x7a, 0xbf)
    case 4 => P(0x88, 0xcc, 0x52, 0xda, 0x59, 0x95)
    case 5 => P(0x8a, 0xcf, 0x5b, 0xd1, 0x54, 0x9b)
    case 6 => P(0x8c, 0xca, 0x40, 0xcc, 0x43, 0x89)
    case 7 => P(0x8e, 0xc9, 0x49, 0xc7, 0x4e, 0x87)
    case 8 => P(0x90, 0xd8, 0x3e, 0xae, 0x05, 0xdd)
    case 9 => P(0x92, 0xdb, 0x37, 0xa5, 0x08, 0xd3)
    case 10 => P(0x94, 0xde, 0x2c, 0xb8, 0x1f, 0xc1)
    case 11 => P(0x96, 0xdd, 0x25, 0xb3, 0x12, 0xcf)
    case 12 => P(0x98, 0xd4, 0x1a, 0x82, 0x31, 0xe5)
    case 13 => P(0x9a, 0xd7, 0x13, 0x89, 0x3c, 0xeb)
    case 14 => P(0x9c, 0xd2, 0x08, 0x94, 0x2b, 0xf9)
    case _ => P(0x9e, 0xd1, 0x01, 0x9f, 0x26, 0xf7)
  }

  function GfMulRow5(lo: Byte): Products {
    match lo
    case 0 => P(0xa0, 0xf0, 0xe6, 0x46, 0xbd, 0x4d)
    case 1 => P(0xa2, 0xf3, 0xef, 0x4d, 0xb0, 0x43)
    case 2 => P(0xa4, 0xf6, 0xf4, 0x50, 0xa7, 0x51)
    case 3 => P(0xa6, 0xf5, 0xfd, 0x5b, 0xaa, 0x5f)
    case 4 => P(0xa8, 0xfc, 0xc2, 0x6a, 0x89, 0x75)
    case 5 => P(0xaa, 0xff, 0xcb, 0x61, 0x84, 0x7b)
    case 6 => P(0xac, 0xfa, 0xd0, 0x7c, 0x93, 0x69)
    case 7 => P(0xae, 0xf9, 0xd9, 0x77, 0x9e, 0x67)
    case 8 => P(0xb0, 0xe8, 0xae, 0x1e, 0xd5, 0x3d)
    case 9 => P(0xb2, 0xeb, 0xa7, 0x15, 0xd8, 0x33)
    case 10 => P(0xb4, 0xee, 0xbc, 0x08, 0xcf, 0x21)
    case 11 => P(0xb6, 0xed, 0xb5, 0x03, 0xc2, 0x2f)
    case 12 => P(0xb8, 0xe4, 0x8a, 0x32, 0xe1, 0x05)
    case 13 => P(0xba, 0xe7, 0x83, 0x39, 0xec, 0x0b)
    case 14 => P(0xbc, 0xe2, 0x98, 0x24, 0xfb, 0x19)
    case _ => P(0xbe, 0xe1, 0x91, 0x2f, 0xf6, 0x17)
  }

  function GfMulRow6(lo: Byte): Products {
    match lo
    case 0 => P(0xc0, 0xa0, 0x4d, 0x8d, 0xd6, 0x76)
    case 1 => P(0xc2, 0xa3, 0x44, 0x86, 0xdb, 0x78)
    case 2 => P(0xc4, 0xa6, 0x5f, 0x9b, 0xcc, 0x6a)
    case 3 => P(0xc6, 0xa5, 0x56, 0x90, 0xc1, 0x64)
    case 4 => P(0xc8, 0xac, 0x69, 0xa1, 0xe2, 0x4e)
    case 5 => P(0xca, 0xaf, 0x60, 0xaa, 0xef, 0x40)
    case 6 => P(0xcc, 0xaa, 0x7b, 0xb7, 0xf8, 0x52)
    case 7 => P(0xce, 0xa9, 0x72, 0xbc, 0xf5, 0x5c)
    case 8 => P(0xd0, 0xb8, 0x05, 0xd5, 0xbe, 0x06)
    case 9 => P(0xd2, 0xbb, 0x0c, 0xde, 0xb3, 0x08)
    case 10 => P(0xd4, 0xbe, 0x17, 0xc3, 0xa4, 0x1a)
    case 11 => P(0xd6, 0xbd, 0x1e, 0xc8, 0xa9, 0x14)
    case 12 => P(0xd8, 0xb4, 0x21, 0xf9, 0x8a, 0x3e)
    case 13 => P(0xda, 0xb7, 0x28, 0xf2, 0x87, 0x30)
    case 14 => P(0xdc, 0xb2, 0x33, 0xef, 0x90, 0x22)
    case _ => P(0xde, 0xb1, 0x3a, 0xe4, 0x9d, 0x2c)
  }

  function GfMulRow7(lo: Byte): Products {
    match lo
    case 0 => P(0xe0, 0x90, 0xdd, 0x3d, 0x06, 0x96)
    case 1 => P(0xe2, 0x93, 0xd4, 0x36, 0x0b, 0x98)
    case 2 => P(0xe4, 0x96, 0xcf, 0x2b, 0x1c, 0x8a)
    case 3 => P(0xe6, 0x95, 0xc6, 0x20, 0x11, 0x84)
    case 4 => P(0xe8, 0x9c, 0xf9, 0x11, 0x32, 0xae)
    case 5 => P(0xea, 0x9f, 0xf0, 0x1a, 0x3f, 0xa0)
    case 6 => P(0xec, 0x9a, 0xeb, 0x07, 0x28, 0xb2)
    case 7 => P(0xee, 0x99, 0xe2, 0x0c, 0x25, 0xbc)
    case 8 => P(0xf0, 0x88, 0x95, 0x65, 0x6e, 0xe6)
    case 9 => P(0xf2, 0x8b, 0x9c, 0x6e, 0x63, 0xe8)
    case 10 => P(0xf4, 0x8e, 0x87, 0x73, 0x74, 0xfa)
    case 11 => P(0xf6, 0x8d, 0x8e, 0x78, 0x79, 0xf4)
    case 12 => P(0xf8, 0x84, 0xb1, 0x49, 0x5a, 0xde)
    case 13 => P(0xfa, 0x87, 0xb8, 0x42, 0x57, 0xd0)
    case 14 => P(0xfc, 0x82, 0xa3, 0x5f, 0x40, 0xc2)
    case _ => P(0xfe, 0x81, 0xaa, 0x54, 0x4d, 0xcc)
  }

  function GfMulRow8(lo: Byte): Products {
    match lo
    case 0 => P(0x1b, 0x9b, 0xec, 0xf7, 0xda, 0x41)
    case 1 => P(0x19, 0x98, 0xe5, 0xfc, 0xd7, 0x4f)
    case 2 => P(0x1f, 0x9d, 0xfe, 0xe1, 0xc0, 0x5d)
    case 3 => P(0x1d, 0x9e, 0xf7, 0xea, 0xcd, 0x53)
    case 4 => P(0x13, 0x97, 0xc8, 0xdb, 0xee, 0x79)
    case 5 => P(0x11, 0x94, 0xc1, 0xd0, 0xe3, 0x77)
    case 6 => P(0x17, 0x91, 0xda, 0xcd, 0xf4, 0x65)
    case 7 => P(0x15, 0x92, 0xd3, 0xc6, 0xf9, 0x6b)
    case 8 => P(0x0b, 0x83, 0xa4, 0xaf, 0xb2, 0x31)
    case 9 => P(0x09, 0x80, 0xad, 0xa4, 0xbf, 0x3f)
    case 10 => P(0x0f, 0x85, 0xb6, 0xb9, 0xa8, 0x2d)
    case 11 => P(0x0d, 0x86, 0xbf, 0xb2, 0xa5, 0x23)
    case 12 => P(0x03, 0x8f, 0x80, 0x83, 0x86, 0x09)
    case 13 => P(0x01, 0x8c, 0x89, 0x88, 0x8b, 0x07)
    case 14 => P(0x07, 0x89, 0x92, 0x95, 0x9c, 0x15)
    case _ => P(0x05, 0x8a, 0x9b, 0x9e, 0x91, 0x1b)
  }

  function GfMulRow9(lo: Byte): Products {
    match lo
    case 0 => P(0x3b, 0xab, 0x7c, 0x47, 0x0a, 0xa1)
    case 1 => P(0x39, 0xa8, 0x75, 0x4c, 0x07, 0xaf)
    case 2 => P(0x3f, 0xad, 0x6e, 0x51, 0x10, 0xbd)
    case 3 => P(0x3d, 0xae, 0x67, 0x5a, 0x1d, 0xb3)
    case 4 => P(0x33, 0xa7, 0x58, 0x6b, 0x3e, 0x99)
    case 5 => P(0x31, 0xa4, 0x51, 0x60, 0x33, 0x97)
    case 6 => P(0x37, 0xa1, 0x4a, 0x7d, 0x24, 0x85)
    case 7 => P(0x35, 0xa2, 0x43, 0x76, 0x29, 0x8b)
    case 8 => P(0x2b, 0xb3, 0x34, 0x1f, 0x62, 0xd1)
    case 9 => P(0x29, 0xb0, 0x3d, 0x14, 0x6f, 0xdf)
    case 10 => P(0x2f, 0xb5, 0x26, 0x09, 0x78, 0xcd)
    case 11 => P(0x2d, 0xb6, 0x2f, 0x02, 0x75, 0xc3)
    case 12 => P(0x23, 0xbf, 0x10, 0x33, 0x56, 0xe9)
    case 13 => P(0x21, 0xbc, 0x19, 0x38, 0x5b, 0xe7)
    case 14 => P(0x27, 0xb9, 0x02, 0x25, 0x4c, 0xf5)
    case _ => P(0x25, 0xba, 0x0b, 0x2e, 0x41, 0xfb)
  }

  function GfMulRowA(lo: Byte): Products {
    match lo
    case 0 => P(0x5b, 0xfb, 0xd7, 0x8c, 0x61, 0x9a)
    case 1 => P(0x59, 0xf8, 0xde, 0x87, 0x6c, 0x94)
    case 2 => P(0x5f, 0xfd, 0xc5, 0x9a, 0x7b, 0x86)
    case 3 => P(0x5d, 0xfe, 0xcc, 0x91, 0x76, 0x88)
    case 4 => P(0x53, 0xf7, 0xf3, 0xa0, 0x55, 0xa2)
    case 5 => P(0x51, 0xf4, 0xfa, 0xab, 0x58, 0xac)
    case 6 => P(0x57, 0xf1, 0xe1, 0xb6, 0x4f, 0xbe)
    case 7 => P(0x55, 0xf2, 0xe8, 0xbd, 0x42, 0xb0)
    case 8 => P(0x4b, 0xe3, 0x9f, 0xd4, 0x09, 0xea)
    case 9 => P(0x49, 0xe0, 0x96, 0xdf, 0x04, 0xe4)
    case 10 => P(0x4f, 0xe5, 0x8d, 0xc2, 0x13, 0xf6)
    case 11 => P(0x4d, 0xe6, 0x84, 0xc9, 0x1e, 0xf8)
    case 12 => P(0x43, 0xef, 0xbb, 0xf8, 0x3d, 0xd2)
    case 13 => P(0x41, 0xec, 0xb2, 0xf3, 0x30, 0xdc)
    case 14 => P(0x47, 0xe9, 0xa9, 0xee, 0x27, 0xce)
    case _ => P(0x45, 0xea, 0xa0, 0xe5, 0x2a, 0xc0)
  }

  function GfMulRowB(lo: Byte): Products {
    match lo
    case 0 => P(0x7b, 0xcb, 0x47, 0x3c, 0xb1, 0x7a)
    case 1 => P(0x79, 0xc8, 0x4e, 0x37, 0xbc, 0x74)
    case 2 => P(0x7f, 0xcd, 0x55, 0x2a, 0xab, 0x66)
    case 3 => P(0x7d, 0xce, 0x5c, 0x21, 0xa6, 0x68)
    case 4 => P(0x73, 0xc7, 0x63, 0x10, 0x85, 0x42)
    case 5 => P(0x71, 0xc4, 0x6a, 0x1b, 0x88, 0x4c)
    case 6 => P(0x77, 0xc1, 0x71, 0x06, 0x9f, 0x5e)
    case 7 => P(0x75, 0xc2, 0x78, 0x0d, 0x92, 0x50)
    case 8 => P(0x6b, 0xd3, 0x0f, 0x64, 0xd9, 0x0a)
    case 9 => P(0x69, 0xd0, 0x06, 0x6f, 0xd4, 0x04)
    case 10 => P(0x6f, 0xd5, 0x1d, 0x72, 0xc3, 0x16)
    case 11 => P(0x6d, 0xd6, 0x14, 0x79, 0xce, 0x18)
    case 12 => P(0x63, 0xdf, 0x2b, 0x48, 0xed, 0x32)
    case 13 => P(0x61, 0xdc, 0x22, 0x43, 0xe0, 0x3c)
    case 14 => P(0x67, 0xd9, 0x39, 0x5e, 0xf7, 0x2e)
    case _ => P(0x65, 0xda, 0x30, 0x55, 0xfa, 0x20)
  }

  function GfMulRowC(lo: Byte): Products {
    match lo
    case 0 => P(0x9b, 0x5b, 0x9a, 0x01, 0xb7, 0xec)
    case 1 => P(0x99, 0x58, 0x93, 0x0a, 0xba, 0xe2)
    case 2 => P(0x9f, 0x5d, 0x88, 0x17, 0xad, 0xf0)
    case 3 => P(0x9d, 0x5e, 0x81, 0x1c, 0xa0, 0xfe)
    case 4 => P(0x93, 0x57, 0xbe, 0x2d, 0x83, 0xd4)
    case 5 => P(0x91, 0x54, 0xb7, 0x26, 0x8e, 0xda)
    case 6 => P(0x97, 0x51, 0xac, 0x3b, 0x99, 0xc8)
    case 7 => P(0x95, 0x52, 0xa5, 0x30, 0x94, 0xc6)
    case 8 => P(0x8b, 0x43, 0xd2, 0x59, 0xdf, 0x9c)
    case 9 => P(0x89, 0x40, 0xdb, 0x52, 0xd2, 0x92)
    case 10 => P(0x8f, 0x45, 0xc0, 0x4f, 0xc5, 0x80)
    case 11 => P(0x8d, 0x46, 0xc9, 0x44, 0xc8, 0x8e)
    case 12 => P(0x83, 0x4f, 0xf6, 0x75, 0xeb, 0xa4)
    case 13 => P(0x81, 0x4c, 0xff, 0x7e, 0xe6, 0xaa)
    case 14 => P(0x87, 0x49, 0xe4, 0x63, 0xf1, 0xb8)
    case _ => P(0x85, 0x4a, 0xed, 0x68, 0xfc, 0xb6)
  }

  function GfMulRowD(lo: Byte): Products {
    match lo
    case 0 => P(0xbb, 0x6b, 0x0a, 0xb1, 0x67, 0x0c)
    case 1 => P(0xb9, 0x68, 0x03, 0xba, 0x6a, 0x02)
    case 2 => P(0xbf, 0x6d, 0x18, 0xa7, 0x7d, 0x10)
    case 3 => P(0xbd, 0x6e, 0x11, 0xac, 0x70, 0x1e)
    case 4 => P(0xb3, 0x67, 0x2e, 0x9d, 0x53, 0x34)
    case 5 => P(0xb1, 0x64, 0x27, 0x96, 0x5e, 0x3a)
    case 6 => P(0xb7, 0x61, 0x3c, 0x8b, 0x49, 0x28)
    case 7 => P(0xb5, 0x62, 0x35, 0x80, 0x44, 0x26)
    case 8 => P(0xab, 0x73, 0x42, 0xe9, 0x0f, 0x7c)
    case 9 => P(0xa9, 0x70, 0x4b, 0xe2, 0x02, 0x72)
    case 10 => P(0xaf, 0x75, 0x50, 0xff, 0x15, 0x60)
    case 11 => P(0xad, 0x76, 0x59, 0xf4, 0x18, 0x6e)
    case 12 => P(0xa3, 0x7f, 0x66, 0xc5, 0x3b, 0x44)
    case 13 => P(0xa1, 0x7c, 0x6f, 0xce, 0x36, 0x4a)
    case 14 => P(0xa7, 0x79, 0x74, 0xd3, 0x21, 0x58)
    case _ => P(0xa5, 0x7a, 0x7d, 0xd8, 0x2c, 0x56)
  }

  function GfMulRowE(lo: Byte): Products {
    match lo
    case 0 => P(0xdb, 0x3b, 0xa1, 0x7a, 0x0c, 0x37)
    case 1 => P(0xd9, 0x38, 0xa8, 0x71, 0x01, 0x39)
    case 2 => P(0xdf, 0x3d, 0xb3, 0x6c, 0x16, 0x2b)
    case 3 => P(0xdd, 0x3e, 0xba, 0x67, 0x1b, 0x25)
    case 4 => P(0xd3, 0x37, 0x85, 0x56, 0x38, 0x0f)
    case 5 => P(0xd1, 0x34, 0x8c, 0x5d, 0x35, 0x01)
    case 6 => P(0xd7, 0x31, 0x97, 0x40, 0x22, 0x13)
    case 7 => P(0xd5, 0x32, 0x9e, 0x4b, 0x2f, 0x1d)
    case 8 => P(0xcb, 0x23, 0xe9, 0x22, 0x64, 0x47)
    case 9 => P(0xc9, 0x20, 0xe0, 0x29, 0x69, 0x49)
    case 10 => P(0xcf, 0x25, 0xfb, 0x34, 0x7e, 0x5b)
    case 11 => P(0xcd, 0x26, 0xf2, 0x3f, 0x73, 0x55)
    case 12 => P(0xc3, 0x2f, 0xcd, 0x0e, 0x50, 0x7f)
    case 13 => P(0xc1, 0x2c, 0xc4, 0x05, 0x5d, 0x71)
    case 14 => P(0xc7, 0x29, 0xdf, 0x18, 0x4a, 0x63)
    case _ => P(0xc5, 0x2a, 0xd6, 0x13, 0x47, 0x6d)
  }

  function GfMulRowF(lo: Byte): Products {
    match lo
    case 0 => P(0xfb, 0x0b, 0x31, 0xca, 0xdc, 0xd7)
    case 1 => P(0xf9, 0x08, 0x38, 0xc1, 0xd1, 0xd9)
    case 2 => P(0xff, 0x0d, 0x23, 0xdc, 0xc6, 0xcb)
    case 3 => P(0xfd, 0x0e, 0x2a, 0xd7, 0xcb, 0xc5)
    case 4 => P(0xf3, 0x07, 0x15, 0xe6, 0xe8, 0xef)
    case 5 => P(0xf1, 0x04, 0x1c, 0xed, 0xe5, 0xe1)
    case 6 => P(0xf7, 0x01, 0x07, 0xf0, 0xf2, 0xf3)
    case 7 => P(0xf5, 0x02, 0x0e, 0xfb, 0xff, 0xfd)
    case 8 => P(0xeb, 0x13, 0x79, 0x92, 0xb4, 0xa7)
    case 9 => P(0xe9, 0x10, 0x70, 0x99, 0xb9, 0xa9)
    case 10 => P(0xef, 0x15, 0x6b, 0x84, 0xae, 0xbb)
    case 11 => P(0xed, 0x16, 0x62, 0x8f, 0xa3, 0xb5)
    case 12 => P(0xe3, 0x1f, 0x5d, 0xbe, 0x80, 0x9f)
    case 13 => P(0xe1, 0x1c, 0x54, 0xb5, 0x8d, 0x91)
    case 14 => P(0xe7, 0x19, 0x4f, 0xa8, 0x9a, 0x83)
    case _ => P(0xe5, 0x1a, 0x46, 0xa3, 0x97, 0x8d)
  }
}
