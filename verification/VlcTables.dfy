/** The code tables of the variable length decoder, entry by entry. */
module VlcTables {
  /** A DC code: the size class it stands for, and its length in bits. */
  datatype DcEntry = D(size: nat, len: nat)

  /** An AC code. Run 64 marks the end of the block and run 65 an escape. */
  datatype AcEntry = A(run: nat, level: nat, len: nat)

  /** Luminance DC, indexed by five bits. */
  function DcLum0(i: nat): DcEntry
    requires i < 32
  {
    if i < 8 then D(1, 2) else if i < 16 then D(2, 2) else if i < 20 then D(0, 3) else
    if i < 24 then D(3, 3) else if i < 28 then D(4, 3) else if i < 30 then D(5, 4) else
    if i < 31 then D(6, 5) else D(0, 0)
  }

  /** Luminance DC after 11111, indexed by nine bits less 0x1F0. */
  function DcLum1(i: nat): DcEntry
    requires i < 16
  {
    if i < 8 then D(7, 6) else if i < 12 then D(8, 7) else if i < 14 then D(9, 8) else
    if i < 15 then D(10, 9) else D(11, 9)
  }

  /** Chrominance DC, indexed by five bits. */
  function DcChrom0(i: nat): DcEntry
    requires i < 32
  {
    if i < 8 then D(0, 2) else if i < 16 then D(1, 2) else if i < 24 then D(2, 2) else
    if i < 28 then D(3, 3) else if i < 30 then D(4, 4) else if i < 31 then D(5, 5) else D(0, 0)
  }

  /** Chrominance DC after 11111, indexed by ten bits less 0x3E0. */
  function DcChrom1(i: nat): DcEntry
    requires i < 32
  {
    if i < 16 then D(6, 6) else if i < 24 then D(7, 7) else if i < 28 then D(8, 8) else
    if i < 30 then D(9, 9) else if i < 31 then D(10, 10) else D(11, 10)
  }

  /** Codes 000001xx to 11111111. */
  function Dct0a(i: nat): AcEntry
    requires i < 252
  {
    if i < 4 then A(65, 0, 6) else if i < 6 then A(7, 1, 7) else if i < 8 then A(8, 1, 7) else
    if i < 10 then A(6, 1, 7) else if i < 12 then A(2, 2, 7) else if i < 16 then A(0, 7, 6) else
    if i < 20 then A(0, 6, 6) else if i < 24 then A(4, 1, 6) else if i < 28 then A(5, 1, 6) else
    if i < 29 then A(1, 5, 8) else if i < 30 then A(11, 1, 8) else if i < 31 then A(0, 11, 8) else
    if i < 32 then A(0, 10, 8) else if i < 33 then A(13, 1, 8) else if i < 34 then A(12, 1, 8) else
    if i < 35 then A(3, 2, 8) else if i < 36 then A(1, 4, 8) else if i < 44 then A(2, 1, 5) else
    if i < 52 then A(1, 2, 5) else if i < 60 then A(3, 1, 5) else if i < 92 then A(1, 1, 3) else
    if i < 108 then A(64, 0, 4) else if i < 124 then A(0, 3, 4) else if i < 188 then A(0, 1, 2) else
    if i < 220 then A(0, 2, 3) else if i < 228 then A(0, 4, 5) else if i < 236 then A(0, 5, 5) else
    if i < 238 then A(9, 1, 7) else if i < 240 then A(1, 3, 7) else if i < 242 then A(10, 1, 7) else
    if i < 244 then A(0, 8, 7) else if i < 246 then A(0, 9, 7) else if i < 247 then A(0, 12, 8) else
    if i < 248 then A(0, 13, 8) else if i < 249 then A(2, 3, 8) else if i < 250 then A(4, 2, 8) else
    if i < 251 then A(0, 14, 8) else A(0, 15, 8)
  }

  /** Codes 000000100x to 000000111x. */
  function Dct1a(i: nat): AcEntry
    requires i < 8
  {
    if i < 2 then A(5, 2, 9) else if i < 4 then A(14, 1, 9) else if i < 5 then A(2, 4, 10) else
    if i < 6 then A(16, 1, 10) else A(15, 1, 9)
  }

  /** Codes of 12 bits. */
  function Dct2(i: nat): AcEntry
    requires i < 16
  {
    if i < 1 then A(0, 11, 12) else if i < 2 then A(8, 2, 12) else if i < 3 then A(4, 3, 12) else
    if i < 4 then A(0, 10, 12) else if i < 5 then A(2, 4, 12) else if i < 6 then A(7, 2, 12) else
    if i < 7 then A(21, 1, 12) else if i < 8 then A(20, 1, 12) else if i < 9 then A(0, 9, 12) else
    if i < 10 then A(19, 1, 12) else if i < 11 then A(18, 1, 12) else if i < 12 then A(1, 5, 12) else
    if i < 13 then A(3, 3, 12) else if i < 14 then A(0, 8, 12) else if i < 15 then A(6, 2, 12) else A(17, 1, 12)
  }

  /** Codes of 13 bits. */
  function Dct3(i: nat): AcEntry
    requires i < 16
  {
    if i < 1 then A(10, 2, 13) else if i < 2 then A(9, 2, 13) else if i < 3 then A(5, 3, 13) else
    if i < 4 then A(3, 4, 13) else if i < 5 then A(2, 5, 13) else if i < 6 then A(1, 7, 13) else
    if i < 7 then A(1, 6, 13) else if i < 8 then A(0, 15, 13) else if i < 9 then A(0, 14, 13) else
    if i < 10 then A(0, 13, 13) else if i < 11 then A(0, 12, 13) else if i < 12 then A(26, 1, 13) else
    if i < 13 then A(25, 1, 13) else if i < 14 then A(24, 1, 13) else if i < 15 then A(23, 1, 13) else
    A(22, 1, 13)
  }

  /** Codes of 14 bits. */
  function Dct4(i: nat): AcEntry
    requires i < 16
  {
    if i < 1 then A(0, 31, 14) else if i < 2 then A(0, 30, 14) else if i < 3 then A(0, 29, 14) else
    if i < 4 then A(0, 28, 14) else if i < 5 then A(0, 27, 14) else if i < 6 then A(0, 26, 14) else
    if i < 7 then A(0, 25, 14) else if i < 8 then A(0, 24, 14) else if i < 9 then A(0, 23, 14) else
    if i < 10 then A(0, 22, 14) else if i < 11 then A(0, 21, 14) else if i < 12 then A(0, 20, 14) else
    if i < 13 then A(0, 19, 14) else if i < 14 then A(0, 18, 14) else if i < 15 then A(0, 17, 14) else
    A(0, 16, 14)
  }

  /** Codes of 15 bits. */
  function Dct5(i: nat): AcEntry
    requires i < 16
  {
    if i < 1 then A(0, 40, 15) else if i < 2 then A(0, 39, 15) else if i < 3 then A(0, 38, 15) else
    if i < 4 then A(0, 37, 15) else if i < 5 then A(0, 36, 15) else if i < 6 then A(0, 35, 15) else
    if i < 7 then A(0, 34, 15) else if i < 8 then A(0, 33, 15) else if i < 9 then A(0, 32, 15) else
    if i < 10 then A(1, 14, 15) else if i < 11 then A(1, 13, 15) else if i < 12 then A(1, 12, 15) else
    if i < 13 then A(1, 11, 15) else if i < 14 then A(1, 10, 15) else if i < 15 then A(1, 9, 15) else
    A(1, 8, 15)
  }

  /** Codes of 16 bits. */
  function Dct6(i: nat): AcEntry
    requires i < 16
  {
    if i < 1 then A(1, 18, 16) else if i < 2 then A(1, 17, 16) else if i < 3 then A(1, 16, 16) else
    if i < 4 then A(1, 15, 16) else if i < 5 then A(6, 3, 16) else if i < 6 then A(16, 2, 16) else
    if i < 7 then A(15, 2, 16) else if i < 8 then A(14, 2, 16) else if i < 9 then A(13, 2, 16) else
    if i < 10 then A(12, 2, 16) else if i < 11 then A(11, 2, 16) else if i < 12 then A(31, 1, 16) else
    if i < 13 then A(30, 1, 16) else if i < 14 then A(29, 1, 16) else if i < 15 then A(28, 1, 16) else
    A(27, 1, 16)
  }

  /** The cell of the 8 x 8 block at each place of the zig-zag scan. */
  function ZigZag(i: nat): nat
    requires i < 64
  {
    match i
    case 0 => 0 case 1 => 1 case 2 => 8 case 3 => 16 case 4 => 9 case 5 => 2 case 6 => 3 case 7 => 10
    case 8 => 17 case 9 => 24 case 10 => 32 case 11 => 25 case 12 => 18 case 13 => 11 case 14 => 4 case 15 => 5
    case 16 => 12 case 17 => 19 case 18 => 26 case 19 => 33 case 20 => 40 case 21 => 48 case 22 => 41 case 23 => 34
    case 24 => 27 case 25 => 20 case 26 => 13 case 27 => 6 case 28 => 7 case 29 => 14 case 30 => 21 case 31 => 28
    case 32 => 35 case 33 => 42 case 34 => 49 case 35 => 56 case 36 => 57 case 37 => 50 case 38 => 43 case 39 => 36
    case 40 => 29 case 41 => 22 case 42 => 15 case 43 => 23 case 44 => 30 case 45 => 37 case 46 => 44 case 47 => 51
    case 48 => 58 case 49 => 59 case 50 => 52 case 51 => 45 case 52 => 38 case 53 => 31 case 54 => 39 case 55 => 46
    case 56 => 53 case 57 => 60 case 58 => 61 case 59 => 54 case 60 => 47 case 61 => 55 case 62 => 62 case _ => 63
  }
}
