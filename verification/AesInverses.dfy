/** Multiplication in GF(2^8), and the inverse of every byte other than zero. */
module AesInverses {
  import opened AesTables
  import Gf

  function Part(a: Byte, on: Byte): Byte { if on == 0 then 0 else a }

  /** The product in GF(2^8): the sum of a * x^k over the bits k of `b`. */
  function Times(a: Byte, b: Byte): Byte {
    var a1 := Gf.M2(a);
    var a2 := Gf.M2(a1);
    var a3 := Gf.M2(a2);
    var a4 := Gf.M2(a3);
    var a5 := Gf.M2(a4);
    var a6 := Gf.M2(a5);
    var a7 := Gf.M2(a6);
    Part(a, b & 1) ^ Part(a1, b & 2) ^ Part(a2, b & 4) ^ Part(a3, b & 8)
      ^ Part(a4, b & 16) ^ Part(a5, b & 32) ^ Part(a6, b & 64) ^ Part(a7, b & 128)
  }

  ghost predicate Invertible(b: Byte) { exists i :: Times(b, i) == 1 }

  lemma One()
    ensures Invertible(1)
  {
    assert Times(1, 1) == 1;
  }

  lemma Inverses0()
    ensures Times(0x02, 0x8D) == Times(0x03, 0xF6) == Times(0x04, 0xCB) == Times(0x05, 0x52) == Times(0x06, 0x7B) == 1
    ensures Times(0x07, 0xD1) == Times(0x08, 0xE8) == Times(0x09, 0x4F) == Times(0x0A, 0x29) == Times(0x0B, 0xC0) == 1
    ensures Times(0x0C, 0xB0) == Times(0x0D, 0xE1) == Times(0x0E, 0xE5) == Times(0x0F, 0xC7) == 1
  {
  }

  lemma Inverses1()
    ensures Times(0x10, 0x74) == Times(0x11, 0xB4) == Times(0x12, 0xAA) == Times(0x13, 0x4B) == Times(0x14, 0x99) == 1
    ensures Times(0x15, 0x2B) == Times(0x16, 0x60) == Times(0x17, 0x5F) == Times(0x18, 0x58) == Times(0x19, 0x3F) == 1
    ensures Times(0x1A, 0xFD) == Times(0x1B, 0xCC) == Times(0x1C, 0xFF) == Times(0x1D, 0x40) == Times(0x1E, 0xEE) == 1
    ensures Times(0x1F, 0xB2) == 1
  {
  }

  lemma Inverses2()
    ensures Times(0x20, 0x3A) == Times(0x21, 0x6E) == Times(0x22, 0x5A) == Times(0x23, 0xF1) == Times(0x24, 0x55) == 1
    ensures Times(0x25, 0x4D) == Times(0x26, 0xA8) == Times(0x27, 0xC9) == Times(0x28, 0xC1) == Times(0x29, 0x0A) == 1
    ensures Times(0x2A, 0x98) == Times(0x2B, 0x15) == Times(0x2C, 0x30) == Times(0x2D, 0x44) == Times(0x2E, 0xA2) == 1
    ensures Times(0x2F, 0xC2) == 1
  {
  }

  lemma Inverses3()
    ensures Times(0x30, 0x2C) == Times(0x31, 0x45) == Times(0x32, 0x92) == Times(0x33, 0x6C) == Times(0x34, 0xF3) == 1
    ensures Times(0x35, 0x39) == Times(0x36, 0x66) == Times(0x37, 0x42) == Times(0x38, 0xF2) == Times(0x39, 0x35) == 1
    ensures Times(0x3A, 0x20) == Times(0x3B, 0x6F) == Times(0x3C, 0x77) == Times(0x3D, 0xBB) == Times(0x3E, 0x59) == 1
    ensures Times(0x3F, 0x19) == 1
  {
  }

  lemma Inverses4()
    ensures Times(0x40, 0x1D) == Times(0x41, 0xFE) == Times(0x42, 0x37) == Times(0x43, 0x67) == Times(0x44, 0x2D) == 1
    ensures Times(0x45, 0x31) == Times(0x46, 0xF5) == Times(0x47, 0x69) == Times(0x48, 0xA7) == Times(0x49, 0x64) == 1
    ensures Times(0x4A, 0xAB) == Times(0x4B, 0x13) == Times(0x4C, 0x54) == Times(0x4D, 0x25) == Times(0x4E, 0xE9) == 1
    ensures Times(0x4F, 0x09) == 1
  {
  }

  lemma Inverses5()
    ensures Times(0x50, 0xED) == Times(0x51, 0x5C) == Times(0x52, 0x05) == Times(0x53, 0xCA) == Times(0x54, 0x4C) == 1
    ensures Times(0x55, 0x24) == Times(0x56, 0x87) == Times(0x57, 0xBF) == Times(0x58, 0x18) == Times(0x59, 0x3E) == 1
    ensures Times(0x5A, 0x22) == Times(0x5B, 0xF0) == Times(0x5C, 0x51) == Times(0x5D, 0xEC) == Times(0x5E, 0x61) == 1
    ensures Times(0x5F, 0x17) == 1
  {
  }

  lemma Inverses6()
    ensures Times(0x60, 0x16) == Times(0x61, 0x5E) == Times(0x62, 0xAF) == Times(0x63, 0xD3) == Times(0x64, 0x49) == 1
    ensures Times(0x65, 0xA6) == Times(0x66, 0x36) == Times(0x67, 0x43) == Times(0x68, 0xF4) == Times(0x69, 0x47) == 1
    ensures Times(0x6A, 0x91) == Times(0x6B, 0xDF) == Times(0x6C, 0x33) == Times(0x6D, 0x93) == Times(0x6E, 0x21) == 1
    ensures Times(0x6F, 0x3B) == 1
  {
  }

  lemma Inverses7()
    ensures Times(0x70, 0x79) == Times(0x71, 0xB7) == Times(0x72, 0x97) == Times(0x73, 0x85) == Times(0x74, 0x10) == 1
    ensures Times(0x75, 0xB5) == Times(0x76, 0xBA) == Times(0x77, 0x3C) == Times(0x78, 0xB6) == Times(0x79, 0x70) == 1
    ensures Times(0x7A, 0xD0) == Times(0x7B, 0x06) == Times(0x7C, 0xA1) == Times(0x7D, 0xFA) == Times(0x7E, 0x81) == 1
    ensures Times(0x7F, 0x82) == 1
  {
  }

  lemma Inverses8()
    ensures Times(0x80, 0x83) == Times(0x81, 0x7E) == Times(0x82, 0x7F) == Times(0x83, 0x80) == Times(0x84, 0x96) == 1
    ensures Times(0x85, 0x73) == Times(0x86, 0xBE) == Times(0x87, 0x56) == Times(0x88, 0x9B) == Times(0x89, 0x9E) == 1
    ensures Times(0x8A, 0x95) == Times(0x8B, 0xD9) == Times(0x8C, 0xF7) == Times(0x8D, 0x02) == Times(0x8E, 0xB9) == 1
    ensures Times(0x8F, 0xA4) == 1
  {
  }

  lemma Inverses9()
    ensures Times(0x90, 0xDE) == Times(0x91, 0x6A) == Times(0x92, 0x32) == Times(0x93, 0x6D) == Times(0x94, 0xD8) == 1
    ensures Times(0x95, 0x8A) == Times(0x96, 0x84) == Times(0x97, 0x72) == Times(0x98, 0x2A) == Times(0x99, 0x14) == 1
    ensures Times(0x9A, 0x9F) == Times(0x9B, 0x88) == Times(0x9C, 0xF9) == Times(0x9D, 0xDC) == Times(0x9E, 0x89) == 1
    ensures Times(0x9F, 0x9A) == 1
  {
  }

  lemma InversesA()
    ensures Times(0xA0, 0xFB) == Times(0xA1, 0x7C) == Times(0xA2, 0x2E) == Times(0xA3, 0xC3) == Times(0xA4, 0x8F) == 1
    ensures Times(0xA5, 0xB8) == Times(0xA6, 0x65) == Times(0xA7, 0x48) == Times(0xA8, 0x26) == Times(0xA9, 0xC8) == 1
    ensures Times(0xAA, 0x12) == Times(0xAB, 0x4A) == Times(0xAC, 0xCE) == Times(0xAD, 0xE7) == Times(0xAE, 0xD2) == 1
    ensures Times(0xAF, 0x62) == 1
  {
  }

  lemma InversesB()
    ensures Times(0xB0, 0x0C) == Times(0xB1, 0xE0) == Times(0xB2, 0x1F) == Times(0xB3, 0xEF) == Times(0xB4, 0x11) == 1
    ensures Times(0xB5, 0x75) == Times(0xB6, 0x78) == Times(0xB7, 0x71) == Times(0xB8, 0xA5) == Times(0xB9, 0x8E) == 1
    ensures Times(0xBA, 0x76) == Times(0xBB, 0x3D) == Times(0xBC, 0xBD) == Times(0xBD, 0xBC) == Times(0xBE, 0x86) == 1
    ensures Times(0xBF, 0x57) == 1
  {
  }

  lemma InversesC()
    ensures Times(0xC0, 0x0B) == Times(0xC1, 0x28) == Times(0xC2, 0x2F) == Times(0xC3, 0xA3) == Times(0xC4, 0xDA) == 1
    ensures Times(0xC5, 0xD4) == Times(0xC6, 0xE4) == Times(0xC7, 0x0F) == Times(0xC8, 0xA9) == Times(0xC9, 0x27) == 1
    ensures Times(0xCA, 0x53) == Times(0xCB, 0x04) == Times(0xCC, 0x1B) == Times(0xCD, 0xFC) == Times(0xCE, 0xAC) == 1
    ensures Times(0xCF, 0xE6) == 1
  {
  }

  lemma InversesD()
    ensures Times(0xD0, 0x7A) == Times(0xD1, 0x07) == Times(0xD2, 0xAE) == Times(0xD3, 0x63) == Times(0xD4, 0xC5) == 1
    ensures Times(0xD5, 0xDB) == Times(0xD6, 0xE2) == Times(0xD7, 0xEA) == Times(0xD8, 0x94) == Times(0xD9, 0x8B) == 1
    ensures Times(0xDA, 0xC4) == Times(0xDB, 0xD5) == Times(0xDC, 0x9D) == Times(0xDD, 0xF8) == Times(0xDE, 0x90) == 1
    ensures Times(0xDF, 0x6B) == 1
  {
  }

  lemma InversesE()
    ensures Times(0xE0, 0xB1) == Times(0xE1, 0x0D) == Times(0xE2, 0xD6) == Times(0xE3, 0xEB) == Times(0xE4, 0xC6) == 1
    ensures Times(0xE5, 0x0E) == Times(0xE6, 0xCF) == Times(0xE7, 0xAD) == Times(0xE8, 0x08) == Times(0xE9, 0x4E) == 1
    ensures Times(0xEA, 0xD7) == Times(0xEB, 0xE3) == Times(0xEC, 0x5D) == Times(0xED, 0x50) == Times(0xEE, 0x1E) == 1
    ensures Times(0xEF, 0xB3) == 1
  {
  }

  lemma InversesF()
    ensures Times(0xF0, 0x5B) == Times(0xF1, 0x23) == Times(0xF2, 0x38) == Times(0xF3, 0x34) == Times(0xF4, 0x68) == 1
    ensures Times(0xF5, 0x46) == Times(0xF6, 0x03) == Times(0xF7, 0x8C) == Times(0xF8, 0xDD) == Times(0xF9, 0x9C) == 1
    ensures Times(0xFA, 0x7D) == Times(0xFB, 0xA0) == Times(0xFC, 0xCD) == Times(0xFD, 0x1A) == Times(0xFE, 0x41) == 1
    ensures Times(0xFF, 0x1C) == 1
  {
  }

  lemma Row0(b: Byte)
    requires b != 0 && b >> 4 == 0
    ensures Invertible(b)
  {
    One(); Inverses0();
    hide Times;
  }

  lemma Row1(b: Byte)
    requires b != 0 && b >> 4 == 1
    ensures Invertible(b)
  {
    Inverses1();
    hide Times;
  }

  lemma Row2(b: Byte)
    requires b != 0 && b >> 4 == 2
    ensures Invertible(b)
  {
    Inverses2();
    hide Times;
  }

  lemma Row3(b: Byte)
    requires b != 0 && b >> 4 == 3
    ensures Invertible(b)
  {
    Inverses3();
    hide Times;
  }

  lemma Row4(b: Byte)
    requires b != 0 && b >> 4 == 4
    ensures Invertible(b)
  {
    Inverses4();
    hide Times;
  }

  lemma Row5(b: Byte)
    requires b != 0 && b >> 4 == 5
    ensures Invertible(b)
  {
    Inverses5();
    hide Times;
  }

  lemma Row6(b: Byte)
    requires b != 0 && b >> 4 == 6
    ensures Invertible(b)
  {
    Inverses6();
    hide Times;
  }

  lemma Row7(b: Byte)
    requires b != 0 && b >> 4 == 7
    ensures Invertible(b)
  {
    Inverses7();
    hide Times;
  }

  lemma Row8(b: Byte)
    requires b != 0 && b >> 4 == 8
    ensures Invertible(b)
  {
    Inverses8();
    hide Times;
  }

  lemma Row9(b: Byte)
    requires b != 0 && b >> 4 == 9
    ensures Invertible(b)
  {
    Inverses9();
    hide Times;
  }

  lemma RowA(b: Byte)
    requires b != 0 && b >> 4 == 10
    ensures Invertible(b)
  {
    InversesA();
    hide Times;
  }

  lemma RowB(b: Byte)
    requires b != 0 && b >> 4 == 11
    ensures Invertible(b)
  {
    InversesB();
    hide Times;
  }

  lemma RowC(b: Byte)
    requires b != 0 && b >> 4 == 12
    ensures Invertible(b)
  {
    InversesC();
    hide Times;
  }

  lemma RowD(b: Byte)
    requires b != 0 && b >> 4 == 13
    ensures Invertible(b)
  {
    InversesD();
    hide Times;
  }

  lemma RowE(b: Byte)
    requires b != 0 && b >> 4 == 14
    ensures Invertible(b)
  {
    InversesE();
    hide Times;
  }

  lemma RowF(b: Byte)
    requires b != 0 && b >> 4 == 15
    ensures Invertible(b)
  {
    InversesF();
    hide Times;
  }

  /** Every byte other than zero has an inverse. */
  lemma HasInverse(b: Byte)
    requires b != 0
    ensures Invertible(b)
  {
    hide Invertible;
    match b >> 4
    case 0 => Row0(b);
    case 1 => Row1(b);
    case 2 => Row2(b);
    case 3 => Row3(b);
    case 4 => Row4(b);
    case 5 => Row5(b);
    case 6 => Row6(b);
    case 7 => Row7(b);
    case 8 => Row8(b);
    case 9 => Row9(b);
    case 10 => RowA(b);
    case 11 => RowB(b);
    case 12 => RowC(b);
    case 13 => RowD(b);
    case 14 => RowE(b);
    case _ => RowF(b);
  }
}
