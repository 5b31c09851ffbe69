/*
 * The cache keys that tests/Cache/CacheKeyTest.php expects, derived from
 * the definitions in CacheKey: the print_r text of the values, the bytes
 * of each string, the FNV-1 64 rounds over them and the hexadecimal
 * rendering. The rounds are cut into short stretches so that each step is
 * a small computation on constants.
 */
module CacheKeyVectors {
  import opened Php
  import opened Fnv
  import opened CacheKey

  lemma HexEntityOneHigh()
    ensures HexDigits(0x7b5de198, 8) == "7b5de198"
  {
    var x0: nat := 0;
    assert HexDigits(x0, 0) == [];
    var x1: nat := 0x7;
    HexDigitsPush(x1, x0, 7, 0, "");
    assert HexDigit(7) == '7';
    var x2: nat := 0x7b;
    HexDigitsPush(x2, x1, 11, 1, "7");
    assert HexDigit(11) == 'b';
    var x3: nat := 0x7b5;
    HexDigitsPush(x3, x2, 5, 2, "7b");
    assert HexDigit(5) == '5';
    var x4: nat := 0x7b5d;
    HexDigitsPush(x4, x3, 13, 3, "7b5");
    assert HexDigit(13) == 'd';
    var x5: nat := 0x7b5de;
    HexDigitsPush(x5, x4, 14, 4, "7b5d");
    assert HexDigit(14) == 'e';
    var x6: nat := 0x7b5de1;
    HexDigitsPush(x6, x5, 1, 5, "7b5de");
    assert HexDigit(1) == '1';
    var x7: nat := 0x7b5de19;
    HexDigitsPush(x7, x6, 9, 6, "7b5de1");
    assert HexDigit(9) == '9';
    var x8: nat := 0x7b5de198;
    HexDigitsPush(x8, x7, 8, 7, "7b5de19");
    assert HexDigit(8) == '8';
  }

  lemma HexEntityOne()
    ensures Hex(0x7b5de198fe1115b5) == "7b5de198fe1115b5"
  {
    var x8: nat := 0x7b5de198;
    HexEntityOneHigh();
    var x9: nat := 0x7b5de198f;
    HexDigitsPush(x9, x8, 15, 8, "7b5de198");
    assert HexDigit(15) == 'f';
    var x10: nat := 0x7b5de198fe;
    HexDigitsPush(x10, x9, 14, 9, "7b5de198f");
    assert HexDigit(14) == 'e';
    var x11: nat := 0x7b5de198fe1;
    HexDigitsPush(x11, x10, 1, 10, "7b5de198fe");
    assert HexDigit(1) == '1';
    var x12: nat := 0x7b5de198fe11;
    HexDigitsPush(x12, x11, 1, 11, "7b5de198fe1");
    assert HexDigit(1) == '1';
    var x13: nat := 0x7b5de198fe111;
    HexDigitsPush(x13, x12, 1, 12, "7b5de198fe11");
    assert HexDigit(1) == '1';
    var x14: nat := 0x7b5de198fe1115;
    HexDigitsPush(x14, x13, 5, 13, "7b5de198fe111");
    assert HexDigit(5) == '5';
    var x15: nat := 0x7b5de198fe1115b;
    HexDigitsPush(x15, x14, 11, 14, "7b5de198fe1115");
    assert HexDigit(11) == 'b';
    var x16: nat := 0x7b5de198fe1115b5;
    HexDigitsPush(x16, x15, 5, 15, "7b5de198fe1115b");
    assert HexDigit(5) == '5';
    assert (0x7b5de198fe1115b5 as bv64) as nat == x16;
  }

  lemma BytesOf1(s: string)
    requires s == "Array\n(\n"
    ensures Bytes(s) == [65, 114, 114, 97, 121, 10, 40, 10]
  {
    assert Byte(s[0]) == 65;
    assert Byte(s[1]) == 114;
    assert Byte(s[2]) == 114;
    assert Byte(s[3]) == 97;
    assert Byte(s[4]) == 121;
    assert Byte(s[5]) == 10;
    assert Byte(s[6]) == 40;
    assert Byte(s[7]) == 10;
  }

  lemma Round1()
    ensures Continue(0xcbf29ce484222325, [65, 114, 114, 97, 121, 10, 40, 10]) == 0x293c6f29beba96f4
  {
  }

  lemma BytesOf2(s: string)
    requires s == "    ["
    ensures Bytes(s) == [32, 32, 32, 32, 91]
  {
    assert Byte(s[0]) == 32;
    assert Byte(s[1]) == 32;
    assert Byte(s[2]) == 32;
    assert Byte(s[3]) == 32;
    assert Byte(s[4]) == 91;
  }

  lemma Round2()
    ensures Continue(0x293c6f29beba96f4, [32, 32, 32, 32, 91]) == 0x5a71de79e750f607
  {
  }

  lemma BytesOf3(s: string)
    requires s == "0"
    ensures Bytes(s) == [48]
  {
    assert Byte(s[0]) == 48;
  }

  lemma Round3()
    ensures Continue(0x5a71de79e750f607, [48]) == 0x007310240e920dd5
  {
  }

  lemma BytesOf4(s: string)
    requires s == "] => "
    ensures Bytes(s) == [93, 32, 61, 62, 32]
  {
    assert Byte(s[0]) == 93;
    assert Byte(s[1]) == 32;
    assert Byte(s[2]) == 61;
    assert Byte(s[3]) == 62;
    assert Byte(s[4]) == 32;
  }

  lemma Round4()
    ensures Continue(0x007310240e920dd5, [93, 32, 61, 62, 32]) == 0x7c7775c23a19f1e9
  {
  }

  lemma BytesOf5(s: string)
    requires s == "1"
    ensures Bytes(s) == [49]
  {
    assert Byte(s[0]) == 49;
  }

  lemma Round5()
    ensures Continue(0x7c7775c23a19f1e9, [49]) == 0x98ef0208ba160eda
  {
  }

  lemma BytesOf6(s: string)
    requires s == "\n"
    ensures Bytes(s) == [10]
  {
    assert Byte(s[0]) == 10;
  }

  lemma Round6()
    ensures Continue(0x98ef0208ba160eda, [10]) == 0xf42f4ed4337b3c64
  {
  }

  lemma BytesOf7(s: string)
    requires s == ")\n"
    ensures Bytes(s) == [41, 10]
  {
    assert Byte(s[0]) == 41;
    assert Byte(s[1]) == 10;
  }

  lemma Round7()
    ensures Continue(0xf42f4ed4337b3c64, [41, 10]) == 0x7b5de198fe1115b5
  {
  }

  lemma DigestEntityOne(p0: string, p1: string, p2: string, p3: string, p4: string, p5: string, p6: string, p7: string)
    requires p0 == "Array\n(\n"
    requires p1 == ""
    requires p2 == "    ["
    requires p3 == "0"
    requires p4 == "] => "
    requires p5 == "1"
    requires p6 == "\n"
    requires p7 == ")\n"
    ensures Fnv164(p0 + (p1 + (p2 + p3 + p4 + p5 + p6)) + p7) == "7b5de198fe1115b5"
  {
    HashIsFold(Bytes(p0 + (p1 + (p2 + p3 + p4 + p5 + p6)) + p7));
    ContinueBytesConcat(0xcbf29ce484222325, p0 + (p1 + (p2 + p3 + p4 + p5 + p6)), p7);
    ContinueBytesConcat(0xcbf29ce484222325, p0, p1 + (p2 + p3 + p4 + p5 + p6));
    BytesOf1(p0);
    Round1();
    ContinueBytesConcat(0x293c6f29beba96f4, p1, p2 + p3 + p4 + p5 + p6);
    assert Bytes(p1) == [];
    ContinueBytesConcat(0x293c6f29beba96f4, p2 + p3 + p4 + p5, p6);
    ContinueBytesConcat(0x293c6f29beba96f4, p2 + p3 + p4, p5);
    ContinueBytesConcat(0x293c6f29beba96f4, p2 + p3, p4);
    ContinueBytesConcat(0x293c6f29beba96f4, p2, p3);
    BytesOf2(p2);
    Round2();
    BytesOf3(p3);
    Round3();
    BytesOf4(p4);
    Round4();
    BytesOf5(p5);
    Round5();
    BytesOf6(p6);
    Round6();
    BytesOf7(p7);
    Round7();
    HexEntityOne();
  }

  lemma HexEntityTwoHigh()
    ensures HexDigits(0xb1c37c93, 8) == "b1c37c93"
  {
    var x0: nat := 0;
    assert HexDigits(x0, 0) == [];
    var x1: nat := 0xb;
    HexDigitsPush(x1, x0, 11, 0, "");
    assert HexDigit(11) == 'b';
    var x2: nat := 0xb1;
    HexDigitsPush(x2, x1, 1, 1, "b");
    assert HexDigit(1) == '1';
    var x3: nat := 0xb1c;
    HexDigitsPush(x3, x2, 12, 2, "b1");
    assert HexDigit(12) == 'c';
    var x4: nat := 0xb1c3;
    HexDigitsPush(x4, x3, 3, 3, "b1c");
    assert HexDigit(3) == '3';
    var x5: nat := 0xb1c37;
    HexDigitsPush(x5, x4, 7, 4, "b1c3");
    assert HexDigit(7) == '7';
    var x6: nat := 0xb1c37c;
    HexDigitsPush(x6, x5, 12, 5, "b1c37");
    assert HexDigit(12) == 'c';
    var x7: nat := 0xb1c37c9;
    HexDigitsPush(x7, x6, 9, 6, "b1c37c");
    assert HexDigit(9) == '9';
    var x8: nat := 0xb1c37c93;
    HexDigitsPush(x8, x7, 3, 7, "b1c37c9");
    assert HexDigit(3) == '3';
  }

  lemma HexEntityTwo()
    ensures Hex(0xb1c37c9333541e7a) == "b1c37c9333541e7a"
  {
    var x8: nat := 0xb1c37c93;
    HexEntityTwoHigh();
    var x9: nat := 0xb1c37c933;
    HexDigitsPush(x9, x8, 3, 8, "b1c37c93");
    assert HexDigit(3) == '3';
    var x10: nat := 0xb1c37c9333;
    HexDigitsPush(x10, x9, 3, 9, "b1c37c933");
    assert HexDigit(3) == '3';
    var x11: nat := 0xb1c37c93335;
    HexDigitsPush(x11, x10, 5, 10, "b1c37c9333");
    assert HexDigit(5) == '5';
    var x12: nat := 0xb1c37c933354;
    HexDigitsPush(x12, x11, 4, 11, "b1c37c93335");
    assert HexDigit(4) == '4';
    var x13: nat := 0xb1c37c9333541;
    HexDigitsPush(x13, x12, 1, 12, "b1c37c933354");
    assert HexDigit(1) == '1';
    var x14: nat := 0xb1c37c9333541e;
    HexDigitsPush(x14, x13, 14, 13, "b1c37c9333541");
    assert HexDigit(14) == 'e';
    var x15: nat := 0xb1c37c9333541e7;
    HexDigitsPush(x15, x14, 7, 14, "b1c37c9333541e");
    assert HexDigit(7) == '7';
    var x16: nat := 0xb1c37c9333541e7a;
    HexDigitsPush(x16, x15, 10, 15, "b1c37c9333541e7");
    assert HexDigit(10) == 'a';
    assert (0xb1c37c9333541e7a as bv64) as nat == x16;
  }

  lemma Round8()
    ensures Continue(0xf42f4ed4337b3c64, [32, 32, 32, 32, 91]) == 0x5632fc42032af6f7
  {
  }

  lemma Round9()
    ensures Continue(0x5632fc42032af6f7, [49]) == 0xa3999b2b6201a584
  {
  }

  lemma Round10()
    ensures Continue(0xa3999b2b6201a584, [93, 32, 61, 62, 32]) == 0x35d67a6aa1a4f5f6
  {
  }

  lemma Round11()
    ensures Continue(0x35d67a6aa1a4f5f6, [49]) == 0x2067f930ab4df133
  {
  }

  lemma Round12()
    ensures Continue(0x2067f930ab4df133, [10]) == 0x5e9da0b31570d9a3
  {
  }

  lemma Round13()
    ensures Continue(0x5e9da0b31570d9a3, [41, 10]) == 0xb1c37c9333541e7a
  {
  }

  lemma DigestEntityTwo(p0: string, p1: string, p2: string, p3: string, p4: string, p5: string, p6: string, p7: string, p8: string, p9: string, p10: string, p11: string, p12: string)
    requires p0 == "Array\n(\n"
    requires p1 == ""
    requires p2 == "    ["
    requires p3 == "0"
    requires p4 == "] => "
    requires p5 == "1"
    requires p6 == "\n"
    requires p7 == "    ["
    requires p8 == "1"
    requires p9 == "] => "
    requires p10 == "1"
    requires p11 == "\n"
    requires p12 == ")\n"
    ensures Fnv164(p0 + (p1 + (p2 + p3 + p4 + p5 + p6) + (p7 + p8 + p9 + p10 + p11)) + p12) == "b1c37c9333541e7a"
  {
    HashIsFold(Bytes(p0 + (p1 + (p2 + p3 + p4 + p5 + p6) + (p7 + p8 + p9 + p10 + p11)) + p12));
    ContinueBytesConcat(0xcbf29ce484222325, p0 + (p1 + (p2 + p3 + p4 + p5 + p6) + (p7 + p8 + p9 + p10 + p11)), p12);
    ContinueBytesConcat(0xcbf29ce484222325, p0, p1 + (p2 + p3 + p4 + p5 + p6) + (p7 + p8 + p9 + p10 + p11));
    BytesOf1(p0);
    Round1();
    ContinueBytesConcat(0x293c6f29beba96f4, p1 + (p2 + p3 + p4 + p5 + p6), p7 + p8 + p9 + p10 + p11);
    ContinueBytesConcat(0x293c6f29beba96f4, p1, p2 + p3 + p4 + p5 + p6);
    assert Bytes(p1) == [];
    ContinueBytesConcat(0x293c6f29beba96f4, p2 + p3 + p4 + p5, p6);
    ContinueBytesConcat(0x293c6f29beba96f4, p2 + p3 + p4, p5);
    ContinueBytesConcat(0x293c6f29beba96f4, p2 + p3, p4);
    ContinueBytesConcat(0x293c6f29beba96f4, p2, p3);
    BytesOf2(p2);
    Round2();
    BytesOf3(p3);
    Round3();
    BytesOf4(p4);
    Round4();
    BytesOf5(p5);
    Round5();
    BytesOf6(p6);
    Round6();
    ContinueBytesConcat(0xf42f4ed4337b3c64, p7 + p8 + p9 + p10, p11);
    ContinueBytesConcat(0xf42f4ed4337b3c64, p7 + p8 + p9, p10);
    ContinueBytesConcat(0xf42f4ed4337b3c64, p7 + p8, p9);
    ContinueBytesConcat(0xf42f4ed4337b3c64, p7, p8);
    BytesOf2(p7);
    Round8();
    BytesOf5(p8);
    Round9();
    BytesOf4(p9);
    Round10();
    BytesOf5(p10);
    Round11();
    BytesOf6(p11);
    Round12();
    BytesOf7(p12);
    Round13();
    HexEntityTwo();
  }

  lemma HexNoParamsHigh()
    ensures HexDigits(0x2c94a044, 8) == "2c94a044"
  {
    var x0: nat := 0;
    assert HexDigits(x0, 0) == [];
    var x1: nat := 0x2;
    HexDigitsPush(x1, x0, 2, 0, "");
    assert HexDigit(2) == '2';
    var x2: nat := 0x2c;
    HexDigitsPush(x2, x1, 12, 1, "2");
    assert HexDigit(12) == 'c';
    var x3: nat := 0x2c9;
    HexDigitsPush(x3, x2, 9, 2, "2c");
    assert HexDigit(9) == '9';
    var x4: nat := 0x2c94;
    HexDigitsPush(x4, x3, 4, 3, "2c9");
    assert HexDigit(4) == '4';
    var x5: nat := 0x2c94a;
    HexDigitsPush(x5, x4, 10, 4, "2c94");
    assert HexDigit(10) == 'a';
    var x6: nat := 0x2c94a0;
    HexDigitsPush(x6, x5, 0, 5, "2c94a");
    assert HexDigit(0) == '0';
    var x7: nat := 0x2c94a04;
    HexDigitsPush(x7, x6, 4, 6, "2c94a0");
    assert HexDigit(4) == '4';
    var x8: nat := 0x2c94a044;
    HexDigitsPush(x8, x7, 4, 7, "2c94a04");
    assert HexDigit(4) == '4';
  }

  lemma HexNoParams()
    ensures Hex(0x2c94a0442da4b385) == "2c94a0442da4b385"
  {
    var x8: nat := 0x2c94a044;
    HexNoParamsHigh();
    var x9: nat := 0x2c94a0442;
    HexDigitsPush(x9, x8, 2, 8, "2c94a044");
    assert HexDigit(2) == '2';
    var x10: nat := 0x2c94a0442d;
    HexDigitsPush(x10, x9, 13, 9, "2c94a0442");
    assert HexDigit(13) == 'd';
    var x11: nat := 0x2c94a0442da;
    HexDigitsPush(x11, x10, 10, 10, "2c94a0442d");
    assert HexDigit(10) == 'a';
    var x12: nat := 0x2c94a0442da4;
    HexDigitsPush(x12, x11, 4, 11, "2c94a0442da");
    assert HexDigit(4) == '4';
    var x13: nat := 0x2c94a0442da4b;
    HexDigitsPush(x13, x12, 11, 12, "2c94a0442da4");
    assert HexDigit(11) == 'b';
    var x14: nat := 0x2c94a0442da4b3;
    HexDigitsPush(x14, x13, 3, 13, "2c94a0442da4b");
    assert HexDigit(3) == '3';
    var x15: nat := 0x2c94a0442da4b38;
    HexDigitsPush(x15, x14, 8, 14, "2c94a0442da4b3");
    assert HexDigit(8) == '8';
    var x16: nat := 0x2c94a0442da4b385;
    HexDigitsPush(x16, x15, 5, 15, "2c94a0442da4b38");
    assert HexDigit(5) == '5';
    assert (0x2c94a0442da4b385 as bv64) as nat == x16;
  }

  lemma Round14()
    ensures Continue(0x293c6f29beba96f4, [41, 10]) == 0x2c94a0442da4b385
  {
  }

  lemma DigestNoParams(p0: string, p1: string, p2: string)
    requires p0 == "Array\n(\n"
    requires p1 == ""
    requires p2 == ")\n"
    ensures Fnv164(p0 + p1 + p2) == "2c94a0442da4b385"
  {
    HashIsFold(Bytes(p0 + p1 + p2));
    ContinueBytesConcat(0xcbf29ce484222325, p0 + p1, p2);
    ContinueBytesConcat(0xcbf29ce484222325, p0, p1);
    BytesOf1(p0);
    Round1();
    assert Bytes(p1) == [];
    BytesOf7(p2);
    Round14();
    HexNoParams();
  }

  lemma HexIdParamHigh()
    ensures HexDigits(0xa4c76491, 8) == "a4c76491"
  {
    var x0: nat := 0;
    assert HexDigits(x0, 0) == [];
    var x1: nat := 0xa;
    HexDigitsPush(x1, x0, 10, 0, "");
    assert HexDigit(10) == 'a';
    var x2: nat := 0xa4;
    HexDigitsPush(x2, x1, 4, 1, "a");
    assert HexDigit(4) == '4';
    var x3: nat := 0xa4c;
    HexDigitsPush(x3, x2, 12, 2, "a4");
    assert HexDigit(12) == 'c';
    var x4: nat := 0xa4c7;
    HexDigitsPush(x4, x3, 7, 3, "a4c");
    assert HexDigit(7) == '7';
    var x5: nat := 0xa4c76;
    HexDigitsPush(x5, x4, 6, 4, "a4c7");
    assert HexDigit(6) == '6';
    var x6: nat := 0xa4c764;
    HexDigitsPush(x6, x5, 4, 5, "a4c76");
    assert HexDigit(4) == '4';
    var x7: nat := 0xa4c7649;
    HexDigitsPush(x7, x6, 9, 6, "a4c764");
    assert HexDigit(9) == '9';
    var x8: nat := 0xa4c76491;
    HexDigitsPush(x8, x7, 1, 7, "a4c7649");
    assert HexDigit(1) == '1';
  }

  lemma HexIdParam()
    ensures Hex(0xa4c764911b74bd06) == "a4c764911b74bd06"
  {
    var x8: nat := 0xa4c76491;
    HexIdParamHigh();
    var x9: nat := 0xa4c764911;
    HexDigitsPush(x9, x8, 1, 8, "a4c76491");
    assert HexDigit(1) == '1';
    var x10: nat := 0xa4c764911b;
    HexDigitsPush(x10, x9, 11, 9, "a4c764911");
    assert HexDigit(11) == 'b';
    var x11: nat := 0xa4c764911b7;
    HexDigitsPush(x11, x10, 7, 10, "a4c764911b");
    assert HexDigit(7) == '7';
    var x12: nat := 0xa4c764911b74;
    HexDigitsPush(x12, x11, 4, 11, "a4c764911b7");
    assert HexDigit(4) == '4';
    var x13: nat := 0xa4c764911b74b;
    HexDigitsPush(x13, x12, 11, 12, "a4c764911b74");
    assert HexDigit(11) == 'b';
    var x14: nat := 0xa4c764911b74bd;
    HexDigitsPush(x14, x13, 13, 13, "a4c764911b74b");
    assert HexDigit(13) == 'd';
    var x15: nat := 0xa4c764911b74bd0;
    HexDigitsPush(x15, x14, 0, 14, "a4c764911b74bd");
    assert HexDigit(0) == '0';
    var x16: nat := 0xa4c764911b74bd06;
    HexDigitsPush(x16, x15, 6, 15, "a4c764911b74bd0");
    assert HexDigit(6) == '6';
    assert (0xa4c764911b74bd06 as bv64) as nat == x16;
  }

  lemma BytesOf8(s: string)
    requires s == "id"
    ensures Bytes(s) == [105, 100]
  {
    assert Byte(s[0]) == 105;
    assert Byte(s[1]) == 100;
  }

  lemma Round15()
    ensures Continue(0x5a71de79e750f607, [105, 100]) == 0x5591f944c22d0480
  {
  }

  lemma Round16()
    ensures Continue(0x5591f944c22d0480, [93, 32, 61, 62, 32]) == 0x10ff211c8dde3602
  {
  }

  lemma Round17()
    ensures Continue(0x10ff211c8dde3602, [49]) == 0xbfbb45851095c557
  {
  }

  lemma Round18()
    ensures Continue(0xbfbb45851095c557, [10]) == 0x60fc781b2e7e52df
  {
  }

  lemma Round19()
    ensures Continue(0x60fc781b2e7e52df, [41, 10]) == 0xa4c764911b74bd06
  {
  }

  lemma DigestIdParam(p0: string, p1: string, p2: string, p3: string, p4: string, p5: string, p6: string, p7: string)
    requires p0 == "Array\n(\n"
    requires p1 == ""
    requires p2 == "    ["
    requires p3 == "id"
    requires p4 == "] => "
    requires p5 == "1"
    requires p6 == "\n"
    requires p7 == ")\n"
    ensures Fnv164(p0 + (p1 + (p2 + p3 + p4 + p5 + p6)) + p7) == "a4c764911b74bd06"
  {
    HashIsFold(Bytes(p0 + (p1 + (p2 + p3 + p4 + p5 + p6)) + p7));
    ContinueBytesConcat(0xcbf29ce484222325, p0 + (p1 + (p2 + p3 + p4 + p5 + p6)), p7);
    ContinueBytesConcat(0xcbf29ce484222325, p0, p1 + (p2 + p3 + p4 + p5 + p6));
    BytesOf1(p0);
    Round1();
    ContinueBytesConcat(0x293c6f29beba96f4, p1, p2 + p3 + p4 + p5 + p6);
    assert Bytes(p1) == [];
    ContinueBytesConcat(0x293c6f29beba96f4, p2 + p3 + p4 + p5, p6);
    ContinueBytesConcat(0x293c6f29beba96f4, p2 + p3 + p4, p5);
    ContinueBytesConcat(0x293c6f29beba96f4, p2 + p3, p4);
    ContinueBytesConcat(0x293c6f29beba96f4, p2, p3);
    BytesOf2(p2);
    Round2();
    BytesOf8(p3);
    Round15();
    BytesOf4(p4);
    Round16();
    BytesOf5(p5);
    Round17();
    BytesOf6(p6);
    Round18();
    BytesOf7(p7);
    Round19();
    HexIdParam();
  }

  lemma HexSelectAllHigh()
    ensures HexDigits(0xf394a834, 8) == "f394a834"
  {
    var x0: nat := 0;
    assert HexDigits(x0, 0) == [];
    var x1: nat := 0xf;
    HexDigitsPush(x1, x0, 15, 0, "");
    assert HexDigit(15) == 'f';
    var x2: nat := 0xf3;
    HexDigitsPush(x2, x1, 3, 1, "f");
    assert HexDigit(3) == '3';
    var x3: nat := 0xf39;
    HexDigitsPush(x3, x2, 9, 2, "f3");
    assert HexDigit(9) == '9';
    var x4: nat := 0xf394;
    HexDigitsPush(x4, x3, 4, 3, "f39");
    assert HexDigit(4) == '4';
    var x5: nat := 0xf394a;
    HexDigitsPush(x5, x4, 10, 4, "f394");
    assert HexDigit(10) == 'a';
    var x6: nat := 0xf394a8;
    HexDigitsPush(x6, x5, 8, 5, "f394a");
    assert HexDigit(8) == '8';
    var x7: nat := 0xf394a83;
    HexDigitsPush(x7, x6, 3, 6, "f394a8");
    assert HexDigit(3) == '3';
    var x8: nat := 0xf394a834;
    HexDigitsPush(x8, x7, 4, 7, "f394a83");
    assert HexDigit(4) == '4';
  }

  lemma HexSelectAll()
    ensures Hex(0xf394a834e47b5d55) == "f394a834e47b5d55"
  {
    var x8: nat := 0xf394a834;
    HexSelectAllHigh();
    var x9: nat := 0xf394a834e;
    HexDigitsPush(x9, x8, 14, 8, "f394a834");
    assert HexDigit(14) == 'e';
    var x10: nat := 0xf394a834e4;
    HexDigitsPush(x10, x9, 4, 9, "f394a834e");
    assert HexDigit(4) == '4';
    var x11: nat := 0xf394a834e47;
    HexDigitsPush(x11, x10, 7, 10, "f394a834e4");
    assert HexDigit(7) == '7';
    var x12: nat := 0xf394a834e47b;
    HexDigitsPush(x12, x11, 11, 11, "f394a834e47");
    assert HexDigit(11) == 'b';
    var x13: nat := 0xf394a834e47b5;
    HexDigitsPush(x13, x12, 5, 12, "f394a834e47b");
    assert HexDigit(5) == '5';
    var x14: nat := 0xf394a834e47b5d;
    HexDigitsPush(x14, x13, 13, 13, "f394a834e47b5");
    assert HexDigit(13) == 'd';
    var x15: nat := 0xf394a834e47b5d5;
    HexDigitsPush(x15, x14, 5, 14, "f394a834e47b5d");
    assert HexDigit(5) == '5';
    var x16: nat := 0xf394a834e47b5d55;
    HexDigitsPush(x16, x15, 5, 15, "f394a834e47b5d5");
    assert HexDigit(5) == '5';
    assert (0xf394a834e47b5d55 as bv64) as nat == x16;
  }

  lemma BytesOf9(s: string)
    requires s == "SELECT *"
    ensures Bytes(s) == [83, 69, 76, 69, 67, 84, 32, 42]
  {
    assert Byte(s[0]) == 83;
    assert Byte(s[1]) == 69;
    assert Byte(s[2]) == 76;
    assert Byte(s[3]) == 69;
    assert Byte(s[4]) == 67;
    assert Byte(s[5]) == 84;
    assert Byte(s[6]) == 32;
    assert Byte(s[7]) == 42;
  }

  lemma Round20()
    ensures Continue(0xcbf29ce484222325, [83, 69, 76, 69, 67, 84, 32, 42]) == 0x8810cc622576cdd7
  {
  }

  lemma BytesOf10(s: string)
    requires s == " FROM us"
    ensures Bytes(s) == [32, 70, 82, 79, 77, 32, 117, 115]
  {
    assert Byte(s[0]) == 32;
    assert Byte(s[1]) == 70;
    assert Byte(s[2]) == 82;
    assert Byte(s[3]) == 79;
    assert Byte(s[4]) == 77;
    assert Byte(s[5]) == 32;
    assert Byte(s[6]) == 117;
    assert Byte(s[7]) == 115;
  }

  lemma Round21()
    ensures Continue(0x8810cc622576cdd7, [32, 70, 82, 79, 77, 32, 117, 115]) == 0xe1e9b3be15297537
  {
  }

  lemma BytesOf11(s: string)
    requires s == "ers"
    ensures Bytes(s) == [101, 114, 115]
  {
    assert Byte(s[0]) == 101;
    assert Byte(s[1]) == 114;
    assert Byte(s[2]) == 115;
  }

  lemma Round22()
    ensures Continue(0xe1e9b3be15297537, [101, 114, 115]) == 0xf394a834e47b5d55
  {
  }

  lemma DigestSelectAll(p0: string, p1: string, p2: string)
    requires p0 == "SELECT *"
    requires p1 == " FROM us"
    requires p2 == "ers"
    ensures Fnv164(p0 + p1 + p2) == "f394a834e47b5d55"
  {
    HashIsFold(Bytes(p0 + p1 + p2));
    ContinueBytesConcat(0xcbf29ce484222325, p0 + p1, p2);
    ContinueBytesConcat(0xcbf29ce484222325, p0, p1);
    BytesOf9(p0);
    Round20();
    BytesOf10(p1);
    Round21();
    BytesOf11(p2);
    Round22();
    HexSelectAll();
  }

  lemma HexSelectByIdHigh()
    ensures HexDigits(0x2f60ff83, 8) == "2f60ff83"
  {
    var x0: nat := 0;
    assert HexDigits(x0, 0) == [];
    var x1: nat := 0x2;
    HexDigitsPush(x1, x0, 2, 0, "");
    assert HexDigit(2) == '2';
    var x2: nat := 0x2f;
    HexDigitsPush(x2, x1, 15, 1, "2");
    assert HexDigit(15) == 'f';
    var x3: nat := 0x2f6;
    HexDigitsPush(x3, x2, 6, 2, "2f");
    assert HexDigit(6) == '6';
    var x4: nat := 0x2f60;
    HexDigitsPush(x4, x3, 0, 3, "2f6");
    assert HexDigit(0) == '0';
    var x5: nat := 0x2f60f;
    HexDigitsPush(x5, x4, 15, 4, "2f60");
    assert HexDigit(15) == 'f';
    var x6: nat := 0x2f60ff;
    HexDigitsPush(x6, x5, 15, 5, "2f60f");
    assert HexDigit(15) == 'f';
    var x7: nat := 0x2f60ff8;
    HexDigitsPush(x7, x6, 8, 6, "2f60ff");
    assert HexDigit(8) == '8';
    var x8: nat := 0x2f60ff83;
    HexDigitsPush(x8, x7, 3, 7, "2f60ff8");
    assert HexDigit(3) == '3';
  }

  lemma HexSelectById()
    ensures Hex(0x2f60ff83138d076f) == "2f60ff83138d076f"
  {
    var x8: nat := 0x2f60ff83;
    HexSelectByIdHigh();
    var x9: nat := 0x2f60ff831;
    HexDigitsPush(x9, x8, 1, 8, "2f60ff83");
    assert HexDigit(1) == '1';
    var x10: nat := 0x2f60ff8313;
    HexDigitsPush(x10, x9, 3, 9, "2f60ff831");
    assert HexDigit(3) == '3';
    var x11: nat := 0x2f60ff83138;
    HexDigitsPush(x11, x10, 8, 10, "2f60ff8313");
    assert HexDigit(8) == '8';
    var x12: nat := 0x2f60ff83138d;
    HexDigitsPush(x12, x11, 13, 11, "2f60ff83138");
    assert HexDigit(13) == 'd';
    var x13: nat := 0x2f60ff83138d0;
    HexDigitsPush(x13, x12, 0, 12, "2f60ff83138d");
    assert HexDigit(0) == '0';
    var x14: nat := 0x2f60ff83138d07;
    HexDigitsPush(x14, x13, 7, 13, "2f60ff83138d0");
    assert HexDigit(7) == '7';
    var x15: nat := 0x2f60ff83138d076;
    HexDigitsPush(x15, x14, 6, 14, "2f60ff83138d07");
    assert HexDigit(6) == '6';
    var x16: nat := 0x2f60ff83138d076f;
    HexDigitsPush(x16, x15, 15, 15, "2f60ff83138d076");
    assert HexDigit(15) == 'f';
    assert (0x2f60ff83138d076f as bv64) as nat == x16;
  }

  lemma BytesOf12(s: string)
    requires s == "ers WHER"
    ensures Bytes(s) == [101, 114, 115, 32, 87, 72, 69, 82]
  {
    assert Byte(s[0]) == 101;
    assert Byte(s[1]) == 114;
    assert Byte(s[2]) == 115;
    assert Byte(s[3]) == 32;
    assert Byte(s[4]) == 87;
    assert Byte(s[5]) == 72;
    assert Byte(s[6]) == 69;
    assert Byte(s[7]) == 82;
  }

  lemma Round23()
    ensures Continue(0xe1e9b3be15297537, [101, 114, 115, 32, 87, 72, 69, 82]) == 0x4eff139bd547a257
  {
  }

  lemma BytesOf13(s: string)
    requires s == "E id = :"
    ensures Bytes(s) == [69, 32, 105, 100, 32, 61, 32, 58]
  {
    assert Byte(s[0]) == 69;
    assert Byte(s[1]) == 32;
    assert Byte(s[2]) == 105;
    assert Byte(s[3]) == 100;
    assert Byte(s[4]) == 32;
    assert Byte(s[5]) == 61;
    assert Byte(s[6]) == 32;
    assert Byte(s[7]) == 58;
  }

  lemma Round24()
    ensures Continue(0x4eff139bd547a257, [69, 32, 105, 100, 32, 61, 32, 58]) == 0xe955e557f08f4260
  {
  }

  lemma Round25()
    ensures Continue(0xe955e557f08f4260, [105, 100]) == 0x2f60ff83138d076f
  {
  }

  lemma DigestSelectById(p0: string, p1: string, p2: string, p3: string, p4: string)
    requires p0 == "SELECT *"
    requires p1 == " FROM us"
    requires p2 == "ers WHER"
    requires p3 == "E id = :"
    requires p4 == "id"
    ensures Fnv164(p0 + p1 + p2 + p3 + p4) == "2f60ff83138d076f"
  {
    HashIsFold(Bytes(p0 + p1 + p2 + p3 + p4));
    ContinueBytesConcat(0xcbf29ce484222325, p0 + p1 + p2 + p3, p4);
    ContinueBytesConcat(0xcbf29ce484222325, p0 + p1 + p2, p3);
    ContinueBytesConcat(0xcbf29ce484222325, p0 + p1, p2);
    ContinueBytesConcat(0xcbf29ce484222325, p0, p1);
    BytesOf9(p0);
    Round20();
    BytesOf10(p1);
    Round21();
    BytesOf12(p2);
    Round23();
    BytesOf13(p3);
    Round24();
    BytesOf8(p4);
    Round25();
    HexSelectById();
  }

  lemma PrintRDigestOneKey(pk: seq<(Key, Scalar)>)
    requires pk == [(IntKey(0), Int(1))]
    ensures Fnv164(PrintR(pk)) == "7b5de198fe1115b5"
  {
    var k, v := KeyString(pk[0].0), ScalarToString(pk[0].1);
    assert k == "0" && v == "1";
    assert pk[..0] == [];
    assert PrintRLines(pk) == "" + ("    [" + k + "] => " + v + "\n");
    DigestEntityOne("Array\n(\n", "", "    [", k, "] => ", v, "\n", ")\n");
  }

  lemma PrintRDigestTwoKeys(pk: seq<(Key, Scalar)>)
    requires pk == [(IntKey(0), Int(1)), (IntKey(1), Int(1))]
    ensures Fnv164(PrintR(pk)) == "b1c37c9333541e7a"
  {
    var k0, v0 := KeyString(pk[0].0), ScalarToString(pk[0].1);
    var k1, v1 := KeyString(pk[1].0), ScalarToString(pk[1].1);
    assert k0 == "0" && v0 == "1" && k1 == "1" && v1 == "1";
    assert pk[..1][..0] == [];
    assert pk[..1][0] == pk[0];
    assert PrintRLines(pk[..1]) == "" + ("    [" + k0 + "] => " + v0 + "\n");
    assert PrintRLines(pk) == PrintRLines(pk[..1]) + ("    [" + k1 + "] => " + v1 + "\n");
    DigestEntityTwo("Array\n(\n", "", "    [", k0, "] => ", v0, "\n", "    [", k1, "] => ", v1, "\n", ")\n");
  }

  lemma PrintRDigestNoParameters(params: seq<(Key, Scalar)>)
    requires params == []
    ensures Fnv164(PrintR(params)) == "2c94a0442da4b385"
  {
    DigestNoParams("Array\n(\n", PrintRLines(params), ")\n");
  }

  lemma PrintRDigestIdParameter(params: seq<(Key, Scalar)>)
    requires params == [(StrKey("id"), Int(1))]
    ensures Fnv164(PrintR(params)) == "a4c764911b74bd06"
  {
    var k, v := KeyString(params[0].0), ScalarToString(params[0].1);
    assert k == "id" && v == "1";
    assert params[..0] == [];
    assert PrintRLines(params) == "" + ("    [" + k + "] => " + v + "\n");
    DigestIdParam("Array\n(\n", "", "    [", k, "] => ", v, "\n", ")\n");
  }

  lemma SqlDigestSelectAll(sql: string)
    requires sql == "SELECT * FROM users"
    ensures Fnv164(sql) == "f394a834e47b5d55"
  {
    var p0, p1, p2 := "SELECT *", " FROM us", "ers";
    assert sql == p0 + p1 + p2;
    DigestSelectAll(p0, p1, p2);
  }

  lemma SqlDigestSelectById(sql: string)
    requires sql == "SELECT * FROM users WHERE id = :id"
    ensures Fnv164(sql) == "2f60ff83138d076f"
  {
    var p0, p1, p2, p3, p4 := "SELECT *", " FROM us", "ers WHER", "E id = :", "id";
    assert sql == p0 + p1 + p2 + p3 + p4;
    DigestSelectById(p0, p1, p2, p3, p4);
  }

  lemma EntityKeyHead()
    ensures EntityPrefix + "users" + "_" == "ORM-ENTITY_users_"
  {
  }

  lemma QueryKeyHead()
    ensures QueryPrefix + "users" + "_" == "ORM-SQL-RESULTS_users_"
  {
  }

  lemma EntityKeyLiteralOne()
    ensures "ORM-ENTITY_users_" + "7b5de198fe1115b5" == "ORM-ENTITY_users_7b5de198fe1115b5"
  {
  }

  lemma EntityKeyLiteralTwo()
    ensures "ORM-ENTITY_users_" + "b1c37c9333541e7a" == "ORM-ENTITY_users_b1c37c9333541e7a"
  {
  }

  lemma QueryKeyLiteralSelectAll()
    ensures "ORM-SQL-RESULTS_users_" + "f394a834e47b5d55" == "ORM-SQL-RESULTS_users_f394a834e47b5d55"
    ensures "ORM-SQL-RESULTS_users_f394a834e47b5d55" + "2c94a0442da4b385" == "ORM-SQL-RESULTS_users_f394a834e47b5d552c94a0442da4b385"
  {
  }

  lemma QueryKeyLiteralSelectById()
    ensures "ORM-SQL-RESULTS_users_" + "2f60ff83138d076f" == "ORM-SQL-RESULTS_users_2f60ff83138d076f"
    ensures "ORM-SQL-RESULTS_users_2f60ff83138d076f" + "a4c764911b74bd06" == "ORM-SQL-RESULTS_users_2f60ff83138d076fa4c764911b74bd06"
  {
  }

  /** Entity key of primary key `[1]` in table `users` (CacheKeyTest, first entity case). */
  lemma EntityKeyOfOneKey(tableName: string, pk: seq<(Key, Scalar)>)
    requires tableName == "users" && pk == [(IntKey(0), Int(1))]
    ensures EntityKey(tableName, pk) == "ORM-ENTITY_users_7b5de198fe1115b5"
  {
    PrintRDigestOneKey(pk);
    EntityKeyHead();
    EntityKeyLiteralOne();
  }

  /** Entity key of primary key `[1, 1]` in table `users` (CacheKeyTest, second entity case). */
  lemma EntityKeyOfTwoKeys(tableName: string, pk: seq<(Key, Scalar)>)
    requires tableName == "users" && pk == [(IntKey(0), Int(1)), (IntKey(1), Int(1))]
    ensures EntityKey(tableName, pk) == "ORM-ENTITY_users_b1c37c9333541e7a"
  {
    PrintRDigestTwoKeys(pk);
    EntityKeyHead();
    EntityKeyLiteralTwo();
  }

  /** Query key of `SELECT * FROM users` without parameters (CacheKeyTest, second query case). */
  lemma QueryKeyWithoutParameters(tableName: string, sql: string, params: seq<(Key, Scalar)>)
    requires tableName == "users" && sql == "SELECT * FROM users" && params == []
    ensures QueryKey(tableName, sql, params) == "ORM-SQL-RESULTS_users_f394a834e47b5d552c94a0442da4b385"
  {
    SqlDigestSelectAll(sql);
    PrintRDigestNoParameters(params);
    QueryKeyHead();
    AppendAssoc(QueryPrefix + tableName + "_", Fnv164(sql), Fnv164(PrintR(params)));
    QueryKeyLiteralSelectAll();
  }

  /** Query key of `... WHERE id = :id` with `['id' => 1]` (CacheKeyTest, first query case). */
  lemma QueryKeyWithParameter(tableName: string, sql: string, params: seq<(Key, Scalar)>)
    requires tableName == "users" && sql == "SELECT * FROM users WHERE id = :id" && params == [(StrKey("id"), Int(1))]
    ensures QueryKey(tableName, sql, params) == "ORM-SQL-RESULTS_users_2f60ff83138d076fa4c764911b74bd06"
  {
    SqlDigestSelectById(sql);
    PrintRDigestIdParameter(params);
    QueryKeyHead();
    AppendAssoc(QueryPrefix + tableName + "_", Fnv164(sql), Fnv164(PrintR(params)));
    QueryKeyLiteralSelectById();
  }
}
