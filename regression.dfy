/** The `modulo` regression vector: with `cls` reducing modulo 998244353,
    F(79496847203390844133441536) is 357977786. ResiduesOf is the loop on
    residues written as recursion on the binary digits of k, and
    ResiduesOfFib proves that it yields the residues of (F(k-1), F(k)). The
    index has 87 binary digits; lemma PassI evaluates ResiduesOf at the
    prefix k left after pass I of the 86 passes, from the value at the
    prefix before, and lemma ResiduesI does the arithmetic of that pass in
    explicit numbers. The 86 PassI lemmas and the 86 ResiduesI lemmas are a
    mechanically written chain that evaluates this one test vector; they
    carry no property beyond it, and the general statement is
    ResiduesOfFib. Each pass is kept in two lemmas of its own because a
    pass's arithmetic and the recursion it unfolds are cheap to verify
    apart and costly together. */
module Regression {
  import opened FibSpec
  import opened Rings
  import opened Fibonacci

  const Index: nat := 79_496_847_203_390_844_133_441_536
  const Modulus: int := 998_244_353

  /** The loop's pair for prefix k, as residues modulo m. */
  ghost predicate ResiduePair(m: int, k: nat, a: int, b: int)
    requires m > 0 && k >= 1
  {
    Fib(k - 1) % m == a && Fib(k) % m == b
  }

  /** One pass of the loop body on residues modulo m, reading digit c.
      This is a separate recursion on integers, not the method `Doubling`
      run over `ModRing`: it reduces once per whole expression, where the
      source's residue type reduces after every operation. Both give the
      same residues, and ResiduesOfFib ties this one to the Fibonacci
      numbers directly. */
  function PassResidues(m: int, a: int, b: int, c: bool): (int, int)
    requires m > 0
  {
    var a2, b2 := (b * b + a * a) % m, ((a + b) * (a + b) - a * a) % m;
    if c then (b2, (a2 + b2) % m) else (a2, b2)
  }

  /** The residue pair the loop holds once the digits of k (k >= 1) after
      the leading one have been read: the loop written as recursion on the
      digits, with no reference to the Fibonacci numbers. */
  function ResiduesOf(m: int, k: nat): (int, int)
    requires m > 0 && k >= 1
  {
    if k == 1 then (0 % m, 1 % m)
    else
      var p := ResiduesOf(m, k / 2);
      PassResidues(m, p.0, p.1, k % 2 == 1)
  }

  /** A pass maps the residue pair for k to the residue pair for 2k + c. */
  lemma ResiduePass(m: int, k: nat, a: int, b: int, c: bool)
    requires m > 0 && k >= 1 && ResiduePair(m, k, a, b)
    ensures ResiduePair(m, 2 * k + (if c then 1 else 0), PassResidues(m, a, b, c).0, PassResidues(m, a, b, c).1)
  {
    ResidueDouble(m, k, a, b);
    if c {
      ResidueAdvance(m, 2 * k, (b * b + a * a) % m, ((a + b) * (a + b) - a * a) % m);
    }
  }

  /** The recursion computes what the loop invariant promises: the residues
      of (F(k-1), F(k)) modulo m. */
  lemma {:induction false} ResiduesOfFib(m: int, k: nat)
    requires m > 0 && k >= 1
    ensures ResiduePair(m, k, ResiduesOf(m, k).0, ResiduesOf(m, k).1)
    decreases k
  {
    if k > 1 {
      var p := ResiduesOf(m, k / 2);
      ResiduesOfFib(m, k / 2);
      ResiduePass(m, k / 2, p.0, p.1, k % 2 == 1);
    }
  }

  /** The squaring half of a pass, on residues: the pair for 2k. */
  lemma ResidueDouble(m: int, k: nat, a: int, b: int)
    requires m > 0 && k >= 1 && ResiduePair(m, k, a, b)
    ensures ResiduePair(m, 2 * k, (b * b + a * a) % m, ((a + b) * (a + b) - a * a) % m)
  {
    DoublingIdentities(k);
    SumOfSquaresMod(m, Fib(k - 1), Fib(k));
    DifferenceOfSquaresMod(m, Fib(k - 1), Fib(k));
  }

  /** The advance on a 1-digit, on residues: the pair for k + 1. */
  lemma ResidueAdvance(m: int, k: nat, a: int, b: int)
    requires m > 0 && k >= 1 && ResiduePair(m, k, a, b)
    ensures ResiduePair(m, k + 1, b, (a + b) % m)
  {
    ModAdd(m, Fib(k - 1), Fib(k));
  }

  /** Reducing x and y first does not change the residue of y² + x². */
  lemma SumOfSquaresMod(m: int, x: int, y: int)
    requires m > 0
    ensures (y * y + x * x) % m == ((y % m) * (y % m) + (x % m) * (x % m)) % m
  {
    var a, b := x % m, y % m;
    ModMul(m, y, y);
    ModMul(m, x, x);
    ModAdd(m, y * y, x * x);
    ModAdd(m, b * b, a * a);
    assert (b * b) % m == (y * y) % m && (a * a) % m == (x * x) % m;
  }

  /** Reducing x and y first does not change the residue of (x + y)² - x². */
  lemma DifferenceOfSquaresMod(m: int, x: int, y: int)
    requires m > 0
    ensures ((x + y) * (x + y) - x * x) % m == ((x % m + y % m) * (x % m + y % m) - (x % m) * (x % m)) % m
  {
    var a, b := x % m, y % m;
    var s, c := x + y, a + b;
    ModAdd(m, x, y);
    assert c % m == s % m;
    ModMul(m, s, s);
    ModMul(m, c, c);
    assert (s * s) % m == (c * c) % m;
    ModMul(m, x, x);
    ModSub(m, s * s, x * x);
    ModSub(m, c * c, a * a);
  }

  /** Before the first pass: the leading digit alone, k = 1, with the pair
      (`cls(0)`, `cls(1)`). The lemmas that follow come in pairs, one of each
      per pass: the pass's residue arithmetic, written out in numerals so
      that it is a closed computation; and the pair after the pass. */
  lemma Pass0(k: nat)
    requires k == 1
    ensures ResiduesOf(Modulus, k) == (0, 1)
  {
  }

  lemma Residues1()
    ensures PassResidues(Modulus, 0, 1, false) == (1, 1)
  {
    assert (1 * 1 + 0 * 0) % 998_244_353 == 1;
    assert ((0 + 1) * (0 + 1) - 0 * 0) % 998_244_353 == 1;
  }

  lemma Pass1(k: nat)
    requires k == 2
    ensures ResiduesOf(Modulus, k) == (1, 1)
  {
    Residues1();
    Pass0(k / 2);
  }

  lemma Residues2()
    ensures PassResidues(Modulus, 1, 1, false) == (2, 3)
  {
    assert (1 * 1 + 1 * 1) % 998_244_353 == 2;
    assert ((1 + 1) * (1 + 1) - 1 * 1) % 998_244_353 == 3;
  }

  lemma Pass2(k: nat)
    requires k == 4
    ensures ResiduesOf(Modulus, k) == (2, 3)
  {
    Residues2();
    Pass1(k / 2);
  }

  lemma Residues3()
    ensures PassResidues(Modulus, 2, 3, false) == (13, 21)
  {
    assert (3 * 3 + 2 * 2) % 998_244_353 == 13;
    assert ((2 + 3) * (2 + 3) - 2 * 2) % 998_244_353 == 21;
  }

  lemma Pass3(k: nat)
    requires k == 8
    ensures ResiduesOf(Modulus, k) == (13, 21)
  {
    Residues3();
    Pass2(k / 2);
  }

  lemma Residues4()
    ensures PassResidues(Modulus, 13, 21, false) == (610, 987)
  {
    assert (21 * 21 + 13 * 13) % 998_244_353 == 610;
    assert ((13 + 21) * (13 + 21) - 13 * 13) % 998_244_353 == 987;
  }

  lemma Pass4(k: nat)
    requires k == 16
    ensures ResiduesOf(Modulus, k) == (610, 987)
  {
    Residues4();
    Pass3(k / 2);
  }

  lemma Residues5()
    ensures PassResidues(Modulus, 610, 987, false) == (1_346_269, 2_178_309)
  {
    assert (987 * 987 + 610 * 610) % 998_244_353 == 1_346_269;
    assert ((610 + 987) * (610 + 987) - 610 * 610) % 998_244_353 == 2_178_309;
  }

  lemma Pass5(k: nat)
    requires k == 32
    ensures ResiduesOf(Modulus, k) == (1_346_269, 2_178_309)
  {
    Residues5();
    Pass4(k / 2);
  }

  lemma Residues6()
    ensures PassResidues(Modulus, 1_346_269, 2_178_309, true) == (868_874_039, 872_039_024)
  {
    assert (2_178_309 * 2_178_309 + 1_346_269 * 1_346_269) % 998_244_353 == 3_164_985;
    assert ((1_346_269 + 2_178_309) * (1_346_269 + 2_178_309) - 1_346_269 * 1_346_269) % 998_244_353 == 868_874_039;
    assert (3_164_985 + 868_874_039) % 998_244_353 == 872_039_024;
  }

  lemma Pass6(k: nat)
    requires k == 65
    ensures ResiduesOf(Modulus, k) == (868_874_039, 872_039_024)
  {
    Residues6();
    Pass5(k / 2);
  }

  lemma Residues7()
    ensures PassResidues(Modulus, 868_874_039, 872_039_024, true) == (406_259_931, 743_598_185)
  {
    assert (872_039_024 * 872_039_024 + 868_874_039 * 868_874_039) % 998_244_353 == 337_338_254;
    assert ((868_874_039 + 872_039_024) * (868_874_039 + 872_039_024) - 868_874_039 * 868_874_039) % 998_244_353 == 406_259_931;
    assert (337_338_254 + 406_259_931) % 998_244_353 == 743_598_185;
  }

  lemma Pass7(k: nat)
    requires k == 131
    ensures ResiduesOf(Modulus, k) == (406_259_931, 743_598_185)
  {
    Residues7();
    Pass6(k / 2);
  }

  lemma Residues8()
    ensures PassResidues(Modulus, 406_259_931, 743_598_185, true) == (40_191_893, 147_346_165)
  {
    assert (743_598_185 * 743_598_185 + 406_259_931 * 406_259_931) % 998_244_353 == 107_154_272;
    assert ((406_259_931 + 743_598_185) * (406_259_931 + 743_598_185) - 406_259_931 * 406_259_931) % 998_244_353 == 40_191_893;
    assert (107_154_272 + 40_191_893) % 998_244_353 == 147_346_165;
  }

  lemma Pass8(k: nat)
    requires k == 263
    ensures ResiduesOf(Modulus, k) == (40_191_893, 147_346_165)
  {
    Residues8();
    Pass7(k / 2);
  }

  lemma Residues9()
    ensures PassResidues(Modulus, 40_191_893, 147_346_165, false) == (342_052_009, 515_337_318)
  {
    assert (147_346_165 * 147_346_165 + 40_191_893 * 40_191_893) % 998_244_353 == 342_052_009;
    assert ((40_191_893 + 147_346_165) * (40_191_893 + 147_346_165) - 40_191_893 * 40_191_893) % 998_244_353 == 515_337_318;
  }

  lemma Pass9(k: nat)
    requires k == 526
    ensures ResiduesOf(Modulus, k) == (342_052_009, 515_337_318)
  {
    Residues9();
    Pass8(k / 2);
  }

  lemma Residues10()
    ensures PassResidues(Modulus, 342_052_009, 515_337_318, false) == (67_970_442, 809_474_496)
  {
    assert (515_337_318 * 515_337_318 + 342_052_009 * 342_052_009) % 998_244_353 == 67_970_442;
    assert ((342_052_009 + 515_337_318) * (342_052_009 + 515_337_318) - 342_052_009 * 342_052_009) % 998_244_353 == 809_474_496;
  }

  lemma Pass10(k: nat)
    requires k == 1_052
    ensures ResiduesOf(Modulus, k) == (67_970_442, 809_474_496)
  {
    Residues10();
    Pass9(k / 2);
  }

  lemma Residues11()
    ensures PassResidues(Modulus, 67_970_442, 809_474_496, false) == (74_824_705, 690_513_093)
  {
    assert (809_474_496 * 809_474_496 + 67_970_442 * 67_970_442) % 998_244_353 == 74_824_705;
    assert ((67_970_442 + 809_474_496) * (67_970_442 + 809_474_496) - 67_970_442 * 67_970_442) % 998_244_353 == 690_513_093;
  }

  lemma Pass11(k: nat)
    requires k == 2_104
    ensures ResiduesOf(Modulus, k) == (74_824_705, 690_513_093)
  {
    Residues11();
    Pass10(k / 2);
  }

  lemma Residues12()
    ensures PassResidues(Modulus, 74_824_705, 690_513_093, false) == (141_038_292, 570_083_101)
  {
    assert (690_513_093 * 690_513_093 + 74_824_705 * 74_824_705) % 998_244_353 == 141_038_292;
    assert ((74_824_705 + 690_513_093) * (74_824_705 + 690_513_093) - 74_824_705 * 74_824_705) % 998_244_353 == 570_083_101;
  }

  lemma Pass12(k: nat)
    requires k == 4_208
    ensures ResiduesOf(Modulus, k) == (141_038_292, 570_083_101)
  {
    Residues12();
    Pass11(k / 2);
  }

  lemma Residues13()
    ensures PassResidues(Modulus, 141_038_292, 570_083_101, true) == (325_725_289, 116_848_336)
  {
    assert (570_083_101 * 570_083_101 + 141_038_292 * 141_038_292) % 998_244_353 == 789_367_400;
    assert ((141_038_292 + 570_083_101) * (141_038_292 + 570_083_101) - 141_038_292 * 141_038_292) % 998_244_353 == 325_725_289;
    assert (789_367_400 + 325_725_289) % 998_244_353 == 116_848_336;
  }

  lemma Pass13(k: nat)
    requires k == 8_417
    ensures ResiduesOf(Modulus, k) == (325_725_289, 116_848_336)
  {
    Residues13();
    Pass12(k / 2);
  }

  lemma Residues14()
    ensures PassResidues(Modulus, 325_725_289, 116_848_336, false) == (875_967_999, 92_675_437)
  {
    assert (116_848_336 * 116_848_336 + 325_725_289 * 325_725_289) % 998_244_353 == 875_967_999;
    assert ((325_725_289 + 116_848_336) * (325_725_289 + 116_848_336) - 325_725_289 * 325_725_289) % 998_244_353 == 92_675_437;
  }

  lemma Pass14(k: nat)
    requires k == 16_834
    ensures ResiduesOf(Modulus, k) == (875_967_999, 92_675_437)
  {
    Residues14();
    Pass13(k / 2);
  }

  lemma Residues15()
    ensures PassResidues(Modulus, 875_967_999, 92_675_437, false) == (413_217_953, 832_736_517)
  {
    assert (92_675_437 * 92_675_437 + 875_967_999 * 875_967_999) % 998_244_353 == 413_217_953;
    assert ((875_967_999 + 92_675_437) * (875_967_999 + 92_675_437) - 875_967_999 * 875_967_999) % 998_244_353 == 832_736_517;
  }

  lemma Pass15(k: nat)
    requires k == 33_668
    ensures ResiduesOf(Modulus, k) == (413_217_953, 832_736_517)
  {
    Residues15();
    Pass14(k / 2);
  }

  lemma Residues16()
    ensures PassResidues(Modulus, 413_217_953, 832_736_517, false) == (532_446_258, 546_077_313)
  {
    assert (832_736_517 * 832_736_517 + 413_217_953 * 413_217_953) % 998_244_353 == 532_446_258;
    assert ((413_217_953 + 832_736_517) * (413_217_953 + 832_736_517) - 413_217_953 * 413_217_953) % 998_244_353 == 546_077_313;
  }

  lemma Pass16(k: nat)
    requires k == 67_336
    ensures ResiduesOf(Modulus, k) == (532_446_258, 546_077_313)
  {
    Residues16();
    Pass15(k / 2);
  }

  lemma Residues17()
    ensures PassResidues(Modulus, 532_446_258, 546_077_313, false) == (447_482_621, 229_969_050)
  {
    assert (546_077_313 * 546_077_313 + 532_446_258 * 532_446_258) % 998_244_353 == 447_482_621;
    assert ((532_446_258 + 546_077_313) * (532_446_258 + 546_077_313) - 532_446_258 * 532_446_258) % 998_244_353 == 229_969_050;
  }

  lemma Pass17(k: nat)
    requires k == 134_672
    ensures ResiduesOf(Modulus, k) == (447_482_621, 229_969_050)
  {
    Residues17();
    Pass16(k / 2);
  }

  lemma Residues18()
    ensures PassResidues(Modulus, 447_482_621, 229_969_050, true) == (238_508_185, 586_002_700)
  {
    assert (229_969_050 * 229_969_050 + 447_482_621 * 447_482_621) % 998_244_353 == 347_494_515;
    assert ((447_482_621 + 229_969_050) * (447_482_621 + 229_969_050) - 447_482_621 * 447_482_621) % 998_244_353 == 238_508_185;
    assert (347_494_515 + 238_508_185) % 998_244_353 == 586_002_700;
  }

  lemma Pass18(k: nat)
    requires k == 269_345
    ensures ResiduesOf(Modulus, k) == (238_508_185, 586_002_700)
  {
    Residues18();
    Pass17(k / 2);
  }

  lemma Residues19()
    ensures PassResidues(Modulus, 238_508_185, 586_002_700, true) == (385_192_199, 790_632_582)
  {
    assert (586_002_700 * 586_002_700 + 238_508_185 * 238_508_185) % 998_244_353 == 405_440_383;
    assert ((238_508_185 + 586_002_700) * (238_508_185 + 586_002_700) - 238_508_185 * 238_508_185) % 998_244_353 == 385_192_199;
    assert (405_440_383 + 385_192_199) % 998_244_353 == 790_632_582;
  }

  lemma Pass19(k: nat)
    requires k == 538_691
    ensures ResiduesOf(Modulus, k) == (385_192_199, 790_632_582)
  {
    Residues19();
    Pass18(k / 2);
  }

  lemma Residues20()
    ensures PassResidues(Modulus, 385_192_199, 790_632_582, true) == (799_877_213, 350_648_406)
  {
    assert (790_632_582 * 790_632_582 + 385_192_199 * 385_192_199) % 998_244_353 == 549_015_546;
    assert ((385_192_199 + 790_632_582) * (385_192_199 + 790_632_582) - 385_192_199 * 385_192_199) % 998_244_353 == 799_877_213;
    assert (549_015_546 + 799_877_213) % 998_244_353 == 350_648_406;
  }

  lemma Pass20(k: nat)
    requires k == 1_077_383
    ensures ResiduesOf(Modulus, k) == (799_877_213, 350_648_406)
  {
    Residues20();
    Pass19(k / 2);
  }

  lemma Residues21()
    ensures PassResidues(Modulus, 799_877_213, 350_648_406, false) == (236_762_008, 697_114_236)
  {
    assert (350_648_406 * 350_648_406 + 799_877_213 * 799_877_213) % 998_244_353 == 236_762_008;
    assert ((799_877_213 + 350_648_406) * (799_877_213 + 350_648_406) - 799_877_213 * 799_877_213) % 998_244_353 == 697_114_236;
  }

  lemma Pass21(k: nat)
    requires k == 2_154_766
    ensures ResiduesOf(Modulus, k) == (236_762_008, 697_114_236)
  {
    Residues21();
    Pass20(k / 2);
  }

  lemma Residues22()
    ensures PassResidues(Modulus, 236_762_008, 697_114_236, false) == (781_846_361, 836_028_658)
  {
    assert (697_114_236 * 697_114_236 + 236_762_008 * 236_762_008) % 998_244_353 == 781_846_361;
    assert ((236_762_008 + 697_114_236) * (236_762_008 + 697_114_236) - 236_762_008 * 236_762_008) % 998_244_353 == 836_028_658;
  }

  lemma Pass22(k: nat)
    requires k == 4_309_532
    ensures ResiduesOf(Modulus, k) == (781_846_361, 836_028_658)
  {
    Residues22();
    Pass21(k / 2);
  }

  lemma Residues23()
    ensures PassResidues(Modulus, 781_846_361, 836_028_658, true) == (525_952_847, 586_334_956)
  {
    assert (836_028_658 * 836_028_658 + 781_846_361 * 781_846_361) % 998_244_353 == 60_382_109;
    assert ((781_846_361 + 836_028_658) * (781_846_361 + 836_028_658) - 781_846_361 * 781_846_361) % 998_244_353 == 525_952_847;
    assert (60_382_109 + 525_952_847) % 998_244_353 == 586_334_956;
  }

  lemma Pass23(k: nat)
    requires k == 8_619_065
    ensures ResiduesOf(Modulus, k) == (525_952_847, 586_334_956)
  {
    Residues23();
    Pass22(k / 2);
  }

  lemma Residues24()
    ensures PassResidues(Modulus, 525_952_847, 586_334_956, false) == (430_818_626, 713_426_275)
  {
    assert (586_334_956 * 586_334_956 + 525_952_847 * 525_952_847) % 998_244_353 == 430_818_626;
    assert ((525_952_847 + 586_334_956) * (525_952_847 + 586_334_956) - 525_952_847 * 525_952_847) % 998_244_353 == 713_426_275;
  }

  lemma Pass24(k: nat)
    requires k == 17_238_130
    ensures ResiduesOf(Modulus, k) == (430_818_626, 713_426_275)
  {
    Residues24();
    Pass23(k / 2);
  }

  lemma Residues25()
    ensures PassResidues(Modulus, 430_818_626, 713_426_275, true) == (568_054_985, 953_573_467)
  {
    assert (713_426_275 * 713_426_275 + 430_818_626 * 430_818_626) % 998_244_353 == 385_518_482;
    assert ((430_818_626 + 713_426_275) * (430_818_626 + 713_426_275) - 430_818_626 * 430_818_626) % 998_244_353 == 568_054_985;
    assert (385_518_482 + 568_054_985) % 998_244_353 == 953_573_467;
  }

  lemma Pass25(k: nat)
    requires k == 34_476_261
    ensures ResiduesOf(Modulus, k) == (568_054_985, 953_573_467)
  {
    Residues25();
    Pass24(k / 2);
  }

  lemma Residues26()
    ensures PassResidues(Modulus, 568_054_985, 953_573_467, true) == (22_626_123, 485_846_345)
  {
    assert (953_573_467 * 953_573_467 + 568_054_985 * 568_054_985) % 998_244_353 == 463_220_222;
    assert ((568_054_985 + 953_573_467) * (568_054_985 + 953_573_467) - 568_054_985 * 568_054_985) % 998_244_353 == 22_626_123;
    assert (463_220_222 + 22_626_123) % 998_244_353 == 485_846_345;
  }

  lemma Pass26(k: nat)
    requires k == 68_952_523
    ensures ResiduesOf(Modulus, k) == (22_626_123, 485_846_345)
  {
    Residues26();
    Pass25(k / 2);
  }

  lemma Residues27()
    ensures PassResidues(Modulus, 22_626_123, 485_846_345, true) == (651_363_888, 887_116_474)
  {
    assert (485_846_345 * 485_846_345 + 22_626_123 * 22_626_123) % 998_244_353 == 235_752_586;
    assert ((22_626_123 + 485_846_345) * (22_626_123 + 485_846_345) - 22_626_123 * 22_626_123) % 998_244_353 == 651_363_888;
    assert (235_752_586 + 651_363_888) % 998_244_353 == 887_116_474;
  }

  lemma Pass27(k: nat)
    requires k == 137_905_047
    ensures ResiduesOf(Modulus, k) == (651_363_888, 887_116_474)
  {
    Residues27();
    Pass26(k / 2);
  }

  lemma Residues28()
    ensures PassResidues(Modulus, 651_363_888, 887_116_474, false) == (430_915_407, 232_315_470)
  {
    assert (887_116_474 * 887_116_474 + 651_363_888 * 651_363_888) % 998_244_353 == 430_915_407;
    assert ((651_363_888 + 887_116_474) * (651_363_888 + 887_116_474) - 651_363_888 * 651_363_888) % 998_244_353 == 232_315_470;
  }

  lemma Pass28(k: nat)
    requires k == 275_810_094
    ensures ResiduesOf(Modulus, k) == (430_915_407, 232_315_470)
  {
    Residues28();
    Pass27(k / 2);
  }

  lemma Residues29()
    ensures PassResidues(Modulus, 430_915_407, 232_315_470, false) == (430_151_016, 906_536_765)
  {
    assert (232_315_470 * 232_315_470 + 430_915_407 * 430_915_407) % 998_244_353 == 430_151_016;
    assert ((430_915_407 + 232_315_470) * (430_915_407 + 232_315_470) - 430_915_407 * 430_915_407) % 998_244_353 == 906_536_765;
  }

  lemma Pass29(k: nat)
    requires k == 551_620_188
    ensures ResiduesOf(Modulus, k) == (430_151_016, 906_536_765)
  {
    Residues29();
    Pass28(k / 2);
  }

  lemma Residues30()
    ensures PassResidues(Modulus, 430_151_016, 906_536_765, false) == (219_461_036, 315_652_805)
  {
    assert (906_536_765 * 906_536_765 + 430_151_016 * 430_151_016) % 998_244_353 == 219_461_036;
    assert ((430_151_016 + 906_536_765) * (430_151_016 + 906_536_765) - 430_151_016 * 430_151_016) % 998_244_353 == 315_652_805;
  }

  lemma Pass30(k: nat)
    requires k == 1_103_240_376
    ensures ResiduesOf(Modulus, k) == (219_461_036, 315_652_805)
  {
    Residues30();
    Pass29(k / 2);
  }

  lemma Residues31()
    ensures PassResidues(Modulus, 219_461_036, 315_652_805, true) == (407_837_951, 742_976_932)
  {
    assert (315_652_805 * 315_652_805 + 219_461_036 * 219_461_036) % 998_244_353 == 335_138_981;
    assert ((219_461_036 + 315_652_805) * (219_461_036 + 315_652_805) - 219_461_036 * 219_461_036) % 998_244_353 == 407_837_951;
    assert (335_138_981 + 407_837_951) % 998_244_353 == 742_976_932;
  }

  lemma Pass31(k: nat)
    requires k == 2_206_480_753
    ensures ResiduesOf(Modulus, k) == (407_837_951, 742_976_932)
  {
    Residues31();
    Pass30(k / 2);
  }

  lemma Residues32()
    ensures PassResidues(Modulus, 407_837_951, 742_976_932, true) == (263_255_065, 978_348_802)
  {
    assert (742_976_932 * 742_976_932 + 407_837_951 * 407_837_951) % 998_244_353 == 715_093_737;
    assert ((407_837_951 + 742_976_932) * (407_837_951 + 742_976_932) - 407_837_951 * 407_837_951) % 998_244_353 == 263_255_065;
    assert (715_093_737 + 263_255_065) % 998_244_353 == 978_348_802;
  }

  lemma Pass32(k: nat)
    requires k == 4_412_961_507
    ensures ResiduesOf(Modulus, k) == (263_255_065, 978_348_802)
  {
    Residues32();
    Pass31(k / 2);
  }

  lemma Residues33()
    ensures PassResidues(Modulus, 263_255_065, 978_348_802, true) == (855_815_683, 215_142_824)
  {
    assert (978_348_802 * 978_348_802 + 263_255_065 * 263_255_065) % 998_244_353 == 357_571_494;
    assert ((263_255_065 + 978_348_802) * (263_255_065 + 978_348_802) - 263_255_065 * 263_255_065) % 998_244_353 == 855_815_683;
    assert (357_571_494 + 855_815_683) % 998_244_353 == 215_142_824;
  }

  lemma Pass33(k: nat)
    requires k == 8_825_923_015
    ensures ResiduesOf(Modulus, k) == (855_815_683, 215_142_824)
  {
    Residues33();
    Pass32(k / 2);
  }

  lemma Residues34()
    ensures PassResidues(Modulus, 855_815_683, 215_142_824, false) == (877_198_497, 633_284_637)
  {
    assert (215_142_824 * 215_142_824 + 855_815_683 * 855_815_683) % 998_244_353 == 877_198_497;
    assert ((855_815_683 + 215_142_824) * (855_815_683 + 215_142_824) - 855_815_683 * 855_815_683) % 998_244_353 == 633_284_637;
  }

  lemma Pass34(k: nat)
    requires k == 17_651_846_030
    ensures ResiduesOf(Modulus, k) == (877_198_497, 633_284_637)
  {
    Residues34();
    Pass33(k / 2);
  }

  lemma Residues35()
    ensures PassResidues(Modulus, 877_198_497, 633_284_637, false) == (428_356_938, 234_848_509)
  {
    assert (633_284_637 * 633_284_637 + 877_198_497 * 877_198_497) % 998_244_353 == 428_356_938;
    assert ((877_198_497 + 633_284_637) * (877_198_497 + 633_284_637) - 877_198_497 * 877_198_497) % 998_244_353 == 234_848_509;
  }

  lemma Pass35(k: nat)
    requires k == 35_303_692_060
    ensures ResiduesOf(Modulus, k) == (428_356_938, 234_848_509)
  {
    Residues35();
    Pass34(k / 2);
  }

  lemma Residues36()
    ensures PassResidues(Modulus, 428_356_938, 234_848_509, false) == (100_393_678, 405_065_456)
  {
    assert (234_848_509 * 234_848_509 + 428_356_938 * 428_356_938) % 998_244_353 == 100_393_678;
    assert ((428_356_938 + 234_848_509) * (428_356_938 + 234_848_509) - 428_356_938 * 428_356_938) % 998_244_353 == 405_065_456;
  }

  lemma Pass36(k: nat)
    requires k == 70_607_384_120
    ensures ResiduesOf(Modulus, k) == (100_393_678, 405_065_456)
  {
    Residues36();
    Pass35(k / 2);
  }

  lemma Residues37()
    ensures PassResidues(Modulus, 100_393_678, 405_065_456, false) == (38_102_490, 727_493_704)
  {
    assert (405_065_456 * 405_065_456 + 100_393_678 * 100_393_678) % 998_244_353 == 38_102_490;
    assert ((100_393_678 + 405_065_456) * (100_393_678 + 405_065_456) - 100_393_678 * 100_393_678) % 998_244_353 == 727_493_704;
  }

  lemma Pass37(k: nat)
    requires k == 141_214_768_240
    ensures ResiduesOf(Modulus, k) == (38_102_490, 727_493_704)
  {
    Residues37();
    Pass36(k / 2);
  }

  lemma Residues38()
    ensures PassResidues(Modulus, 38_102_490, 727_493_704, true) == (618_513_769, 283_657_941)
  {
    assert (727_493_704 * 727_493_704 + 38_102_490 * 38_102_490) % 998_244_353 == 663_388_525;
    assert ((38_102_490 + 727_493_704) * (38_102_490 + 727_493_704) - 38_102_490 * 38_102_490) % 998_244_353 == 618_513_769;
    assert (663_388_525 + 618_513_769) % 998_244_353 == 283_657_941;
  }

  lemma Pass38(k: nat)
    requires k == 282_429_536_481
    ensures ResiduesOf(Modulus, k) == (618_513_769, 283_657_941)
  {
    Residues38();
    Pass37(k / 2);
  }

  lemma Residues39()
    ensures PassResidues(Modulus, 618_513_769, 283_657_941, false) == (235_430_169, 37_196_789)
  {
    assert (283_657_941 * 283_657_941 + 618_513_769 * 618_513_769) % 998_244_353 == 235_430_169;
    assert ((618_513_769 + 283_657_941) * (618_513_769 + 283_657_941) - 618_513_769 * 618_513_769) % 998_244_353 == 37_196_789;
  }

  lemma Pass39(k: nat)
    requires k == 564_859_072_962
    ensures ResiduesOf(Modulus, k) == (235_430_169, 37_196_789)
  {
    Residues39();
    Pass38(k / 2);
  }

  lemma Residues40()
    ensures PassResidues(Modulus, 235_430_169, 37_196_789, false) == (4_774_089, 485_685_713)
  {
    assert (37_196_789 * 37_196_789 + 235_430_169 * 235_430_169) % 998_244_353 == 4_774_089;
    assert ((235_430_169 + 37_196_789) * (235_430_169 + 37_196_789) - 235_430_169 * 235_430_169) % 998_244_353 == 485_685_713;
  }

  lemma Pass40(k: nat)
    requires k == 1_129_718_145_924
    ensures ResiduesOf(Modulus, k) == (4_774_089, 485_685_713)
  {
    Residues40();
    Pass39(k / 2);
  }

  lemma Residues41()
    ensures PassResidues(Modulus, 4_774_089, 485_685_713, false) == (830_076_154, 440_178_633)
  {
    assert (485_685_713 * 485_685_713 + 4_774_089 * 4_774_089) % 998_244_353 == 830_076_154;
    assert ((4_774_089 + 485_685_713) * (4_774_089 + 485_685_713) - 4_774_089 * 4_774_089) % 998_244_353 == 440_178_633;
  }

  lemma Pass41(k: nat)
    requires k == 2_259_436_291_848
    ensures ResiduesOf(Modulus, k) == (830_076_154, 440_178_633)
  {
    Residues41();
    Pass40(k / 2);
  }

  lemma Residues42()
    ensures PassResidues(Modulus, 830_076_154, 440_178_633, false) == (641_882_509, 288_651_136)
  {
    assert (440_178_633 * 440_178_633 + 830_076_154 * 830_076_154) % 998_244_353 == 641_882_509;
    assert ((830_076_154 + 440_178_633) * (830_076_154 + 440_178_633) - 830_076_154 * 830_076_154) % 998_244_353 == 288_651_136;
  }

  lemma Pass42(k: nat)
    requires k == 4_518_872_583_696
    ensures ResiduesOf(Modulus, k) == (641_882_509, 288_651_136)
  {
    Residues42();
    Pass41(k / 2);
  }

  lemma Residues43()
    ensures PassResidues(Modulus, 641_882_509, 288_651_136, false) == (373_039_001, 118_558_005)
  {
    assert (288_651_136 * 288_651_136 + 641_882_509 * 641_882_509) % 998_244_353 == 373_039_001;
    assert ((641_882_509 + 288_651_136) * (641_882_509 + 288_651_136) - 641_882_509 * 641_882_509) % 998_244_353 == 118_558_005;
  }

  lemma Pass43(k: nat)
    requires k == 9_037_745_167_392
    ensures ResiduesOf(Modulus, k) == (373_039_001, 118_558_005)
  {
    Residues43();
    Pass42(k / 2);
  }

  lemma Residues44()
    ensures PassResidues(Modulus, 373_039_001, 118_558_005, false) == (766_565_699, 92_676_164)
  {
    assert (118_558_005 * 118_558_005 + 373_039_001 * 373_039_001) % 998_244_353 == 766_565_699;
    assert ((373_039_001 + 118_558_005) * (373_039_001 + 118_558_005) - 373_039_001 * 373_039_001) % 998_244_353 == 92_676_164;
  }

  lemma Pass44(k: nat)
    requires k == 18_075_490_334_784
    ensures ResiduesOf(Modulus, k) == (766_565_699, 92_676_164)
  {
    Residues44();
    Pass43(k / 2);
  }

  lemma Residues45()
    ensures PassResidues(Modulus, 766_565_699, 92_676_164, false) == (721_705_237, 153_893_309)
  {
    assert (92_676_164 * 92_676_164 + 766_565_699 * 766_565_699) % 998_244_353 == 721_705_237;
    assert ((766_565_699 + 92_676_164) * (766_565_699 + 92_676_164) - 766_565_699 * 766_565_699) % 998_244_353 == 153_893_309;
  }

  lemma Pass45(k: nat)
    requires k == 36_150_980_669_568
    ensures ResiduesOf(Modulus, k) == (721_705_237, 153_893_309)
  {
    Residues45();
    Pass44(k / 2);
  }

  lemma Residues46()
    ensures PassResidues(Modulus, 721_705_237, 153_893_309, false) == (883_009_691, 899_623_789)
  {
    assert (153_893_309 * 153_893_309 + 721_705_237 * 721_705_237) % 998_244_353 == 883_009_691;
    assert ((721_705_237 + 153_893_309) * (721_705_237 + 153_893_309) - 721_705_237 * 721_705_237) % 998_244_353 == 899_623_789;
  }

  lemma Pass46(k: nat)
    requires k == 72_301_961_339_136
    ensures ResiduesOf(Modulus, k) == (883_009_691, 899_623_789)
  {
    Residues46();
    Pass45(k / 2);
  }

  lemma Residues47()
    ensures PassResidues(Modulus, 883_009_691, 899_623_789, false) == (736_382_134, 149_642_002)
  {
    assert (899_623_789 * 899_623_789 + 883_009_691 * 883_009_691) % 998_244_353 == 736_382_134;
    assert ((883_009_691 + 899_623_789) * (883_009_691 + 899_623_789) - 883_009_691 * 883_009_691) % 998_244_353 == 149_642_002;
  }

  lemma Pass47(k: nat)
    requires k == 144_603_922_678_272
    ensures ResiduesOf(Modulus, k) == (736_382_134, 149_642_002)
  {
    Residues47();
    Pass46(k / 2);
  }

  lemma Residues48()
    ensures PassResidues(Modulus, 736_382_134, 149_642_002, false) == (15_159_816, 129_691_416)
  {
    assert (149_642_002 * 149_642_002 + 736_382_134 * 736_382_134) % 998_244_353 == 15_159_816;
    assert ((736_382_134 + 149_642_002) * (736_382_134 + 149_642_002) - 736_382_134 * 736_382_134) % 998_244_353 == 129_691_416;
  }

  lemma Pass48(k: nat)
    requires k == 289_207_845_356_544
    ensures ResiduesOf(Modulus, k) == (15_159_816, 129_691_416)
  {
    Residues48();
    Pass47(k / 2);
  }

  lemma Residues49()
    ensures PassResidues(Modulus, 15_159_816, 129_691_416, false) == (274_879_755, 756_739_700)
  {
    assert (129_691_416 * 129_691_416 + 15_159_816 * 15_159_816) % 998_244_353 == 274_879_755;
    assert ((15_159_816 + 129_691_416) * (15_159_816 + 129_691_416) - 15_159_816 * 15_159_816) % 998_244_353 == 756_739_700;
  }

  lemma Pass49(k: nat)
    requires k == 578_415_690_713_088
    ensures ResiduesOf(Modulus, k) == (274_879_755, 756_739_700)
  {
    Residues49();
    Pass48(k / 2);
  }

  lemma Residues50()
    ensures PassResidues(Modulus, 274_879_755, 756_739_700, false) == (472_111_208, 748_475_315)
  {
    assert (756_739_700 * 756_739_700 + 274_879_755 * 274_879_755) % 998_244_353 == 472_111_208;
    assert ((274_879_755 + 756_739_700) * (274_879_755 + 756_739_700) - 274_879_755 * 274_879_755) % 998_244_353 == 748_475_315;
  }

  lemma Pass50(k: nat)
    requires k == 1_156_831_381_426_176
    ensures ResiduesOf(Modulus, k) == (472_111_208, 748_475_315)
  {
    Residues50();
    Pass49(k / 2);
  }

  lemma Residues51()
    ensures PassResidues(Modulus, 472_111_208, 748_475_315, false) == (584_449_103, 112_107_166)
  {
    assert (748_475_315 * 748_475_315 + 472_111_208 * 472_111_208) % 998_244_353 == 584_449_103;
    assert ((472_111_208 + 748_475_315) * (472_111_208 + 748_475_315) - 472_111_208 * 472_111_208) % 998_244_353 == 112_107_166;
  }

  lemma Pass51(k: nat)
    requires k == 2_313_662_762_852_352
    ensures ResiduesOf(Modulus, k) == (584_449_103, 112_107_166)
  {
    Residues51();
    Pass50(k / 2);
  }

  lemma Residues52()
    ensures PassResidues(Modulus, 584_449_103, 112_107_166, false) == (403_416_893, 569_717_843)
  {
    assert (112_107_166 * 112_107_166 + 584_449_103 * 584_449_103) % 998_244_353 == 403_416_893;
    assert ((584_449_103 + 112_107_166) * (584_449_103 + 112_107_166) - 584_449_103 * 584_449_103) % 998_244_353 == 569_717_843;
  }

  lemma Pass52(k: nat)
    requires k == 4_627_325_525_704_704
    ensures ResiduesOf(Modulus, k) == (403_416_893, 569_717_843)
  {
    Residues52();
    Pass51(k / 2);
  }

  lemma Residues53()
    ensures PassResidues(Modulus, 403_416_893, 569_717_843, false) == (141_912_999, 561_863_582)
  {
    assert (569_717_843 * 569_717_843 + 403_416_893 * 403_416_893) % 998_244_353 == 141_912_999;
    assert ((403_416_893 + 569_717_843) * (403_416_893 + 569_717_843) - 403_416_893 * 403_416_893) % 998_244_353 == 561_863_582;
  }

  lemma Pass53(k: nat)
    requires k == 9_254_651_051_409_408
    ensures ResiduesOf(Modulus, k) == (141_912_999, 561_863_582)
  {
    Residues53();
    Pass52(k / 2);
  }

  lemma Residues54()
    ensures PassResidues(Modulus, 141_912_999, 561_863_582, false) == (913_530_218, 893_790_980)
  {
    assert (561_863_582 * 561_863_582 + 141_912_999 * 141_912_999) % 998_244_353 == 913_530_218;
    assert ((141_912_999 + 561_863_582) * (141_912_999 + 561_863_582) - 141_912_999 * 141_912_999) % 998_244_353 == 893_790_980;
  }

  lemma Pass54(k: nat)
    requires k == 18_509_302_102_818_816
    ensures ResiduesOf(Modulus, k) == (913_530_218, 893_790_980)
  {
    Residues54();
    Pass53(k / 2);
  }

  lemma Residues55()
    ensures PassResidues(Modulus, 913_530_218, 893_790_980, false) == (20_250_248, 53_096_064)
  {
    assert (893_790_980 * 893_790_980 + 913_530_218 * 913_530_218) % 998_244_353 == 20_250_248;
    assert ((913_530_218 + 893_790_980) * (913_530_218 + 893_790_980) - 913_530_218 * 913_530_218) % 998_244_353 == 53_096_064;
  }

  lemma Pass55(k: nat)
    requires k == 37_018_604_205_637_632
    ensures ResiduesOf(Modulus, k) == (20_250_248, 53_096_064)
  {
    Residues55();
    Pass54(k / 2);
  }

  lemma Residues56()
    ensures PassResidues(Modulus, 20_250_248, 53_096_064, false) == (974_326_721, 163_426_643)
  {
    assert (53_096_064 * 53_096_064 + 20_250_248 * 20_250_248) % 998_244_353 == 974_326_721;
    assert ((20_250_248 + 53_096_064) * (20_250_248 + 53_096_064) - 20_250_248 * 20_250_248) % 998_244_353 == 163_426_643;
  }

  lemma Pass56(k: nat)
    requires k == 74_037_208_411_275_264
    ensures ResiduesOf(Modulus, k) == (974_326_721, 163_426_643)
  {
    Residues56();
    Pass55(k / 2);
  }

  lemma Residues57()
    ensures PassResidues(Modulus, 974_326_721, 163_426_643, false) == (608_891_326, 777_665_995)
  {
    assert (163_426_643 * 163_426_643 + 974_326_721 * 974_326_721) % 998_244_353 == 608_891_326;
    assert ((974_326_721 + 163_426_643) * (974_326_721 + 163_426_643) - 974_326_721 * 974_326_721) % 998_244_353 == 777_665_995;
  }

  lemma Pass57(k: nat)
    requires k == 148_074_416_822_550_528
    ensures ResiduesOf(Modulus, k) == (608_891_326, 777_665_995)
  {
    Residues57();
    Pass56(k / 2);
  }

  lemma Residues58()
    ensures PassResidues(Modulus, 608_891_326, 777_665_995, false) == (319_181_906, 983_969_721)
  {
    assert (777_665_995 * 777_665_995 + 608_891_326 * 608_891_326) % 998_244_353 == 319_181_906;
    assert ((608_891_326 + 777_665_995) * (608_891_326 + 777_665_995) - 608_891_326 * 608_891_326) % 998_244_353 == 983_969_721;
  }

  lemma Pass58(k: nat)
    requires k == 296_148_833_645_101_056
    ensures ResiduesOf(Modulus, k) == (319_181_906, 983_969_721)
  {
    Residues58();
    Pass57(k / 2);
  }

  lemma Residues59()
    ensures PassResidues(Modulus, 319_181_906, 983_969_721, false) == (378_183_649, 678_728_376)
  {
    assert (983_969_721 * 983_969_721 + 319_181_906 * 319_181_906) % 998_244_353 == 378_183_649;
    assert ((319_181_906 + 983_969_721) * (319_181_906 + 983_969_721) - 319_181_906 * 319_181_906) % 998_244_353 == 678_728_376;
  }

  lemma Pass59(k: nat)
    requires k == 592_297_667_290_202_112
    ensures ResiduesOf(Modulus, k) == (378_183_649, 678_728_376)
  {
    Residues59();
    Pass58(k / 2);
  }

  lemma Residues60()
    ensures PassResidues(Modulus, 378_183_649, 678_728_376, false) == (255_315_117, 456_657_822)
  {
    assert (678_728_376 * 678_728_376 + 378_183_649 * 378_183_649) % 998_244_353 == 255_315_117;
    assert ((378_183_649 + 678_728_376) * (378_183_649 + 678_728_376) - 378_183_649 * 378_183_649) % 998_244_353 == 456_657_822;
  }

  lemma Pass60(k: nat)
    requires k == 1_184_595_334_580_404_224
    ensures ResiduesOf(Modulus, k) == (255_315_117, 456_657_822)
  {
    Residues60();
    Pass59(k / 2);
  }

  lemma Residues61()
    ensures PassResidues(Modulus, 255_315_117, 456_657_822, false) == (55_123_633, 594_445_060)
  {
    assert (456_657_822 * 456_657_822 + 255_315_117 * 255_315_117) % 998_244_353 == 55_123_633;
    assert ((255_315_117 + 456_657_822) * (255_315_117 + 456_657_822) - 255_315_117 * 255_315_117) % 998_244_353 == 594_445_060;
  }

  lemma Pass61(k: nat)
    requires k == 2_369_190_669_160_808_448
    ensures ResiduesOf(Modulus, k) == (55_123_633, 594_445_060)
  {
    Residues61();
    Pass60(k / 2);
  }

  lemma Residues62()
    ensures PassResidues(Modulus, 55_123_633, 594_445_060, false) == (559_232_150, 516_426_289)
  {
    assert (594_445_060 * 594_445_060 + 55_123_633 * 55_123_633) % 998_244_353 == 559_232_150;
    assert ((55_123_633 + 594_445_060) * (55_123_633 + 594_445_060) - 55_123_633 * 55_123_633) % 998_244_353 == 516_426_289;
  }

  lemma Pass62(k: nat)
    requires k == 4_738_381_338_321_616_896
    ensures ResiduesOf(Modulus, k) == (559_232_150, 516_426_289)
  {
    Residues62();
    Pass61(k / 2);
  }

  lemma Residues63()
    ensures PassResidues(Modulus, 559_232_150, 516_426_289, false) == (21_501_916, 363_335_081)
  {
    assert (516_426_289 * 516_426_289 + 559_232_150 * 559_232_150) % 998_244_353 == 21_501_916;
    assert ((559_232_150 + 516_426_289) * (559_232_150 + 516_426_289) - 559_232_150 * 559_232_150) % 998_244_353 == 363_335_081;
  }

  lemma Pass63(k: nat)
    requires k == 9_476_762_676_643_233_792
    ensures ResiduesOf(Modulus, k) == (21_501_916, 363_335_081)
  {
    Residues63();
    Pass62(k / 2);
  }

  lemma Residues64()
    ensures PassResidues(Modulus, 21_501_916, 363_335_081, false) == (354_085_164, 504_739_845)
  {
    assert (363_335_081 * 363_335_081 + 21_501_916 * 21_501_916) % 998_244_353 == 354_085_164;
    assert ((21_501_916 + 363_335_081) * (21_501_916 + 363_335_081) - 21_501_916 * 21_501_916) % 998_244_353 == 504_739_845;
  }

  lemma Pass64(k: nat)
    requires k == 18_953_525_353_286_467_584
    ensures ResiduesOf(Modulus, k) == (354_085_164, 504_739_845)
  {
    Residues64();
    Pass63(k / 2);
  }

  lemma Residues65()
    ensures PassResidues(Modulus, 354_085_164, 504_739_845, false) == (473_409_440, 310_353_844)
  {
    assert (504_739_845 * 504_739_845 + 354_085_164 * 354_085_164) % 998_244_353 == 473_409_440;
    assert ((354_085_164 + 504_739_845) * (354_085_164 + 504_739_845) - 354_085_164 * 354_085_164) % 998_244_353 == 310_353_844;
  }

  lemma Pass65(k: nat)
    requires k == 37_907_050_706_572_935_168
    ensures ResiduesOf(Modulus, k) == (473_409_440, 310_353_844)
  {
    Residues65();
    Pass64(k / 2);
  }

  lemma Residues66()
    ensures PassResidues(Modulus, 473_409_440, 310_353_844, false) == (295_250_432, 153_720_786)
  {
    assert (310_353_844 * 310_353_844 + 473_409_440 * 473_409_440) % 998_244_353 == 295_250_432;
    assert ((473_409_440 + 310_353_844) * (473_409_440 + 310_353_844) - 473_409_440 * 473_409_440) % 998_244_353 == 153_720_786;
  }

  lemma Pass66(k: nat)
    requires k == 75_814_101_413_145_870_336
    ensures ResiduesOf(Modulus, k) == (295_250_432, 153_720_786)
  {
    Residues66();
    Pass65(k / 2);
  }

  lemma Residues67()
    ensures PassResidues(Modulus, 295_250_432, 153_720_786, false) == (546_551_610, 357_407_280)
  {
    assert (153_720_786 * 153_720_786 + 295_250_432 * 295_250_432) % 998_244_353 == 546_551_610;
    assert ((295_250_432 + 153_720_786) * (295_250_432 + 153_720_786) - 295_250_432 * 295_250_432) % 998_244_353 == 357_407_280;
  }

  lemma Pass67(k: nat)
    requires k == 151_628_202_826_291_740_672
    ensures ResiduesOf(Modulus, k) == (546_551_610, 357_407_280)
  {
    Residues67();
    Pass66(k / 2);
  }

  lemma Residues68()
    ensures PassResidues(Modulus, 546_551_610, 357_407_280, false) == (780_603_991, 964_942_660)
  {
    assert (357_407_280 * 357_407_280 + 546_551_610 * 546_551_610) % 998_244_353 == 780_603_991;
    assert ((546_551_610 + 357_407_280) * (546_551_610 + 357_407_280) - 546_551_610 * 546_551_610) % 998_244_353 == 964_942_660;
  }

  lemma Pass68(k: nat)
    requires k == 303_256_405_652_583_481_344
    ensures ResiduesOf(Modulus, k) == (780_603_991, 964_942_660)
  {
    Residues68();
    Pass67(k / 2);
  }

  lemma Residues69()
    ensures PassResidues(Modulus, 780_603_991, 964_942_660, false) == (930_933_435, 126_216_685)
  {
    assert (964_942_660 * 964_942_660 + 780_603_991 * 780_603_991) % 998_244_353 == 930_933_435;
    assert ((780_603_991 + 964_942_660) * (780_603_991 + 964_942_660) - 780_603_991 * 780_603_991) % 998_244_353 == 126_216_685;
  }

  lemma Pass69(k: nat)
    requires k == 606_512_811_305_166_962_688
    ensures ResiduesOf(Modulus, k) == (930_933_435, 126_216_685)
  {
    Residues69();
    Pass68(k / 2);
  }

  lemma Residues70()
    ensures PassResidues(Modulus, 930_933_435, 126_216_685, false) == (447_942_808, 912_829_726)
  {
    assert (126_216_685 * 126_216_685 + 930_933_435 * 930_933_435) % 998_244_353 == 447_942_808;
    assert ((930_933_435 + 126_216_685) * (930_933_435 + 126_216_685) - 930_933_435 * 930_933_435) % 998_244_353 == 912_829_726;
  }

  lemma Pass70(k: nat)
    requires k == 1_213_025_622_610_333_925_376
    ensures ResiduesOf(Modulus, k) == (447_942_808, 912_829_726)
  {
    Residues70();
    Pass69(k / 2);
  }

  lemma Residues71()
    ensures PassResidues(Modulus, 447_942_808, 912_829_726, false) == (844_689_514, 474_059_181)
  {
    assert (912_829_726 * 912_829_726 + 447_942_808 * 447_942_808) % 998_244_353 == 844_689_514;
    assert ((447_942_808 + 912_829_726) * (447_942_808 + 912_829_726) - 447_942_808 * 447_942_808) % 998_244_353 == 474_059_181;
  }

  lemma Pass71(k: nat)
    requires k == 2_426_051_245_220_667_850_752
    ensures ResiduesOf(Modulus, k) == (844_689_514, 474_059_181)
  {
    Residues71();
    Pass70(k / 2);
  }

  lemma Residues72()
    ensures PassResidues(Modulus, 844_689_514, 474_059_181, false) == (190_898_805, 862_161_682)
  {
    assert (474_059_181 * 474_059_181 + 844_689_514 * 844_689_514) % 998_244_353 == 190_898_805;
    assert ((844_689_514 + 474_059_181) * (844_689_514 + 474_059_181) - 844_689_514 * 844_689_514) % 998_244_353 == 862_161_682;
  }

  lemma Pass72(k: nat)
    requires k == 4_852_102_490_441_335_701_504
    ensures ResiduesOf(Modulus, k) == (190_898_805, 862_161_682)
  {
    Residues72();
    Pass71(k / 2);
  }

  lemma Residues73()
    ensures PassResidues(Modulus, 190_898_805, 862_161_682, false) == (645_669_942, 24_622_540)
  {
    assert (862_161_682 * 862_161_682 + 190_898_805 * 190_898_805) % 998_244_353 == 645_669_942;
    assert ((190_898_805 + 862_161_682) * (190_898_805 + 862_161_682) - 190_898_805 * 190_898_805) % 998_244_353 == 24_622_540;
  }

  lemma Pass73(k: nat)
    requires k == 9_704_204_980_882_671_403_008
    ensures ResiduesOf(Modulus, k) == (645_669_942, 24_622_540)
  {
    Residues73();
    Pass72(k / 2);
  }

  lemma Residues74()
    ensures PassResidues(Modulus, 645_669_942, 24_622_540, false) == (88_319_540, 538_239_588)
  {
    assert (24_622_540 * 24_622_540 + 645_669_942 * 645_669_942) % 998_244_353 == 88_319_540;
    assert ((645_669_942 + 24_622_540) * (645_669_942 + 24_622_540) - 645_669_942 * 645_669_942) % 998_244_353 == 538_239_588;
  }

  lemma Pass74(k: nat)
    requires k == 19_408_409_961_765_342_806_016
    ensures ResiduesOf(Modulus, k) == (88_319_540, 538_239_588)
  {
    Residues74();
    Pass73(k / 2);
  }

  lemma Residues75()
    ensures PassResidues(Modulus, 88_319_540, 538_239_588, false) == (674_279_378, 642_307_330)
  {
    assert (538_239_588 * 538_239_588 + 88_319_540 * 88_319_540) % 998_244_353 == 674_279_378;
    assert ((88_319_540 + 538_239_588) * (88_319_540 + 538_239_588) - 88_319_540 * 88_319_540) % 998_244_353 == 642_307_330;
  }

  lemma Pass75(k: nat)
    requires k == 38_816_819_923_530_685_612_032
    ensures ResiduesOf(Modulus, k) == (674_279_378, 642_307_330)
  {
    Residues75();
    Pass74(k / 2);
  }

  lemma Residues76()
    ensures PassResidues(Modulus, 674_279_378, 642_307_330, false) == (538_263_044, 376_967_506)
  {
    assert (642_307_330 * 642_307_330 + 674_279_378 * 674_279_378) % 998_244_353 == 538_263_044;
    assert ((674_279_378 + 642_307_330) * (674_279_378 + 642_307_330) - 674_279_378 * 674_279_378) % 998_244_353 == 376_967_506;
  }

  lemma Pass76(k: nat)
    requires k == 77_633_639_847_061_371_224_064
    ensures ResiduesOf(Modulus, k) == (538_263_044, 376_967_506)
  {
    Residues76();
    Pass75(k / 2);
  }

  lemma Residues77()
    ensures PassResidues(Modulus, 538_263_044, 376_967_506, false) == (351_346_026, 787_281_064)
  {
    assert (376_967_506 * 376_967_506 + 538_263_044 * 538_263_044) % 998_244_353 == 351_346_026;
    assert ((538_263_044 + 376_967_506) * (538_263_044 + 376_967_506) - 538_263_044 * 538_263_044) % 998_244_353 == 787_281_064;
  }

  lemma Pass77(k: nat)
    requires k == 155_267_279_694_122_742_448_128
    ensures ResiduesOf(Modulus, k) == (351_346_026, 787_281_064)
  {
    Residues77();
    Pass76(k / 2);
  }

  lemma Residues78()
    ensures PassResidues(Modulus, 351_346_026, 787_281_064, false) == (975_486_496, 494_855_032)
  {
    assert (787_281_064 * 787_281_064 + 351_346_026 * 351_346_026) % 998_244_353 == 975_486_496;
    assert ((351_346_026 + 787_281_064) * (351_346_026 + 787_281_064) - 351_346_026 * 351_346_026) % 998_244_353 == 494_855_032;
  }

  lemma Pass78(k: nat)
    requires k == 310_534_559_388_245_484_896_256
    ensures ResiduesOf(Modulus, k) == (975_486_496, 494_855_032)
  {
    Residues78();
    Pass77(k / 2);
  }

  lemma Residues79()
    ensures PassResidues(Modulus, 975_486_496, 494_855_032, false) == (234_945_178, 9_985_653)
  {
    assert (494_855_032 * 494_855_032 + 975_486_496 * 975_486_496) % 998_244_353 == 234_945_178;
    assert ((975_486_496 + 494_855_032) * (975_486_496 + 494_855_032) - 975_486_496 * 975_486_496) % 998_244_353 == 9_985_653;
  }

  lemma Pass79(k: nat)
    requires k == 621_069_118_776_490_969_792_512
    ensures ResiduesOf(Modulus, k) == (234_945_178, 9_985_653)
  {
    Residues79();
    Pass78(k / 2);
  }

  lemma Residues80()
    ensures PassResidues(Modulus, 234_945_178, 9_985_653, false) == (114_163_375, 944_704_271)
  {
    assert (9_985_653 * 9_985_653 + 234_945_178 * 234_945_178) % 998_244_353 == 114_163_375;
    assert ((234_945_178 + 9_985_653) * (234_945_178 + 9_985_653) - 234_945_178 * 234_945_178) % 998_244_353 == 944_704_271;
  }

  lemma Pass80(k: nat)
    requires k == 1_242_138_237_552_981_939_585_024
    ensures ResiduesOf(Modulus, k) == (114_163_375, 944_704_271)
  {
    Residues80();
    Pass79(k / 2);
  }

  lemma Residues81()
    ensures PassResidues(Modulus, 114_163_375, 944_704_271, false) == (131_131_009, 60_433_727)
  {
    assert (944_704_271 * 944_704_271 + 114_163_375 * 114_163_375) % 998_244_353 == 131_131_009;
    assert ((114_163_375 + 944_704_271) * (114_163_375 + 944_704_271) - 114_163_375 * 114_163_375) % 998_244_353 == 60_433_727;
  }

  lemma Pass81(k: nat)
    requires k == 2_484_276_475_105_963_879_170_048
    ensures ResiduesOf(Modulus, k) == (131_131_009, 60_433_727)
  {
    Residues81();
    Pass80(k / 2);
  }

  lemma Residues82()
    ensures PassResidues(Modulus, 131_131_009, 60_433_727, false) == (237_283_184, 884_206_203)
  {
    assert (60_433_727 * 60_433_727 + 131_131_009 * 131_131_009) % 998_244_353 == 237_283_184;
    assert ((131_131_009 + 60_433_727) * (131_131_009 + 60_433_727) - 131_131_009 * 131_131_009) % 998_244_353 == 884_206_203;
  }

  lemma Pass82(k: nat)
    requires k == 4_968_552_950_211_927_758_340_096
    ensures ResiduesOf(Modulus, k) == (237_283_184, 884_206_203)
  {
    Residues82();
    Pass81(k / 2);
  }

  lemma Residues83()
    ensures PassResidues(Modulus, 237_283_184, 884_206_203, false) == (465_512_597, 427_560_140)
  {
    assert (884_206_203 * 884_206_203 + 237_283_184 * 237_283_184) % 998_244_353 == 465_512_597;
    assert ((237_283_184 + 884_206_203) * (237_283_184 + 884_206_203) - 237_283_184 * 237_283_184) % 998_244_353 == 427_560_140;
  }

  lemma Pass83(k: nat)
    requires k == 9_937_105_900_423_855_516_680_192
    ensures ResiduesOf(Modulus, k) == (465_512_597, 427_560_140)
  {
    Residues83();
    Pass82(k / 2);
  }

  lemma Residues84()
    ensures PassResidues(Modulus, 465_512_597, 427_560_140, false) == (774_760_463, 40_064_728)
  {
    assert (427_560_140 * 427_560_140 + 465_512_597 * 465_512_597) % 998_244_353 == 774_760_463;
    assert ((465_512_597 + 427_560_140) * (465_512_597 + 427_560_140) - 465_512_597 * 465_512_597) % 998_244_353 == 40_064_728;
  }

  lemma Pass84(k: nat)
    requires k == 19_874_211_800_847_711_033_360_384
    ensures ResiduesOf(Modulus, k) == (774_760_463, 40_064_728)
  {
    Residues84();
    Pass83(k / 2);
  }

  lemma Residues85()
    ensures PassResidues(Modulus, 774_760_463, 40_064_728, false) == (699_874_502, 196_347_740)
  {
    assert (40_064_728 * 40_064_728 + 774_760_463 * 774_760_463) % 998_244_353 == 699_874_502;
    assert ((774_760_463 + 40_064_728) * (774_760_463 + 40_064_728) - 774_760_463 * 774_760_463) % 998_244_353 == 196_347_740;
  }

  lemma Pass85(k: nat)
    requires k == 39_748_423_601_695_422_066_720_768
    ensures ResiduesOf(Modulus, k) == (699_874_502, 196_347_740)
  {
    Residues85();
    Pass84(k / 2);
  }

  lemma Residues86()
    ensures PassResidues(Modulus, 699_874_502, 196_347_740, false) == (92_995_720, 357_977_786)
  {
    assert (196_347_740 * 196_347_740 + 699_874_502 * 699_874_502) % 998_244_353 == 92_995_720;
    assert ((699_874_502 + 196_347_740) * (699_874_502 + 196_347_740) - 699_874_502 * 699_874_502) % 998_244_353 == 357_977_786;
  }

  lemma Pass86(k: nat)
    requires k == 79_496_847_203_390_844_133_441_536
    ensures ResiduesOf(Modulus, k) == (92_995_720, 357_977_786)
  {
    Residues86();
    Pass85(k / 2);
  }

  /** The value the test expects, reduced modulo 998244353. */
  lemma ModuloVector()
    ensures FibInt(Index) % Modulus == 357_977_786
  {
    Pass86(Index);
    ResiduesOfFib(Modulus, Index);
  }

  /** The `modulo` test: `fibonacci` over the residues modulo 998244353 at
      the test's index returns 357977786. */
  method ModuloTest() returns (r: int)
    ensures r == 357_977_786
  {
    r := FibonacciModulo(Index, Modulus);
    ModuloVector();
  }

  /** The example of the module documentation: `fibonacci(10)` is 55. */
  method DocExample() returns (r: int)
    ensures r == 55
  {
    r := FibonacciOverInt(10);
    Examples();
  }
}
