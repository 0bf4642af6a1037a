/**
 * Zobrist keys (crates/chess_core/src/zobrist.rs): 781 pseudo-random
 * 64-bit values, one per piece on a square, one for Black to move, one per
 * castling right and one per en-passant file. They are drawn in a fixed
 * order from an xorshift64 generator started at a fixed seed.
 */
module Zobrist {
  import opened Types

  /** The generator's fixed seed. */
  const SEED: bv64 := 0x1234_5678_9ABC_DEF0

  /** Number of keys: 12 pieces on 64 squares, the side to move, 4 castling rights, 8 en-passant files. */
  const KEY_COUNT: nat := 781

  // The three steps of xorshift64; the shifts drop the bits pushed out of the word.

  function Mix13(x: bv64): bv64 { x ^ (x << 13) }

  function Mix7(x: bv64): bv64 { x ^ (x >> 7) }

  function Mix17(x: bv64): bv64 { x ^ (x << 17) }

  /** One step of the generator. */
  function Xorshift(x: bv64): bv64
  {
    Mix17(Mix7(Mix13(x)))
  }

  // Each step is undone by xoring in the further shifts of its result.

  function Undo13(y: bv64): bv64 { y ^ (y << 13) ^ (y << 26) ^ (y << 39) ^ (y << 52) }

  function Undo7(y: bv64): bv64
  {
    y ^ (y >> 7) ^ (y >> 14) ^ (y >> 21) ^ (y >> 28) ^ (y >> 35) ^ (y >> 42) ^ (y >> 49) ^ (y >> 56) ^ (y >> 63)
  }

  function Undo17(y: bv64): bv64 { y ^ (y << 17) ^ (y << 34) ^ (y << 51) }

  lemma Undo13Mix13(x: bv64)
    ensures Undo13(Mix13(x)) == x
  {
    assert Undo13(x ^ (x << 13)) == x;
  }

  lemma Undo7Mix7(x: bv64)
    ensures Undo7(Mix7(x)) == x
  {
    assert Undo7(x ^ (x >> 7)) == x;
  }

  lemma Undo17Mix17(x: bv64)
    ensures Undo17(Mix17(x)) == x
  {
    assert Undo17(x ^ (x << 17)) == x;
  }

  /** The inverse of one generator step. */
  function Unxorshift(y: bv64): bv64
  {
    Undo13(Undo7(Undo17(y)))
  }

  /** A generator step is undone by its inverse, so no two states step to the same state. */
  lemma XorshiftInverse(x: bv64)
    ensures Unxorshift(Xorshift(x)) == x
  {
    Undo17Mix17(Mix7(Mix13(x)));
    Undo7Mix7(Mix13(x));
    Undo13Mix13(x);
  }

  lemma XorshiftInjective(x: bv64, y: bv64)
    requires Xorshift(x) == Xorshift(y)
    ensures x == y
  {
    XorshiftInverse(x);
    XorshiftInverse(y);
  }

  /** The generator state after n steps from the seed. */
  function Iterate(n: nat): bv64
  {
    if n == 0 then SEED else Xorshift(Iterate(n - 1))
  }

  /** Key number k in drawing order: the state after k + 1 steps. */
  function Key(k: nat): bv64
  {
    Iterate(k + 1)
  }

  /** Two equal states, i steps apart, mean the seed comes back after j - i steps. */
  lemma {:induction false} IterateCancel(i: nat, j: nat)
    requires i <= j && Iterate(i) == Iterate(j)
    ensures Iterate(j - i) == SEED
    decreases i
  {
    if i > 0 {
      XorshiftInjective(Iterate(i - 1), Iterate(j - 1));
      IterateCancel(i - 1, j - 1);
    }
  }

  /** None of the n states from x on (x itself, its successor, ...) is the seed. */
  predicate Avoids(x: bv64, n: nat)
    decreases n
  {
    n == 0 || (x != SEED && Avoids(Xorshift(x), n - 1))
  }

  lemma {:induction false} AvoidsIterate(j: nat, n: nat)
    requires Avoids(Iterate(j), n)
    ensures forall d :: j <= d < j + n ==> Iterate(d) != SEED
    decreases n
  {
    if n > 0 {
      assert Iterate(j + 1) == Xorshift(Iterate(j));
      AvoidsIterate(j + 1, n - 1);
    }
  }

  // The 780 states after the seed, listed and checked one step at a time
  // from the last back to the first: none of them is the seed.

  lemma Orbit0()
    ensures Avoids(0xFE80_0D65_69FA_1B4D, 780)
  {
    Orbit1();
    assert Avoids(0x88F9_A0B2_AA75_6808, 771);
    assert Avoids(0x1F69_F901_F7B3_17E7, 772);
    assert Avoids(0x9F00_942E_BA9C_C52D, 773);
    assert Avoids(0x31EA_2A2C_06D6_DD57, 774);
    assert Avoids(0x8EF8_DC1B_CC6A_E984, 775);
    assert Avoids(0x3E23_AF87_5E8F_644C, 776);
    assert Avoids(0x6CF2_AF81_492C_B424, 777);
    assert Avoids(0x41DF_B69A_11DB_93C3, 778);
    assert Avoids(0x0CE7_C497_A6B0_9C3B, 779);
  }

  lemma Orbit1()
    ensures Avoids(0xE9B9_D4E2_FECA_80D8, 770)
  {
    Orbit2();
    assert Avoids(0x1A79_3E70_80EB_8491, 761);
    assert Avoids(0x96D6_BF57_50F2_5861, 762);
    assert Avoids(0xD95D_89A1_2E70_81E2, 763);
    assert Avoids(0xE99C_AD48_A79F_E4EB, 764);
    assert Avoids(0x94CC_F797_D2B9_E979, 765);
    assert Avoids(0x9367_4AFE_6793_FF47, 766);
    assert Avoids(0x5FA9_EC0E_24D4_A54D, 767);
    assert Avoids(0x26E0_C090_AD4D_89DE, 768);
    assert Avoids(0x52D8_7335_9E3E_23D9, 769);
  }

  lemma Orbit2()
    ensures Avoids(0xBDAE_1703_8429_57D8, 760)
  {
    Orbit3();
    assert Avoids(0xB4B5_31A2_9747_E249, 751);
    assert Avoids(0x3525_658E_D7CB_5B3F, 752);
    assert Avoids(0x2ABA_9538_473C_C9AC, 753);
    assert Avoids(0x3963_44CC_656B_991E, 754);
    assert Avoids(0x655C_490A_CA48_D5F5, 755);
    assert Avoids(0x0F23_F019_DE08_7055, 756);
    assert Avoids(0xFF5F_576D_FF0E_CF0B, 757);
    assert Avoids(0xB373_39E1_955B_0D51, 758);
    assert Avoids(0x8923_BC56_4561_F377, 759);
  }

  lemma Orbit3()
    ensures Avoids(0xD1BD_9E3D_4042_DFCD, 750)
  {
    Orbit4();
    assert Avoids(0x9EEC_16A7_3E04_334E, 741);
    assert Avoids(0x85A2_AE06_6ABC_8E93, 742);
    assert Avoids(0xF9BF_F3A1_29FB_17BC, 743);
    assert Avoids(0x5FCA_D996_B966_580C, 744);
    assert Avoids(0xDE00_B47B_05C4_5D36, 745);
    assert Avoids(0x7871_85BE_10D7_349F, 746);
    assert Avoids(0xC16A_A746_AE7E_2A0B, 747);
    assert Avoids(0xE8AC_7131_B14B_D5A0, 748);
    assert Avoids(0xE60C_2141_63E8_0932, 749);
  }

  lemma Orbit4()
    ensures Avoids(0x1D0A_6EBF_264D_28A8, 740)
  {
    Orbit5();
    assert Avoids(0x83B1_6615_EF06_9DAA, 731);
    assert Avoids(0x7B43_2D71_CF41_46E7, 732);
    assert Avoids(0x895D_14B9_4571_4935, 733);
    assert Avoids(0x188F_29B7_0557_4CAC, 734);
    assert Avoids(0xD15F_57A0_843A_BC95, 735);
    assert Avoids(0x031C_42B3_DA0E_1967, 736);
    assert Avoids(0xFD3E_C079_855E_4837, 737);
    assert Avoids(0x2F10_3273_263A_DF88, 738);
    assert Avoids(0x32B8_EDDF_5FAC_98F9, 739);
  }

  lemma Orbit5()
    ensures Avoids(0xD6A8_91D7_A2E8_BA11, 730)
  {
    Orbit6();
    assert Avoids(0x639E_AE9A_B02E_EEED, 721);
    assert Avoids(0x12E4_D463_82C4_C83D, 722);
    assert Avoids(0x72E4_1EF4_D717_4EA0, 723);
    assert Avoids(0xAAC6_62DE_9F35_28B1, 724);
    assert Avoids(0x045A_9683_E923_43B6, 725);
    assert Avoids(0xF9A3_470C_4471_7758, 726);
    assert Avoids(0x0966_A315_CD70_8058, 727);
    assert Avoids(0xC835_845E_0217_B1FB, 728);
    assert Avoids(0x4798_00C2_3E8B_CF25, 729);
  }

  lemma Orbit6()
    ensures Avoids(0x71FD_C53F_03C8_A870, 720)
  {
    Orbit7();
    assert Avoids(0x7436_5486_09EF_5A03, 711);
    assert Avoids(0x79E2_9941_1B0F_38F2, 712);
    assert Avoids(0x56E5_BF5F_7B43_FD08, 713);
    assert Avoids(0x5963_A16C_06BF_8008, 714);
    assert Avoids(0x35B9_A5F0_342E_CADD, 715);
    assert Avoids(0xE020_CECE_D1F4_8713, 716);
    assert Avoids(0x94FC_B071_2193_C79C, 717);
    assert Avoids(0x0992_3DFC_5DB3_3B6A, 718);
    assert Avoids(0xEAD1_A4DA_D0AB_2520, 719);
  }

  lemma Orbit7()
    ensures Avoids(0x0EFA_F244_5D84_6477, 710)
  {
    Orbit8();
    assert Avoids(0xC2FE_3A66_0880_1437, 701);
    assert Avoids(0x8D1D_C7E3_F942_761B, 702);
    assert Avoids(0x9E4E_4F57_58A6_57B4, 703);
    assert Avoids(0x8572_D8BD_9512_EA60, 704);
    assert Avoids(0x0C49_FB6F_428B_F912, 705);
    assert Avoids(0xFA86_16F1_E4AC_E79D, 706);
    assert Avoids(0x6DD8_A0AB_D619_63DA, 707);
    assert Avoids(0xC69D_6391_F6D3_839D, 708);
    assert Avoids(0x6A1D_6C56_1A56_917F, 709);
  }

  lemma Orbit8()
    ensures Avoids(0x38B8_52A5_15AC_F9DF, 700)
  {
    Orbit9();
    assert Avoids(0x3AFA_A90D_BA7D_057A, 691);
    assert Avoids(0xD383_C089_6A6A_9493, 692);
    assert Avoids(0xA057_FA54_35ED_2C0B, 693);
    assert Avoids(0x6F64_6D97_0960_9561, 694);
    assert Avoids(0x2000_D5AC_AFF1_4AF4, 695);
    assert Avoids(0xB36E_84AE_9CF6_32D1, 696);
    assert Avoids(0xDAFC_2907_34F7_F1B2, 697);
    assert Avoids(0x790D_70F6_8CA4_F883, 698);
    assert Avoids(0x6168_7EF4_C45A_37EC, 699);
  }

  lemma Orbit9()
    ensures Avoids(0x3FF9_95B1_5D07_E1F0, 690)
  {
    Orbit10();
    assert Avoids(0x416A_AEC0_E18E_D3FF, 681);
    assert Avoids(0xAAB5_7CB8_D2A2_6F61, 682);
    assert Avoids(0xA196_18B3_E014_754B, 683);
    assert Avoids(0xDD5B_36A1_2988_1AFE, 684);
    assert Avoids(0x31F7_8DF0_841B_FCC7, 685);
    assert Avoids(0x84E2_C8C2_58F4_E749, 686);
    assert Avoids(0x0FDA_1DF9_9D55_6A9C, 687);
    assert Avoids(0x9D5C_475D_2DDD_45D7, 688);
    assert Avoids(0x4F8E_259A_A61D_9233, 689);
  }

  lemma Orbit10()
    ensures Avoids(0xBBB2_6499_7AB6_D198, 680)
  {
    Orbit11();
    assert Avoids(0x5F27_563E_F1D6_5703, 671);
    assert Avoids(0x52EE_FF78_A993_1EBE, 672);
    assert Avoids(0xCAD1_A476_6000_C0FF, 673);
    assert Avoids(0xA56D_0507_CBA6_62BA, 674);
    assert Avoids(0x675F_92F4_4313_0C22, 675);
    assert Avoids(0xC627_4C98_02DE_F181, 676);
    assert Avoids(0x1A5E_1C49_E956_762D, 677);
    assert Avoids(0x10E1_3380_3DCA_514F, 678);
    assert Avoids(0xE47F_76D1_8BB2_DA3B, 679);
  }

  lemma Orbit11()
    ensures Avoids(0x26A3_2F94_859A_5B6D, 670)
  {
    Orbit12();
    assert Avoids(0x3A83_7A5C_984E_3EE9, 661);
    assert Avoids(0xF69D_7331_A6D4_A97B, 662);
    assert Avoids(0xA56B_24E2_8BEA_02FE, 663);
    assert Avoids(0x8E2A_DBB2_D3FE_3E02, 664);
    assert Avoids(0x432E_2437_8ED7_DE3E, 665);
    assert Avoids(0xD4A8_A631_D34A_8730, 666);
    assert Avoids(0xE710_5551_EF22_CB26, 667);
    assert Avoids(0x78E6_8DE4_F27E_EA72, 668);
    assert Avoids(0x7B64_1E8D_A85C_149B, 669);
  }

  lemma Orbit12()
    ensures Avoids(0xA46C_92DF_8484_38D4, 660)
  {
    Orbit13();
    assert Avoids(0xC371_C4DD_B7EC_AC35, 651);
    assert Avoids(0x3C66_4AE1_2F7E_E8E4, 652);
    assert Avoids(0xFCBD_7B2B_E540_E024, 653);
    assert Avoids(0x2205_EF99_98D5_DCDD, 654);
    assert Avoids(0x5539_6A01_AFC3_E84D, 655);
    assert Avoids(0x5DA9_086E_AB36_2586, 656);
    assert Avoids(0x0666_5314_946A_3FB9, 657);
    assert Avoids(0x0EB8_147F_F477_EBEE, 658);
    assert Avoids(0x2F4C_37B8_96D3_85A5, 659);
  }

  lemma Orbit13()
    ensures Avoids(0xB795_6299_D274_D82D, 650)
  {
    Orbit14();
    assert Avoids(0xA6C0_86CC_FB31_3BDA, 641);
    assert Avoids(0xA0F9_C425_094C_E714, 642);
    assert Avoids(0xF3BE_37A7_47A9_2054, 643);
    assert Avoids(0xA149_05F6_9FFC_56B9, 644);
    assert Avoids(0x22BA_173E_6317_4471, 645);
    assert Avoids(0x031D_0A53_22DE_C6FC, 646);
    assert Avoids(0x159D_FF4A_1173_B4D5, 647);
    assert Avoids(0x537A_D829_4990_3EA8, 648);
    assert Avoids(0xB33C_1BA1_D259_9ADD, 649);
  }

  lemma Orbit14()
    ensures Avoids(0xE046_387C_57A8_EF2D, 640)
  {
    Orbit15();
    assert Avoids(0xCACC_D240_EF7F_CB14, 631);
    assert Avoids(0x3E3D_A1DC_6B53_F176, 632);
    assert Avoids(0x35FB_71B2_CA05_3B00, 633);
    assert Avoids(0x2988_7A7F_E651_8FDF, 634);
    assert Avoids(0x60EA_D2B1_178B_74B6, 635);
    assert Avoids(0xFF2E_0A3F_B5CA_365A, 636);
    assert Avoids(0x3C15_9D1A_439A_4795, 637);
    assert Avoids(0x1A11_74C3_14AB_A6D8, 638);
    assert Avoids(0x64DF_905F_F3BF_D5B3, 639);
  }

  lemma Orbit15()
    ensures Avoids(0xDC45_5652_AB35_7182, 630)
  {
    Orbit16();
    assert Avoids(0xB65F_FD73_05A0_2816, 621);
    assert Avoids(0x44EA_F2B6_E40E_FFA9, 622);
    assert Avoids(0x3887_AF4D_BB96_F009, 623);
    assert Avoids(0x1EB8_B53C_99A6_95A2, 624);
    assert Avoids(0x721E_614E_F642_4EFF, 625);
    assert Avoids(0xFF3F_0B89_0F5D_0DE4, 626);
    assert Avoids(0xD713_60E2_E1C2_00A5, 627);
    assert Avoids(0x9030_2F69_A566_79D6, 628);
    assert Avoids(0x4C06_C72C_1ACD_3BE1, 629);
  }

  lemma Orbit16()
    ensures Avoids(0xB49B_63BB_D52F_ADC6, 620)
  {
    Orbit17();
    assert Avoids(0xE3C7_F85A_4065_1472, 611);
    assert Avoids(0xA908_C8FE_7D45_C276, 612);
    assert Avoids(0xF8B1_3AEE_C43F_7E0A, 613);
    assert Avoids(0x7580_C4DD_C4EB_ED91, 614);
    assert Avoids(0x7B1F_C838_171D_FC29, 615);
    assert Avoids(0xC9CC_F988_A7AD_9645, 616);
    assert Avoids(0x0C18_D3BF_10DE_93E2, 617);
    assert Avoids(0x65C8_915F_511C_FCDB, 618);
    assert Avoids(0x5B05_F880_9AEC_431D, 619);
  }

  lemma Orbit17()
    ensures Avoids(0x4E99_B76B_4A9A_82DA, 610)
  {
    Orbit18();
    assert Avoids(0xFC77_C43F_4CA7_FC78, 601);
    assert Avoids(0x8569_0BBC_D078_1C40, 602);
    assert Avoids(0x51B3_0107_E583_13A7, 603);
    assert Avoids(0x6D39_A80A_EBEE_3BD0, 604);
    assert Avoids(0xE5AD_4906_143C_5A64, 605);
    assert Avoids(0xF260_3FD8_0A5C_6D3E, 606);
    assert Avoids(0x247F_45BA_51EC_7399, 607);
    assert Avoids(0x71E0_2BD9_AF1B_621D, 608);
    assert Avoids(0x178C_E26C_E84A_415F, 609);
  }

  lemma Orbit18()
    ensures Avoids(0x9F18_056D_BF4E_AD80, 600)
  {
    Orbit19();
    assert Avoids(0x2443_A9D2_97B3_F1BC, 591);
    assert Avoids(0x77C6_9226_B752_D218, 592);
    assert Avoids(0x62FB_E639_5A05_D532, 593);
    assert Avoids(0x86D7_4837_6C37_FB85, 594);
    assert Avoids(0x0F5B_AF05_3AC8_CD9E, 595);
    assert Avoids(0xE1D9_B7A8_117D_FEA3, 596);
    assert Avoids(0xF606_40E0_DC4F_1043, 597);
    assert Avoids(0x1EBC_DAA5_9821_3CBA, 598);
    assert Avoids(0x2D48_1DB7_C39D_50DB, 599);
  }

  lemma Orbit19()
    ensures Avoids(0x407E_487C_52E9_795F, 590)
  {
    Orbit20();
    assert Avoids(0x4427_8C0A_6A46_42E4, 581);
    assert Avoids(0x9793_A2F3_53A5_9F5A, 582);
    assert Avoids(0xE434_1654_9C7A_36F7, 583);
    assert Avoids(0xEF17_0E3A_DF6C_0233, 584);
    assert Avoids(0x51B6_7E01_5434_04BA, 585);
    assert Avoids(0x309F_4CCC_2EFA_AA6E, 586);
    assert Avoids(0x34BB_AD21_5579_9C97, 587);
    assert Avoids(0xD1B8_7D19_F08C_6115, 588);
    assert Avoids(0xCB29_5FD7_07E3_1C6D, 589);
  }

  lemma Orbit20()
    ensures Avoids(0xAD4D_C27D_C99C_F761, 580)
  {
    Orbit21();
    assert Avoids(0xBACE_3127_1772_E7DD, 571);
    assert Avoids(0x7196_5A03_B765_8D07, 572);
    assert Avoids(0x5D99_6A3E_BC8A_7027, 573);
    assert Avoids(0x775C_62FD_B71E_B8D6, 574);
    assert Avoids(0xFD4A_A3A9_9881_6AC3, 575);
    assert Avoids(0x92A0_EDD7_0359_B1A0, 576);
    assert Avoids(0x0F96_3B7F_293F_C428, 577);
    assert Avoids(0x4A9D_BD84_F31C_E562, 578);
    assert Avoids(0xEA59_E804_A640_36CF, 579);
  }

  lemma Orbit21()
    ensures Avoids(0x70CE_B452_73BA_5552, 570)
  {
    Orbit22();
    assert Avoids(0xFA1C_FCFF_14C7_42D8, 561);
    assert Avoids(0x5F28_CCD3_BDA7_137E, 562);
    assert Avoids(0xF142_DFA2_474A_505E, 563);
    assert Avoids(0x858A_AFAA_01DE_2D04, 564);
    assert Avoids(0x8FA9_DA30_EDCD_244C, 565);
    assert Avoids(0x220C_6E7B_C660_6506, 566);
    assert Avoids(0x398F_BAC3_1E91_850C, 567);
    assert Avoids(0x5EBA_054D_8FA7_4F12, 568);
    assert Avoids(0x40AA_9515_1992_3578, 569);
  }

  lemma Orbit22()
    ensures Avoids(0x55FE_7E91_C7DF_7A5D, 560)
  {
    Orbit23();
    assert Avoids(0xCE88_B3BE_5EA2_E4ED, 551);
    assert Avoids(0x8A53_FD7C_C7C2_CC35, 552);
    assert Avoids(0x4082_74B8_E222_2639, 553);
    assert Avoids(0x7063_0788_5C47_9A4D, 554);
    assert Avoids(0xA23B_FC2A_BA78_CF13, 555);
    assert Avoids(0x8C5A_36D4_1946_2519, 556);
    assert Avoids(0x99D1_A54E_2D9C_2DC2, 557);
    assert Avoids(0x7303_C1C7_F63C_064E, 558);
    assert Avoids(0xA6D5_E76D_1B17_F3E9, 559);
  }

  lemma Orbit23()
    ensures Avoids(0xD47B_2AEC_A2F3_3A64, 550)
  {
    Orbit24();
    assert Avoids(0xE93D_852E_A6C5_00A7, 541);
    assert Avoids(0x6FB8_9079_A85F_5A92, 542);
    assert Avoids(0x0B11_8E14_1411_2842, 543);
    assert Avoids(0x991C_E3D9_5BB2_0893, 544);
    assert Avoids(0x6EE8_D7F4_6D8D_64DA, 545);
    assert Avoids(0x4F08_F27F_1ED7_8989, 546);
    assert Avoids(0xB2D1_7851_38DD_014B, 547);
    assert Avoids(0x71FE_DFAE_2AE7_A89A, 548);
    assert Avoids(0x57DB_B3A6_2A14_C510, 549);
  }

  lemma Orbit24()
    ensures Avoids(0x9B80_B4ED_6C10_4366, 540)
  {
    Orbit25();
    assert Avoids(0x2D8F_E218_5D84_D35D, 531);
    assert Avoids(0x28C9_6C3F_2A41_FAA8, 532);
    assert Avoids(0xEA63_3C41_C2A9_A2AD, 533);
    assert Avoids(0x9360_FAB5_2D6C_DF92, 534);
    assert Avoids(0x9AD5_AD14_EA87_87DD, 535);
    assert Avoids(0xFB9D_79F2_C6FB_C5D6, 536);
    assert Avoids(0xAFA4_97CE_7107_0B81, 537);
    assert Avoids(0x54F2_6770_2392_0A94, 538);
    assert Avoids(0xCABC_5635_4E74_7A60, 539);
  }

  lemma Orbit25()
    ensures Avoids(0x3098_5CBA_CD16_ADBB, 530)
  {
    Orbit26();
    assert Avoids(0x8241_12CA_6768_765D, 521);
    assert Avoids(0x1AC4_9A5C_0821_9C25, 522);
    assert Avoids(0xDC69_933B_A3F0_C76B, 523);
    assert Avoids(0xB7A7_CDF1_BB94_8725, 524);
    assert Avoids(0x8F2B_AF04_F940_AA31, 525);
    assert Avoids(0x9CCF_CD6F_E260_44B8, 526);
    assert Avoids(0xA078_5BFA_74FE_A572, 527);
    assert Avoids(0x90B3_F44D_3926_A73C, 528);
    assert Avoids(0x0D5D_4A33_34D0_8E20, 529);
  }

  lemma Orbit26()
    ensures Avoids(0x7C6E_207A_0492_91F1, 520)
  {
    Orbit27();
    assert Avoids(0x5C3E_208C_2AAA_4E2F, 511);
    assert Avoids(0xFAA9_EE82_84D0_195D, 512);
    assert Avoids(0x3A3E_2E2A_D4A8_EA88, 513);
    assert Avoids(0x19E3_CD5B_8BC6_6787, 514);
    assert Avoids(0xFA4B_58E5_9FC7_0F98, 515);
    assert Avoids(0x47F0_79ED_DB1A_36B5, 516);
    assert Avoids(0x4849_2BC2_E104_9C8C, 517);
    assert Avoids(0x7FD8_04C0_F865_C7C3, 518);
    assert Avoids(0xFD42_AE2A_5725_E892, 519);
  }

  lemma Orbit27()
    ensures Avoids(0x6C3A_59C0_334F_7173, 510)
  {
    Orbit28();
    assert Avoids(0x19E0_E4BC_69D3_CD01, 501);
    assert Avoids(0x3CF1_188E_D0A0_B7EE, 502);
    assert Avoids(0x480D_CF82_967D_9A5A, 503);
    assert Avoids(0x1AB2_312C_A3BD_BAEF, 504);
    assert Avoids(0x7A52_DBA8_4F38_3E53, 505);
    assert Avoids(0xFFF7_E45D_0208_4C0B, 506);
    assert Avoids(0x7A39_2D97_53C8_AADE, 507);
    assert Avoids(0xAA14_9506_E759_D4B7, 508);
    assert Avoids(0x9161_46A1_2879_D351, 509);
  }

  lemma Orbit28()
    ensures Avoids(0x0BD7_BFF3_09E5_0ADB, 500)
  {
    Orbit29();
    assert Avoids(0xE1F4_15A7_28E4_6154, 491);
    assert Avoids(0x41F9_15A2_7154_577A, 492);
    assert Avoids(0xCA0E_F0D3_99B4_61F9, 493);
    assert Avoids(0x4578_3A60_B33F_3E84, 494);
    assert Avoids(0x0F58_317B_CF21_F7AB, 495);
    assert Avoids(0x19BF_A0A4_3BFD_6521, 496);
    assert Avoids(0x3C65_1A89_8823_1245, 497);
    assert Avoids(0x19F5_1A90_BA84_B3A2, 498);
    assert Avoids(0xE735_E2AC_1BF3_160E, 499);
  }

  lemma Orbit29()
    ensures Avoids(0x8133_D654_2AAB_7C96, 490)
  {
    Orbit30();
    assert Avoids(0x59C6_F40B_9C17_D916, 481);
    assert Avoids(0x0A18_19A7_41C2_8ECB, 482);
    assert Avoids(0x8EB6_311D_D83D_85C0, 483);
    assert Avoids(0x49A7_54D5_CB43_1D7A, 484);
    assert Avoids(0x712A_BDB9_88D9_E03A, 485);
    assert Avoids(0xBC74_A65F_A0CB_2F64, 486);
    assert Avoids(0xC42E_67C4_8390_85AF, 487);
    assert Avoids(0xB6AC_F300_E433_0FB0, 488);
    assert Avoids(0xB940_2EC0_D86D_CFEF, 489);
  }

  lemma Orbit30()
    ensures Avoids(0x9745_E370_93B3_7324, 480)
  {
    Orbit31();
    assert Avoids(0xA12B_66D1_6D01_986E, 471);
    assert Avoids(0x1930_17C2_D19B_79DD, 472);
    assert Avoids(0x2BFC_A593_5C7A_337B, 473);
    assert Avoids(0xC432_7E7A_A521_1511, 474);
    assert Avoids(0xE5AF_0B6F_76C4_B031, 475);
    assert Avoids(0x45B7_6869_D776_7F0F, 476);
    assert Avoids(0x82F5_928F_0694_A6C2, 477);
    assert Avoids(0xFF93_A97E_A942_7CFB, 478);
    assert Avoids(0x66B4_46BC_49A8_5CC2, 479);
  }

  lemma Orbit31()
    ensures Avoids(0x9FA5_D087_3D0C_40DE, 470)
  {
    Orbit32();
    assert Avoids(0xF3B7_3AC0_1E2C_361F, 461);
    assert Avoids(0xD934_BEB5_2327_94B6, 462);
    assert Avoids(0x24FD_44A9_F3F2_B799, 463);
    assert Avoids(0xBBC3_268B_F882_98A8, 464);
    assert Avoids(0xDE60_72F5_D253_2766, 465);
    assert Avoids(0x2743_7137_8FEC_3B10, 466);
    assert Avoids(0xF55E_B834_57F1_D73E, 467);
    assert Avoids(0xBFFE_E1C1_3B1C_3F40, 468);
    assert Avoids(0x9F6F_ADB3_A7C3_AFDF, 469);
  }

  lemma Orbit32()
    ensures Avoids(0xDA29_C0CB_80B8_09B3, 460)
  {
    Orbit33();
    assert Avoids(0xB017_9DD3_7C24_5339, 451);
    assert Avoids(0xB37A_82A7_B99A_515B, 452);
    assert Avoids(0x456C_F2F1_1D65_E84B, 453);
    assert Avoids(0xA941_F962_5883_8919, 454);
    assert Avoids(0x4239_9CCD_84A3_EF07, 455);
    assert Avoids(0x7723_30A3_BDDE_BD3D, 456);
    assert Avoids(0x0798_7BF8_5784_0C65, 457);
    assert Avoids(0x4904_2E6A_CF0C_B78A, 458);
    assert Avoids(0x408E_A0A7_D24D_7560, 459);
  }

  lemma Orbit33()
    ensures Avoids(0x104C_1AEC_B211_F5DF, 450)
  {
    Orbit34();
    assert Avoids(0x6105_DFB5_0A95_88BA, 441);
    assert Avoids(0x90C9_020F_DC56_6CA3, 442);
    assert Avoids(0x8680_38A0_C678_E6EE, 443);
    assert Avoids(0x4C84_A33A_5819_0A7A, 444);
    assert Avoids(0x3468_6AF1_E5E9_8570, 445);
    assert Avoids(0x3D3B_0164_D58C_8070, 446);
    assert Avoids(0xA876_171C_BD00_89A3, 447);
    assert Avoids(0x88F5_BEF5_1AFF_0A77, 448);
    assert Avoids(0xCD58_0CD1_525B_41F4, 449);
  }

  lemma Orbit34()
    ensures Avoids(0xEB72_71F1_EEA3_CD2B, 440)
  {
    Orbit35();
    assert Avoids(0x14B2_69B0_C326_75DD, 431);
    assert Avoids(0x7B08_F300_D2D2_7BAA, 432);
    assert Avoids(0x0D00_3034_2A96_1606, 433);
    assert Avoids(0x1FEB_4025_1704_D42E, 434);
    assert Avoids(0xB006_9005_17A2_520A, 435);
    assert Avoids(0x273B_CA97_7DA4_4FD5, 436);
    assert Avoids(0x4283_C6DB_C97E_1B23, 437);
    assert Avoids(0xDCB7_7821_31B7_0971, 438);
    assert Avoids(0x0D7D_6CEC_9CCA_A071, 439);
  }

  lemma Orbit35()
    ensures Avoids(0xAB58_323A_796A_EE76, 430)
  {
    Orbit36();
    assert Avoids(0x3219_7C86_D131_AB40, 421);
    assert Avoids(0xECB1_C65A_0592_9468, 422);
    assert Avoids(0x21A7_A80B_CBB0_EAFD, 423);
    assert Avoids(0xDF6E_BF21_F5E6_8F23, 424);
    assert Avoids(0x1B40_A785_7FAB_A0E2, 425);
    assert Avoids(0xEE42_177C_B931_9246, 426);
    assert Avoids(0x9039_38D2_9005_4E5A, 427);
    assert Avoids(0xFBA1_4AEC_9764_DE66, 428);
    assert Avoids(0x2B9F_5637_C6B9_662A, 429);
  }

  lemma Orbit36()
    ensures Avoids(0x7669_FECF_95BD_1816, 420)
  {
    Orbit37();
    assert Avoids(0xC8D2_B09B_1E0F_165C, 411);
    assert Avoids(0x3362_84ED_7A78_611E, 412);
    assert Avoids(0x4E8C_A48B_5B88_BAAB, 413);
    assert Avoids(0x088D_A8B3_30C2_4765, 414);
    assert Avoids(0xB8A8_C118_11EF_2065, 415);
    assert Avoids(0xF204_67AF_3FEE_5917, 416);
    assert Avoids(0x2EE1_2576_34F3_4C4F, 417);
    assert Avoids(0x04EE_87F6_D702_B369, 418);
    assert Avoids(0x91E2_E1C5_899E_A7A6, 419);
  }

  lemma Orbit37()
    ensures Avoids(0x3E04_C286_77DD_1F70, 410)
  {
    Orbit38();
    assert Avoids(0x2DDA_81FB_3FC5_2326, 401);
    assert Avoids(0xF0A1_C9D4_6DAE_BA93, 402);
    assert Avoids(0x8634_38EC_9BF5_3823, 403);
    assert Avoids(0x16FA_7B45_8ADA_E62F, 404);
    assert Avoids(0xFEC8_2AEF_B8C0_88BE, 405);
    assert Avoids(0x5572_C462_07EC_8BE9, 406);
    assert Avoids(0xEF8B_9FFC_9FDC_0EF4, 407);
    assert Avoids(0x523C_5967_1C32_E43C, 408);
    assert Avoids(0xEFD2_FB53_DD07_794E, 409);
  }

  lemma Orbit38()
    ensures Avoids(0x2681_14E2_DD56_A0E0, 400)
  {
    Orbit39();
    assert Avoids(0xFBC1_66EE_F9BA_AB32, 391);
    assert Avoids(0xB3E9_DCF8_4010_DBC5, 392);
    assert Avoids(0x4064_ADE9_6928_3363, 393);
    assert Avoids(0x6B82_7E22_035C_FC5B, 394);
    assert Avoids(0x9D4F_2E9C_F051_30BA, 395);
    assert Avoids(0x081C_6FAD_862E_3C42, 396);
    assert Avoids(0xE0B6_6814_98DB_CD99, 397);
    assert Avoids(0x86B5_CF99_6CD3_498A, 398);
    assert Avoids(0xEFB8_4766_F21A_35A1, 399);
  }

  lemma Orbit39()
    ensures Avoids(0xD7E6_BFA0_BA4D_52E4, 390)
  {
    Orbit40();
    assert Avoids(0x85EE_FC70_52E8_10E0, 381);
    assert Avoids(0x8E39_F7B3_94CD_9D5A, 382);
    assert Avoids(0x850A_E002_F1F1_3138, 383);
    assert Avoids(0x959C_F408_4789_3654, 384);
    assert Avoids(0x9512_2DDE_E3BC_D372, 385);
    assert Avoids(0xA23B_C21C_AEE3_5191, 386);
    assert Avoids(0x2BE1_D622_24CA_FFEE, 387);
    assert Avoids(0xC081_555B_09E0_E6E3, 388);
    assert Avoids(0x1B63_09DB_20B3_F141, 389);
  }

  lemma Orbit40()
    ensures Avoids(0x3556_236A_FBD7_F8C1, 380)
  {
    Orbit41();
    assert Avoids(0x1EF1_28F8_D93D_1D5C, 371);
    assert Avoids(0xD990_C828_6293_A9CF, 372);
    assert Avoids(0x2215_77D0_1854_E28A, 373);
    assert Avoids(0xFD4A_247B_1D2B_E540, 374);
    assert Avoids(0x6C04_3611_8998_D8B1, 375);
    assert Avoids(0xAAFA_4790_86D1_5B86, 376);
    assert Avoids(0x1A1F_CBB9_F3C2_0BD1, 377);
    assert Avoids(0xF7E7_5997_8DF1_D7FE, 378);
    assert Avoids(0xE509_4364_AA26_4770, 379);
  }

  lemma Orbit41()
    ensures Avoids(0xE4E8_677F_A4AF_B066, 370)
  {
    Orbit42();
    assert Avoids(0x1D1D_EB21_E4DF_28BC, 361);
    assert Avoids(0x3D39_0603_A448_2576, 362);
    assert Avoids(0xB569_FE92_940A_E9E5, 363);
    assert Avoids(0x6C89_DB4B_59C7_CA31, 364);
    assert Avoids(0xCBD1_341E_8EAE_ADEA, 365);
    assert Avoids(0xD0D1_39C3_AD84_F4C3, 366);
    assert Avoids(0x335C_0B2E_4B64_572D, 367);
    assert Avoids(0x4B27_DDF9_6A57_436B, 368);
    assert Avoids(0xD04C_90C1_EB0A_3686, 369);
  }

  lemma Orbit42()
    ensures Avoids(0xE913_CF83_0611_39ED, 360)
  {
    Orbit43();
    assert Avoids(0x6BA6_F484_2AC0_08E9, 351);
    assert Avoids(0x7D30_9853_78EE_F582, 352);
    assert Avoids(0xB1BD_9C22_81E1_7AB7, 353);
    assert Avoids(0x0E6A_A8C9_D68C_945F, 354);
    assert Avoids(0xB188_BFB8_A21D_51FC, 355);
    assert Avoids(0xA0CB_41B0_3A7E_233A, 356);
    assert Avoids(0xE439_B0F2_35D6_C03A, 357);
    assert Avoids(0xA577_B434_6F82_92DF, 358);
    assert Avoids(0x41FD_2EC2_22D2_C0DE, 359);
  }

  lemma Orbit43()
    ensures Avoids(0x8E23_3A2A_B6FA_92B8, 350)
  {
    Orbit44();
    assert Avoids(0xD328_7B08_1C90_2829, 341);
    assert Avoids(0xD77E_0B16_8165_CEB4, 342);
    assert Avoids(0x91F9_0FE9_A492_7A40, 343);
    assert Avoids(0x710D_F78D_0774_8244, 344);
    assert Avoids(0x338D_1A4B_1670_FCFD, 345);
    assert Avoids(0xB5E0_6D01_46A0_1D07, 346);
    assert Avoids(0x8C40_8116_8F50_57A8, 347);
    assert Avoids(0xE5A7_5EBB_FF7B_B34E, 348);
    assert Avoids(0xA8EC_BEE5_9C5E_C99D, 349);
  }

  lemma Orbit44()
    ensures Avoids(0x0927_B127_69D4_2239, 340)
  {
    Orbit45();
    assert Avoids(0x379D_5345_94E5_C467, 331);
    assert Avoids(0x0F27_7AF7_16AA_7184, 332);
    assert Avoids(0x06D9_560F_B7ED_3362, 333);
    assert Avoids(0x61D4_734F_E065_BF1C, 334);
    assert Avoids(0xA9FA_B1C3_DD1C_1FE3, 335);
    assert Avoids(0xAC7F_6F49_BC7E_93C4, 336);
    assert Avoids(0x55EA_4730_38A7_57AB, 337);
    assert Avoids(0xDEAA_DF79_E36A_EF35, 338);
    assert Avoids(0x4BB6_F635_9E32_243D, 339);
  }

  lemma Orbit45()
    ensures Avoids(0x88FB_3679_726F_F62F, 330)
  {
    Orbit46();
    assert Avoids(0x3B46_9C2D_E274_F571, 321);
    assert Avoids(0x626A_1B74_FBE7_1A05, 322);
    assert Avoids(0x342A_FE55_D39A_8B92, 323);
    assert Avoids(0x338F_421D_6742_4D08, 324);
    assert Avoids(0xF05D_912E_C83B_31AB, 325);
    assert Avoids(0xA486_DE64_69B3_3607, 326);
    assert Avoids(0x5A52_A7A9_EC1D_E817, 327);
    assert Avoids(0xE188_2C77_F0E8_C847, 328);
    assert Avoids(0x0FE1_BB62_61B5_4203, 329);
  }

  lemma Orbit46()
    ensures Avoids(0xA555_D265_7B95_60DB, 320)
  {
    Orbit47();
    assert Avoids(0xB93D_4AC5_6DB0_EEF7, 311);
    assert Avoids(0xFBB0_BD25_FACD_9017, 312);
    assert Avoids(0xC921_141A_C307_6DCC, 313);
    assert Avoids(0x7C27_F250_644E_7C34, 314);
    assert Avoids(0xB632_FFFD_7A04_EF6A, 315);
    assert Avoids(0x76ED_6E85_1A11_84A3, 316);
    assert Avoids(0xF3E0_A4B8_1EE6_2023, 317);
    assert Avoids(0xBD03_E486_D80C_4063, 318);
    assert Avoids(0x80FC_BFAF_C195_1CDA, 319);
  }

  lemma Orbit47()
    ensures Avoids(0x493E_01A0_335A_D2EA, 310)
  {
    Orbit48();
    assert Avoids(0x96A9_362F_A9F4_B459, 301);
    assert Avoids(0x9193_7C1F_4CB4_F2BC, 302);
    assert Avoids(0x1846_BA34_AF6D_A4B5, 303);
    assert Avoids(0xB28A_3A87_C9DA_B71B, 304);
    assert Avoids(0xC87C_87D7_F3D0_7E27, 305);
    assert Avoids(0x2F96_BE64_96B7_EFF8, 306);
    assert Avoids(0xD12D_3C02_5028_BF06, 307);
    assert Avoids(0xCAA6_D9F4_48F5_9934, 308);
    assert Avoids(0xAF91_EC6F_C44B_9DCF, 309);
  }

  lemma Orbit48()
    ensures Avoids(0x8422_2095_CBE3_6B71, 300)
  {
    Orbit49();
    assert Avoids(0x8037_2394_1103_5013, 291);
    assert Avoids(0x28B9_59A0_1643_BD29, 292);
    assert Avoids(0xF596_F3F5_16A1_C767, 293);
    assert Avoids(0x1073_1AB4_9473_CE3B, 294);
    assert Avoids(0x3349_B275_B61E_9696, 295);
    assert Avoids(0x7B5A_0225_DA3C_2D8D, 296);
    assert Avoids(0xE384_C7D9_C27B_702D, 297);
    assert Avoids(0x9D1B_C31D_8302_D484, 298);
    assert Avoids(0x3004_135A_D60E_51E7, 299);
  }

  lemma Orbit49()
    ensures Avoids(0x3163_0D19_7711_3273, 290)
  {
    Orbit50();
    assert Avoids(0x950D_A904_D733_3679, 281);
    assert Avoids(0xF7D6_FC34_1272_E96B, 282);
    assert Avoids(0x3F39_9074_197B_7998, 283);
    assert Avoids(0xF412_1C0B_F16A_B37E, 284);
    assert Avoids(0xCF42_E1D9_0BF6_9E83, 285);
    assert Avoids(0xAB43_EEE2_EDE3_3023, 286);
    assert Avoids(0xC9A4_49BC_DD82_4873, 287);
    assert Avoids(0x4D91_1017_2452_9ECE, 288);
    assert Avoids(0x1718_EC47_7E53_ECD7, 289);
  }

  lemma Orbit50()
    ensures Avoids(0xF367_80BA_A835_EE55, 280)
  {
    Orbit51();
    assert Avoids(0x36AD_AE3C_C1F7_F448, 271);
    assert Avoids(0x53A4_EB95_DE32_824C, 272);
    assert Avoids(0x61DC_7136_D509_0248, 273);
    assert Avoids(0x5474_814F_4CD1_BDF3, 274);
    assert Avoids(0xC262_4A07_039E_E8A2, 275);
    assert Avoids(0xDB5E_331D_3C36_C930, 276);
    assert Avoids(0xF2F7_B605_BDB3_A3B7, 277);
    assert Avoids(0x9697_1FBC_E83B_2FE8, 278);
    assert Avoids(0x6B58_EFBE_0C46_B0C9, 279);
  }

  lemma Orbit51()
    ensures Avoids(0x46B0_946E_2840_09A0, 270)
  {
    Orbit52();
    assert Avoids(0x1FA3_E92F_DACC_920D, 261);
    assert Avoids(0x72BA_238D_0047_ABDA, 262);
    assert Avoids(0x7620_E4D8_FA2C_B82A, 263);
    assert Avoids(0x7047_38D3_937B_0724, 264);
    assert Avoids(0x5871_6DB7_00CE_03E3, 265);
    assert Avoids(0x0F7C_8BFF_7495_4121, 266);
    assert Avoids(0x4FEC_6DBD_E27F_8469, 267);
    assert Avoids(0xA384_EECF_6162_6CB0, 268);
    assert Avoids(0x031C_E189_2640_E1B3, 269);
  }

  lemma Orbit52()
    ensures Avoids(0x5EE6_566A_F4CE_2869, 260)
  {
    Orbit53();
    assert Avoids(0x092B_BF8F_D1DE_B1BA, 251);
    assert Avoids(0xA6B0_DAAE_52A8_B452, 252);
    assert Avoids(0x90B3_54CD_7C66_28C3, 253);
    assert Avoids(0x8CC8_1BF3_C1CB_CAD6, 254);
    assert Avoids(0x6FD4_2592_D288_0A42, 255);
    assert Avoids(0x87CD_DBA8_1C95_7FFD, 256);
    assert Avoids(0x8E79_9109_E93A_B94F, 257);
    assert Avoids(0x2CAF_7E89_23E2_9525, 258);
    assert Avoids(0x28C6_F1A3_CB52_8E79, 259);
  }

  lemma Orbit53()
    ensures Avoids(0x9C59_2EF3_2B54_2259, 250)
  {
    Orbit54();
    assert Avoids(0x74D6_56DB_0BB0_556D, 241);
    assert Avoids(0x41B8_EE48_CD45_6763, 242);
    assert Avoids(0x6B5F_CAF9_1331_764F, 243);
    assert Avoids(0x1230_9104_2446_112D, 244);
    assert Avoids(0x1F11_B848_A163_7703, 245);
    assert Avoids(0xAC27_F4BD_959E_32E6, 246);
    assert Avoids(0xE3E3_37E8_FD0C_FCDF, 247);
    assert Avoids(0xBCC1_183D_5EBC_7D65, 248);
    assert Avoids(0x32E9_7D8C_E4FB_3C5D, 249);
  }

  lemma Orbit54()
    ensures Avoids(0xE4F5_9BFD_C611_CE87, 240)
  {
    Orbit55();
    assert Avoids(0x141D_B2FD_C76B_CF0C, 231);
    assert Avoids(0x768B_1450_B276_BE70, 232);
    assert Avoids(0x1613_9553_7EDD_0FAF, 233);
    assert Avoids(0xC50B_F629_EF58_589E, 234);
    assert Avoids(0x0722_BA59_1C5F_3E62, 235);
    assert Avoids(0xD911_4868_5C07_6FFD, 236);
    assert Avoids(0x6E79_4603_DF54_705D, 237);
    assert Avoids(0x7C13_0F7E_790F_CF03, 238);
    assert Avoids(0x39D6_3704_D98A_ACDA, 239);
  }

  lemma Orbit55()
    ensures Avoids(0xBF0F_B1EA_28D3_5B92, 230)
  {
    Orbit56();
    assert Avoids(0xAE2B_B933_2C4D_CA87, 221);
    assert Avoids(0x4FD3_B718_EFCC_A3C0, 222);
    assert Avoids(0x02DC_187A_CBCB_26CD, 223);
    assert Avoids(0x21E8_5699_A428_D83D, 224);
    assert Avoids(0x00B6_E4F6_54B4_0A69, 225);
    assert Avoids(0xEB09_12CE_BBFC_CEF4, 226);
    assert Avoids(0xA5E7_9C60_ACA3_1946, 227);
    assert Avoids(0x1E3F_D36E_BAC2_4856, 228);
    assert Avoids(0x6B93_D755_106C_59A5, 229);
  }

  lemma Orbit56()
    ensures Avoids(0x56B8_076D_C193_10D2, 220)
  {
    Orbit57();
    assert Avoids(0x69B1_FDE3_DBEA_C7FF, 211);
    assert Avoids(0x8B4A_4742_B559_921B, 212);
    assert Avoids(0xD944_CDA2_49B7_8D41, 213);
    assert Avoids(0x2E69_0517_C937_C307, 214);
    assert Avoids(0x4CFA_A350_CA05_2F19, 215);
    assert Avoids(0x4F20_A89A_23EB_CB4F, 216);
    assert Avoids(0xF8B9_9777_DEF9_D22B, 217);
    assert Avoids(0x1431_4508_3D28_EE37, 218);
    assert Avoids(0x7EBB_2DBD_9828_4273, 219);
  }

  lemma Orbit57()
    ensures Avoids(0x6D86_E1B5_A573_0DB0, 210)
  {
    Orbit58();
    assert Avoids(0x6769_3E9E_AF72_855D, 201);
    assert Avoids(0x6017_63CE_5C8A_3BAA, 202);
    assert Avoids(0xFA97_93AB_11D0_C0EB, 203);
    assert Avoids(0x1A0C_377A_11B0_CD31, 204);
    assert Avoids(0x92D6_4E9B_208D_F317, 205);
    assert Avoids(0x440A_8A7E_1982_1CAE, 206);
    assert Avoids(0x1FA6_6C67_94C2_5D14, 207);
    assert Avoids(0x0E33_905E_8B7E_3864, 208);
    assert Avoids(0xDBB0_D328_FC1A_87AB, 209);
  }

  lemma Orbit58()
    ensures Avoids(0x7D77_A2EB_3008_9717, 200)
  {
    Orbit59();
    assert Avoids(0x95C2_896A_A751_710D, 191);
    assert Avoids(0x4AA6_CDD7_B2E7_085D, 192);
    assert Avoids(0xD934_0FC0_F47E_42D8, 193);
    assert Avoids(0xE6A7_3946_57EA_815A, 194);
    assert Avoids(0xD130_8F05_E4CC_4A4E, 195);
    assert Avoids(0x20C9_757E_BCF0_6E12, 196);
    assert Avoids(0xD0C4_C994_8F91_10F3, 197);
    assert Avoids(0x7274_4D92_A6D4_C6FE, 198);
    assert Avoids(0xAAFF_7C3C_B15D_A3F9, 199);
  }

  lemma Orbit59()
    ensures Avoids(0xC111_12FF_E93C_30AF, 190)
  {
    Orbit60();
    assert Avoids(0xFD15_442E_E492_3D84, 181);
    assert Avoids(0x2321_40BA_BC72_5024, 182);
    assert Avoids(0x4E24_E9FD_3D7C_21A7, 183);
    assert Avoids(0x8437_0F55_0C8F_DA92, 184);
    assert Avoids(0xA2DE_F0A8_DBEE_4314, 185);
    assert Avoids(0x3C98_433F_BB9B_FEA9, 186);
    assert Avoids(0x7D9E_E8F9_2E78_2727, 187);
    assert Avoids(0xB834_A6CA_ADC9_5788, 188);
    assert Avoids(0x0687_CDE8_D9EB_830E, 189);
  }

  lemma Orbit60()
    ensures Avoids(0x2620_0D44_2B9A_F8FF, 180)
  {
    Orbit61();
    assert Avoids(0xC3E9_E183_F996_AC11, 171);
    assert Avoids(0xF04B_BBCB_E57C_60D0, 172);
    assert Avoids(0x79B3_69BC_91C5_EA04, 173);
    assert Avoids(0x9D29_0D6F_34FC_83C3, 174);
    assert Avoids(0x6611_64C8_FD20_BC7B, 175);
    assert Avoids(0x09DD_83A5_F5D2_7B8C, 176);
    assert Avoids(0xB3ED_B2CA_E921_B2A9, 177);
    assert Avoids(0x6D5C_5930_3D04_816B, 178);
    assert Avoids(0x1589_ADFF_3FF0_12CE, 179);
  }

  lemma Orbit61()
    ensures Avoids(0xA53E_B115_045E_A509, 170)
  {
    Orbit62();
    assert Avoids(0xC02F_8678_1C1B_D5E8, 161);
    assert Avoids(0x8274_8D1E_53F9_36C5, 162);
    assert Avoids(0x2ED2_7CA0_0D11_B8B4, 163);
    assert Avoids(0x4C03_51DD_2329_7A40, 164);
    assert Avoids(0x3544_29C1_7A1D_4081, 165);
    assert Avoids(0x6BCF_031C_2F71_8284, 166);
    assert Avoids(0x5264_BFF6_E6FC_F3A3, 167);
    assert Avoids(0x39C8_97E2_165A_2A37, 168);
    assert Avoids(0x2081_F301_1958_7A03, 169);
  }

  lemma Orbit62()
    ensures Avoids(0xB960_6427_A0ED_9843, 160)
  {
    Orbit63();
    assert Avoids(0xD66F_DA10_2774_8265, 151);
    assert Avoids(0xE548_4138_1697_0629, 152);
    assert Avoids(0x38B9_A46D_C736_5F57, 153);
    assert Avoids(0x70B7_3CD1_8CB3_D63B, 154);
    assert Avoids(0x52DE_CE5C_CD48_30DA, 155);
    assert Avoids(0x5CD9_0DA2_04E6_ADC1, 156);
    assert Avoids(0x2310_CB5C_75E7_5DFA, 157);
    assert Avoids(0x78CF_A198_7DF7_F714, 158);
    assert Avoids(0x06BB_969E_00A4_33B3, 159);
  }

  lemma Orbit63()
    ensures Avoids(0x27F1_11EF_EE14_5221, 150)
  {
    Orbit64();
    assert Avoids(0x184F_92D3_63F3_8300, 141);
    assert Avoids(0xCCC3_3D94_3EA6_D4E9, 142);
    assert Avoids(0x407D_5C94_8386_E26D, 143);
    assert Avoids(0xEC08_4F22_28D8_EF73, 144);
    assert Avoids(0xDAFB_88DF_5A3C_EC6B, 145);
    assert Avoids(0xB9F3_C4FC_8AEA_5C13, 146);
    assert Avoids(0xD369_4D3B_812C_7FEC, 147);
    assert Avoids(0xAE88_E900_4088_E620, 148);
    assert Avoids(0xEE2D_08C4_9B12_D2C5, 149);
  }

  lemma Orbit64()
    ensures Avoids(0x4161_4639_01B8_A406, 140)
  {
    Orbit65();
    assert Avoids(0x441A_8E8E_0ACF_D226, 131);
    assert Avoids(0xF5A0_BB67_83C0_9300, 132);
    assert Avoids(0x83AC_BF4E_2AE5_5122, 133);
    assert Avoids(0x2697_C4F3_CC2D_4226, 134);
    assert Avoids(0x8888_3B15_D137_F856, 135);
    assert Avoids(0x7730_7863_C20D_3AE3, 136);
    assert Avoids(0xD8EC_043E_225B_F951, 137);
    assert Avoids(0x55C6_3CA9_FB1D_FB67, 138);
    assert Avoids(0x3CF1_38E6_208E_14CE, 139);
  }

  lemma Orbit65()
    ensures Avoids(0xA770_679C_576E_0402, 130)
  {
    Orbit66();
    assert Avoids(0x9765_D019_BCA3_938D, 121);
    assert Avoids(0xA46F_EB68_4E3C_506D, 122);
    assert Avoids(0xD218_D57C_6B45_616F, 123);
    assert Avoids(0x33C7_67A4_316C_5C17, 124);
    assert Avoids(0xD0F0_4632_F902_A8C6, 125);
    assert Avoids(0x5D65_11A5_2F10_4E9B, 126);
    assert Avoids(0x6496_9A7A_E0FC_C159, 127);
    assert Avoids(0xB493_63D7_715F_513B, 128);
    assert Avoids(0x7F82_0328_45D5_988A, 129);
  }

  lemma Orbit66()
    ensures Avoids(0x79B9_80DD_FA9B_97EA, 120)
  {
    Orbit67();
    assert Avoids(0x6357_88BB_3F31_ECD1, 111);
    assert Avoids(0x2FF6_3258_6DDA_6841, 112);
    assert Avoids(0x4977_B172_5366_99F2, 113);
    assert Avoids(0xC5F3_69DC_4342_5E8F, 114);
    assert Avoids(0x667C_44D8_F85D_0584, 115);
    assert Avoids(0x7F22_EFF7_AD8E_9126, 116);
    assert Avoids(0x2095_F37F_B82E_18D7, 117);
    assert Avoids(0xF8C8_CB0B_C093_D331, 118);
    assert Avoids(0xBED2_511D_A1FC_1A45, 119);
  }

  lemma Orbit67()
    ensures Avoids(0x4E63_1FDE_8E3E_9B48, 110)
  {
    Orbit68();
    assert Avoids(0xBDA3_F795_367C_4DED, 101);
    assert Avoids(0xD569_8594_FBC4_7445, 102);
    assert Avoids(0x72DF_0410_E954_76A8, 103);
    assert Avoids(0x6508_7998_1BAE_20A9, 104);
    assert Avoids(0x774C_5BE7_B6EC_C26D, 105);
    assert Avoids(0x782B_8319_6E77_9BDA, 106);
    assert Avoids(0x891C_81CF_DD2A_8F85, 107);
    assert Avoids(0x7D57_F287_C8F1_C996, 108);
    assert Avoids(0xD2C9_205F_0711_347E, 109);
  }

  lemma Orbit68()
    ensures Avoids(0x2527_E684_D6D2_6E36, 100)
  {
    Orbit69();
    assert Avoids(0x624D_6353_F2DA_1A36, 91);
    assert Avoids(0xBDF0_15E3_198B_DFC9, 92);
    assert Avoids(0xA2C5_6445_3089_F461, 93);
    assert Avoids(0x1D40_B1B4_48BE_BE5D, 94);
    assert Avoids(0x280C_3B41_56FA_F773, 95);
    assert Avoids(0x46BF_C9EC_305A_3559, 96);
    assert Avoids(0xA8F0_BA45_B30D_0E05, 97);
    assert Avoids(0xC20D_155D_E223_F0E4, 98);
    assert Avoids(0xFD08_DEE3_28F6_876A, 99);
  }

  lemma Orbit69()
    ensures Avoids(0x69DE_12CD_67FB_E382, 90)
  {
    Orbit70();
    assert Avoids(0x59F5_904C_DFF2_B6C7, 81);
    assert Avoids(0x7A16_5F5A_8F93_6145, 82);
    assert Avoids(0xAAEA_DE72_9011_E280, 83);
    assert Avoids(0x7389_8A23_2D6B_274E, 84);
    assert Avoids(0x1D6F_A57B_4974_089F, 85);
    assert Avoids(0xAACC_E082_61A2_AC07, 86);
    assert Avoids(0xC24A_7141_31A7_1D7D, 87);
    assert Avoids(0x3259_FFF6_B2F7_48EC, 88);
    assert Avoids(0xC84C_4E37_1636_B4C5, 89);
  }

  lemma Orbit70()
    ensures Avoids(0x0D60_2BD5_E8EC_026A, 80)
  {
    Orbit71();
    assert Avoids(0x954B_ED83_09FA_A1E2, 71);
    assert Avoids(0x88C7_75E7_D822_A832, 72);
    assert Avoids(0xF105_9C96_BB5E_4FED, 73);
    assert Avoids(0xF30D_4C0C_0051_4425, 74);
    assert Avoids(0xE0E5_5856_DB51_554F, 75);
    assert Avoids(0xD732_0B58_141E_92EA, 76);
    assert Avoids(0x5822_F43E_B5B4_A1E9, 77);
    assert Avoids(0x3ABA_9D6D_5F9C_A36F, 78);
    assert Avoids(0x4FC1_5305_F9AC_00EE, 79);
  }

  lemma Orbit71()
    ensures Avoids(0x1E60_315F_FD3F_6C21, 70)
  {
    Orbit72();
    assert Avoids(0xED22_C03C_0DD3_25F4, 61);
    assert Avoids(0x4179_A12A_A45D_0372, 62);
    assert Avoids(0x7E9F_B237_2613_71D1, 63);
    assert Avoids(0xC026_6050_0E37_32B4, 64);
    assert Avoids(0x1C6D_8673_BBFE_4230, 65);
    assert Avoids(0x0917_31D4_9EFD_B983, 66);
    assert Avoids(0x342F_4633_F305_C345, 67);
    assert Avoids(0x07BB_488D_8282_648C, 68);
    assert Avoids(0xAAB0_9851_95E8_3AB9, 69);
  }

  lemma Orbit72()
    ensures Avoids(0xA245_C07B_98C1_7EBF, 60)
  {
    Orbit73();
    assert Avoids(0x7496_2902_66D1_6431, 51);
    assert Avoids(0x4C5E_89D9_B619_6CE8, 52);
    assert Avoids(0xEC50_6AD1_40FD_9685, 53);
    assert Avoids(0x76C7_CFA8_D9FC_D46D, 54);
    assert Avoids(0xF126_E38B_0B5D_D8DC, 55);
    assert Avoids(0x4E34_9159_C25A_EC04, 56);
    assert Avoids(0x872C_1759_E795_5AF1, 57);
    assert Avoids(0xEE10_7C8E_62C4_EA65, 58);
    assert Avoids(0x5674_C6F4_177C_B382, 59);
  }

  lemma Orbit73()
    ensures Avoids(0xA2F2_FC94_2FB1_EAB9, 50)
  {
    Orbit74();
    assert Avoids(0xB959_7483_51E3_7CAC, 41);
    assert Avoids(0x4D4D_F0CB_E13C_8B3A, 42);
    assert Avoids(0x4489_AC9C_3496_F05A, 43);
    assert Avoids(0xB347_F735_8B07_AEC7, 44);
    assert Avoids(0x84BC_1DC2_7A0D_5935, 45);
    assert Avoids(0x425E_EE22_B2F4_179A, 46);
    assert Avoids(0x7A8C_9236_98B2_2656, 47);
    assert Avoids(0x95D4_DA87_474A_7A22, 48);
    assert Avoids(0x8FBB_1416_D89B_072C, 49);
  }

  lemma Orbit74()
    ensures Avoids(0x8FE2_0C96_62A0_1155, 40)
  {
    Orbit75();
    assert Avoids(0xB647_6E4C_B920_049C, 31);
    assert Avoids(0x6EAE_2A3F_BFC4_0D06, 32);
    assert Avoids(0xFEC2_9355_14C9_4BD1, 33);
    assert Avoids(0xD460_006A_7BBE_1D2B, 34);
    assert Avoids(0xB5B3_3816_C363_BF15, 35);
    assert Avoids(0x694A_CC99_EFF4_E2D0, 36);
    assert Avoids(0x6D21_A5C0_7534_957A, 37);
    assert Avoids(0x4CE0_AF8C_BDEC_02BF, 38);
    assert Avoids(0x8D6B_E9D4_AC25_A437, 39);
  }

  lemma Orbit75()
    ensures Avoids(0x920D_351B_AFEA_E395, 30)
  {
    Orbit76();
    assert Avoids(0x0302_14FA_69C8_A699, 21);
    assert Avoids(0xF50A_6B37_7982_996B, 22);
    assert Avoids(0x2011_71DE_C888_E3AC, 23);
    assert Avoids(0x27E6_D79C_9B53_CA38, 24);
    assert Avoids(0x8631_9859_27DB_637E, 25);
    assert Avoids(0x899D_DF3B_8397_82BB, 26);
    assert Avoids(0x0351_7B2E_050C_E6F6, 27);
    assert Avoids(0xFE11_498F_11BD_4174, 28);
    assert Avoids(0x0C09_6099_D85B_7312, 29);
  }

  lemma Orbit76()
    ensures Avoids(0x87FF_94B3_98C9_B194, 20)
  {
    Orbit77();
    assert Avoids(0x2016_2138_D1CF_EC71, 11);
    assert Avoids(0xBA0F_E29B_4765_0C29, 12);
    assert Avoids(0x8514_37B5_739D_0879, 13);
    assert Avoids(0x0473_1BFF_9A2C_6B6F, 14);
    assert Avoids(0xC57E_29D9_0E92_A6A2, 15);
    assert Avoids(0xA369_DE71_FE36_9DD9, 16);
    assert Avoids(0xD656_FEED_E896_9B2F, 17);
    assert Avoids(0x2953_CAE4_B91F_4BB8, 18);
    assert Avoids(0x1D48_C328_7448_C7F7, 19);
  }

  lemma Orbit77()
    ensures Avoids(0x5717_0545_B1CB_4FE9, 10)
  {
    assert Avoids(0xA31C_CA3E_EBFB_B2BA, 1);
    assert Avoids(0x13D8_F4ED_4BBF_823E, 2);
    assert Avoids(0x1D4E_CE5D_7FA3_12DB, 3);
    assert Avoids(0xC921_0A8C_8E6A_BE67, 4);
    assert Avoids(0x725B_26E6_371E_7243, 5);
    assert Avoids(0xC91D_C04B_4664_D227, 6);
    assert Avoids(0x67FD_3AE3_E381_3105, 7);
    assert Avoids(0x3081_25FB_0423_DAB0, 8);
    assert Avoids(0x2EE4_8F16_27EA_0336, 9);
  }

  /** The seed does not come back within 780 steps. */
  lemma SeedAvoided()
    ensures forall d :: 1 <= d <= 780 ==> Iterate(d) != SEED
  {
    Orbit0();
    assert Iterate(1) == 0xFE80_0D65_69FA_1B4D;
    AvoidsIterate(1, 780);
  }

  /** All 781 keys are pairwise distinct. */
  lemma KeysDistinct(i: nat, j: nat)
    requires i < j < KEY_COUNT
    ensures Key(i) != Key(j)
  {
    SeedAvoided();
    assert Iterate(j - i) != SEED;
    if Key(i) == Key(j) {
      IterateCancel(i + 1, j + 1);
    }
  }

  // Positions of the keys in drawing order.

  /** `pieces[color][kind][sq]` is drawn in that nesting order, first of all. */
  function PieceIndex(p: Piece, sq: nat): (k: nat)
    requires sq < 64
    ensures k < 768
    ensures k == p.color.Idx() * 384 + p.kind.Idx() * 64 + sq
  {
    p.color.Idx() * 384 + p.kind.Idx() * 64 + sq
  }

  const SIDE_INDEX: nat := 768

  function CastlingIndex(i: nat): nat { 769 + i }

  function EpIndex(file: nat): nat { 773 + file }

  /** What a key stands for: a piece on a square, Black to move, a castling right (0 = wk, 1 = wq, 2 = bk, 3 = bq), an en-passant file. */
  datatype Feature = PieceOn(piece: Piece, sq: nat) | BlackToMove | CastlingRight(right: nat) | EpFile(file: nat)
  {
    predicate InRange()
    {
      match this
      case PieceOn(_, sq) => sq < 64
      case BlackToMove => true
      case CastlingRight(i) => i < 4
      case EpFile(f) => f < 8
    }

    /** The drawing position of the feature's key. */
    function Index(): (k: nat)
      requires InRange()
      ensures k < KEY_COUNT
    {
      match this
      case PieceOn(p, sq) => PieceIndex(p, sq)
      case BlackToMove => SIDE_INDEX
      case CastlingRight(i) => CastlingIndex(i)
      case EpFile(f) => EpIndex(f)
    }
  }

  /** Different features have different drawing positions. */
  lemma IndexInjective(f: Feature, g: Feature)
    requires f.InRange() && g.InRange() && f.Index() == g.Index()
    ensures f == g
  {
    if f.PieceOn? && g.PieceOn? {
      var p, q := f.piece, g.piece;
      assert p.color.Idx() == q.color.Idx() && p.kind.Idx() == q.kind.Idx() && f.sq == g.sq;
      assert p.color == q.color;
      assert p.kind == q.kind;
    }
  }

  /** The first n entries of the piece table, in drawing order, hold the first n keys. */
  ghost predicate PiecesUpTo(p: array3<bv64>, n: nat)
    reads p
  {
    && p.Length0 == 2 && p.Length1 == 6 && p.Length2 == 64
    && forall c, k, sq :: 0 <= c < 2 && 0 <= k < 6 && 0 <= sq < 64 && c * 384 + k * 64 + sq < n ==> p[c, k, sq] == Key(c * 384 + k * 64 + sq)
  }

  /** The outer two loops of the piece-table fill: every colour, every kind. */
  method PieceTable() returns (p: array3<bv64>, state: bv64)
    ensures fresh(p) && PiecesUpTo(p, 768) && state == Iterate(768)
  {
    state := SEED;
    p := new bv64[2, 6, 64];
    var color := 0;
    while color < 2
      invariant 0 <= color <= 2
      invariant state == Iterate(color * 384) && PiecesUpTo(p, color * 384)
    {
      var piece := 0;
      while piece < 6
        invariant 0 <= piece <= 6
        invariant state == Iterate(color * 384 + piece * 64) && PiecesUpTo(p, color * 384 + piece * 64)
      {
        state := FillSquares(p, color, piece, state);
        piece := piece + 1;
      }
      color := color + 1;
    }
  }

  /** The innermost loop: the 64 keys of one colour and kind, one generator step each. */
  method FillSquares(p: array3<bv64>, color: nat, piece: nat, state0: bv64) returns (state: bv64)
    requires color < 2 && piece < 6
    requires state0 == Iterate(color * 384 + piece * 64) && PiecesUpTo(p, color * 384 + piece * 64)
    modifies p
    ensures state == Iterate(color * 384 + piece * 64 + 64) && PiecesUpTo(p, color * 384 + piece * 64 + 64)
  {
    ghost var base := color * 384 + piece * 64;
    state := state0;
    var sq := 0;
    while sq < 64
      invariant 0 <= sq <= 64
      invariant state == Iterate(base + sq) && PiecesUpTo(p, base)
      invariant forall s :: 0 <= s < sq ==> p[color, piece, s] == Key(base + s)
    {
      state := Xorshift(state);
      p[color, piece, sq] := state;
      sq := sq + 1;
    }
    PiecesExtend(p, color, piece);
  }

  /** A full row of 64 keys after the first `base` extends the filled prefix by 64. */
  lemma PiecesExtend(p: array3<bv64>, color: nat, piece: nat)
    requires color < 2 && piece < 6 && PiecesUpTo(p, color * 384 + piece * 64)
    requires forall s :: 0 <= s < 64 ==> p[color, piece, s] == Key(color * 384 + piece * 64 + s)
    ensures PiecesUpTo(p, color * 384 + piece * 64 + 64)
  {
    forall c, k, s | 0 <= c < 2 && 0 <= k < 6 && 0 <= s < 64 && c * 384 + k * 64 + s < color * 384 + piece * 64 + 64
      ensures p[c, k, s] == Key(c * 384 + k * 64 + s)
    {
      if c * 384 + k * 64 + s >= color * 384 + piece * 64 {
        assert c == color && k == piece;
      }
    }
  }

  /** The castling keys follow the side-to-move key. */
  method CastlingTable(state0: bv64) returns (cr: array<bv64>, state: bv64)
    requires state0 == Iterate(SIDE_INDEX + 1)
    ensures fresh(cr) && cr.Length == 4 && state == Iterate(CastlingIndex(4))
    ensures forall j :: 0 <= j < 4 ==> cr[j] == Key(CastlingIndex(j))
  {
    state := state0;
    cr := new bv64[4];
    var i := 0;
    while i < 4
      invariant 0 <= i <= 4 && state == Iterate(CastlingIndex(i))
      invariant forall j :: 0 <= j < i ==> cr[j] == Key(CastlingIndex(j))
    {
      state := Xorshift(state);
      cr[i] := state;
      i := i + 1;
    }
  }

  /** The en-passant keys come last. */
  method EpTable(state0: bv64) returns (ep: array<bv64>, state: bv64)
    requires state0 == Iterate(EpIndex(0))
    ensures fresh(ep) && ep.Length == 8 && state == Iterate(EpIndex(8))
    ensures forall j :: 0 <= j < 8 ==> ep[j] == Key(EpIndex(j))
  {
    state := state0;
    ep := new bv64[8];
    var i := 0;
    while i < 8
      invariant 0 <= i <= 8 && state == Iterate(EpIndex(i))
      invariant forall j :: 0 <= j < i ==> ep[j] == Key(EpIndex(j))
    {
      state := Xorshift(state);
      ep[i] := state;
      i := i + 1;
    }
  }

  /** The four tables hold the 781 keys: pieces first, then the side to move, the castling rights and the en-passant files. */
  ghost predicate TablesHold(pieces: array3<bv64>, sideToMove: bv64, castling: array<bv64>, enPassant: array<bv64>)
    reads pieces, castling, enPassant
  {
    && PiecesUpTo(pieces, 768)
    && sideToMove == Key(SIDE_INDEX)
    && castling.Length == 4 && enPassant.Length == 8
    && (forall i :: 0 <= i < 4 ==> castling[i] == Key(CastlingIndex(i)))
    && (forall f :: 0 <= f < 8 ==> enPassant[f] == Key(EpIndex(f)))
  }

  /** The body of `ZobristKeys::new`: one generator step per key, in drawing order. */
  method Tables() returns (pieces: array3<bv64>, sideToMove: bv64, castling: array<bv64>, enPassant: array<bv64>)
    ensures fresh(pieces) && fresh(castling) && fresh(enPassant)
    ensures TablesHold(pieces, sideToMove, castling, enPassant)
  {
    var state;
    pieces, state := PieceTable();
    state := Xorshift(state);
    sideToMove := state;
    castling, state := CastlingTable(state);
    enPassant, state := EpTable(state);
  }

  /** The tables of keys. They are filled once, by the constructor, and only read afterwards. */
  class ZobristKeys {
    /** Indexed by colour, kind and square. */
    const pieces: array3<bv64>
    /** Xored in when Black is to move. */
    const sideToMove: bv64
    /** Indexed by right: wk, wq, bk, bq. */
    const castling: array<bv64>
    /** Indexed by file. */
    const enPassant: array<bv64>

    /** Each table has its declared shape and holds the keys in drawing order. */
    ghost predicate Valid()
      reads this, pieces, castling, enPassant
    {
      TablesHold(pieces, sideToMove, castling, enPassant)
    }

    /** `ZobristKeys::new`: step the generator from the seed and store each state in turn. */
    constructor ()
      ensures Valid()
      ensures fresh(pieces) && fresh(castling) && fresh(enPassant)
    {
      var p, side, cr, ep := Tables();
      pieces, sideToMove, castling, enPassant := p, side, cr, ep;
    }

    /** `piece_key`: the key of a piece on a square. */
    function PieceKey(piece: Piece, sq: nat): (r: bv64)
      requires Valid() && sq < 64
      reads this, pieces, castling, enPassant
      ensures r == Key(PieceIndex(piece, sq))
    {
      pieces[piece.color.Idx(), piece.kind.Idx(), sq]
    }

    /** `castling_key`: the key of castling right `index`. */
    function CastlingKey(index: nat): (r: bv64)
      requires Valid() && index < 4
      reads this, pieces, castling, enPassant
      ensures r == Key(CastlingIndex(index))
    {
      castling[index]
    }

    /** `ep_key`: the key of an en-passant file. */
    function EpKey(file: nat): (r: bv64)
      requires Valid() && file < 8
      reads this, pieces, castling, enPassant
      ensures r == Key(EpIndex(file))
    {
      enPassant[file]
    }

    /** The key that stands for a feature, read from the tables. */
    function KeyOf(f: Feature): (r: bv64)
      requires Valid() && f.InRange()
      reads this, pieces, castling, enPassant
      ensures r == Key(f.Index())
    {
      match f
      case PieceOn(p, sq) => PieceKey(p, sq)
      case BlackToMove => sideToMove
      case CastlingRight(i) => CastlingKey(i)
      case EpFile(file) => EpKey(file)
    }
  }

  /** No two features share a key: all 781 stored values are pairwise distinct. */
  lemma KeysUnique(z: ZobristKeys, f: Feature, g: Feature)
    requires z.Valid() && f.InRange() && g.InRange() && f != g
    ensures z.KeyOf(f) != z.KeyOf(g)
  {
    var i, j := f.Index(), g.Index();
    if i == j {
      IndexInjective(f, g);
    } else if i < j {
      KeysDistinct(i, j);
    } else {
      KeysDistinct(j, i);
    }
  }

  /** A White pawn has different keys on squares 0 and 1. */
  lemma PawnKeysDiffer(z: ZobristKeys)
    requires z.Valid()
    ensures z.PieceKey(Piece(White, Pawn), 0) != z.PieceKey(Piece(White, Pawn), 1)
  {
    KeysUnique(z, PieceOn(Piece(White, Pawn), 0), PieceOn(Piece(White, Pawn), 1));
  }
}
