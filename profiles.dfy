/**
 * The frequency plans: for each target clock, the PLL A feedback divider
 * a + b/c, the Multisynth 0 integer divider d, the VCO and output
 * frequencies the plan documents, and the sixteen register bytes the program
 * writes for it. One plan is compiled in; the others sit beside it as
 * disabled blocks and are chosen by swapping which block is live.
 */
module Profiles {
  import opened Registers
  import opened AN619

  /** The crystal on the PLL input, in Hz. */
  const InputHz := 25_000_000

  datatype Profile = Profile(
    name: string,
    a: int, b: int, c: int,   // feedback divider a + b/c
    vcoHz: int,               // documented VCO frequency
    d: int,                   // Multisynth 0 divider (R divider 1)
    outputMilliHz: int,       // documented output frequency, in mHz
    pllA: Block,              // bytes for registers 26..33
    ms0: Block)               // bytes for registers 42..49

  const TestTenMHz := Profile("Test 10 MHz", 32, 0, 1, 800_000_000, 80, 10_000_000_000,
    [0x00, 0x01, 0x00, 0x0e, 0x00, 0x00, 0x00, 0x00], [0x00, 0x01, 0x00, 0x26, 0x00, 0x00, 0x00, 0x00])

  const PalXlXe1773447 := Profile("Atari XL/XE PAL 1.773447 MHz", 27, 237381, 250000, 698_738_100, 394, 1_773_447_000,
    [0xd0, 0x90, 0x00, 0x0b, 0xf9, 0x32, 0x0e, 0x70], [0x00, 0x01, 0x00, 0xc3, 0x00, 0x00, 0x00, 0x00])

  const PalXlXe3546894 := Profile("Atari XL/XE PAL 3.546894 MHz", 28, 457, 5000, 702_285_000, 198, 3_546_894_000,
    [0x13, 0x88, 0x00, 0x0c, 0x0b, 0x00, 0x0d, 0xa8], [0x00, 0x01, 0x00, 0x61, 0x00, 0x00, 0x00, 0x00])

  const PalXlXe14187576 := Profile("Atari XL/XE PAL 14.187576 MHz", 28, 23447, 62500, 709_378_800, 50, 14_187_576_000,
    [0xf4, 0x24, 0x00, 0x0c, 0x30, 0x00, 0x04, 0xc0], [0x00, 0x01, 0x00, 0x17, 0x00, 0x00, 0x00, 0x00])

  const Ntsc400800_17897875 := Profile("Atari 400/800 NTSC 1.7897875 MHz", 27, 184137, 200000, 698_017_125, 390, 1_789_787_500,
    [0x0d, 0x40, 0x00, 0x0b, 0xf5, 0x32, 0x96, 0x40], [0x00, 0x01, 0x00, 0xc1, 0x00, 0x00, 0x00, 0x00])

  const Ntsc400800_3579575 := Profile("Atari 400/800 NTSC 3.579575 MHz", 28, 15967, 250000, 701_596_700, 196, 3_579_575_000,
    [0xd0, 0x90, 0x00, 0x0c, 0x08, 0x30, 0xab, 0x00], [0x00, 0x01, 0x00, 0x60, 0x00, 0x00, 0x00, 0x00])

  const NtscXlXe17897725 := Profile("Atari XL/XE NTSC 1.7897725 MHz", 27, 920451, 1000000, 698_011_275, 390, 1_789_772_500,
    [0x42, 0x40, 0x00, 0x0b, 0xf5, 0xfc, 0x7a, 0x40], [0x00, 0x01, 0x00, 0xc1, 0x00, 0x00, 0x00, 0x00])

  const NtscXlXe3579545 := Profile("Atari XL/XE NTSC 3.579545 MHz", 28, 3977, 62500, 701_590_800, 196, 3_579_545_000,
    [0xf4, 0x24, 0x00, 0x0c, 0x08, 0x00, 0x23, 0x60], [0x00, 0x01, 0x00, 0x60, 0x00, 0x00, 0x00, 0x00])

  const NtscXlXe14318180 := Profile("Atari XL/XE NTSC 14.31818 MHz", 27, 38352, 78125, 687_272_640, 48, 14_318_180_000,
    [0x31, 0x2d, 0x00, 0x0b, 0xbe, 0x10, 0xff, 0x1a], [0x00, 0x01, 0x00, 0x16, 0x00, 0x00, 0x00, 0x00])

  const PalCrystal4433618 := Profile("Atari PAL crystal 4.433618 MHz", 28, 12791, 625000, 700_511_640, 158, 4_433_618_000,
    [0x89, 0x68, 0x00, 0x0c, 0x02, 0x95, 0xe8, 0xb0], [0x00, 0x01, 0x00, 0x4d, 0x00, 0x00, 0x00, 0x00])

  const Xf551Crystal8333300 := Profile("Atari XF551 crystal 8.3333 MHz", 28, 83319, 125000, 716_663_800, 86, 8_333_300_000,
    [0xe8, 0x48, 0x00, 0x0c, 0x55, 0x10, 0x9b, 0x98], [0x00, 0x01, 0x00, 0x29, 0x00, 0x00, 0x00, 0x00])

  /** The plan whose writes are live in the program. */
  const Active := PalXlXe1773447

  /** The 10 MHz test plan followed by the ten Atari plans. */
  const Table: seq<Profile> := [
    TestTenMHz, PalXlXe1773447, PalXlXe3546894, PalXlXe14187576, Ntsc400800_17897875,
    Ntsc400800_3579575, NtscXlXe17897725, NtscXlXe3579545, NtscXlXe14318180,
    PalCrystal4433618, Xf551Crystal8333300]

  /**
   * AN619's operating ranges: feedback divider 15 + 0/c .. 90 with a 20-bit
   * denominator, VCO between 600 and 900 MHz, and an even output divider
   * between 8 and 2048 (an even integer divider is what lets CLK0 run its
   * Multisynth in integer mode).
   */
  predicate WithinChipLimits(p: Profile) {
    && 15 <= p.a <= 90 && 0 <= p.b < p.c <= 1_048_575
    && 600_000_000 <= p.vcoHz <= 900_000_000
    && 8 <= p.d <= 2048 && p.d % 2 == 0
  }

  /**
   * The documented frequencies follow from the dividers: 25 MHz * (a + b/c)
   * is exactly the VCO frequency in whole Hz, and VCO / d is within 1 Hz of
   * the documented output frequency.
   */
  predicate FrequenciesAgree(p: Profile) {
    && p.c > 0
    && InputHz * (p.a * p.c + p.b) == p.vcoHz * p.c
    && -1000 * p.d < 1000 * p.vcoHz - p.d * p.outputMilliHz < 1000 * p.d
  }

  /** The register bytes are AN619's packing of the documented dividers. */
  predicate BytesEncodeDividers(p: Profile) {
    && p.c > 0 && Fits(MultisynthParams(p.a, p.b, p.c)) && Fits(OutputParams(p.d))
    && p.pllA == FeedbackBlock(p.a, p.b, p.c) && p.ms0 == OutputBlock(p.d)
  }

  /**
   * The bytes encode the dividers when they are the packing of the three
   * parameters computed with f = floor(128b/c); f is supplied and checked by
   * its defining inequalities c*f <= 128b < c*(f+1).
   */
  lemma EncodedWith(p: Profile, f: int)
    requires WithinChipLimits(p)
    requires p.c * f <= 128 * p.b < p.c * f + p.c
    requires Fits(Params(128 * p.a + f - 512, 128 * p.b - p.c * f, p.c))
    requires p.pllA == Pack(Params(128 * p.a + f - 512, 128 * p.b - p.c * f, p.c), 0)
    requires p.ms0 == Pack(Params(128 * p.d - 512, 0, 1), 0)
    ensures BytesEncodeDividers(p)
  {
    FloorByBounds(128 * p.b, p.c, f);
    var fb := MultisynthParams(p.a, p.b, p.c);
    assert fb == Params(128 * p.a + f - 512, 128 * p.b - p.c * f, p.c);
    assert p.pllA == FeedbackBlock(p.a, p.b, p.c);
    OutputParamsInteger(p.d);
    assert p.ms0 == OutputBlock(p.d);
  }

  lemma TestTenMHzBytes(p: Profile)
    requires p == TestTenMHz
    ensures BytesEncodeDividers(p)
  {
    EncodedWith(p, 0);
  }

  lemma PalXlXe1773447Bytes(p: Profile)
    requires p == PalXlXe1773447
    ensures BytesEncodeDividers(p)
  {
    EncodedWith(p, 121);
  }

  lemma PalXlXe3546894Bytes(p: Profile)
    requires p == PalXlXe3546894
    ensures BytesEncodeDividers(p)
  {
    EncodedWith(p, 11);
  }

  lemma PalXlXe14187576Bytes(p: Profile)
    requires p == PalXlXe14187576
    ensures BytesEncodeDividers(p)
  {
    EncodedWith(p, 48);
  }

  lemma Ntsc400800_17897875Bytes(p: Profile)
    requires p == Ntsc400800_17897875
    ensures BytesEncodeDividers(p)
  {
    EncodedWith(p, 117);
  }

  lemma Ntsc400800_3579575Bytes(p: Profile)
    requires p == Ntsc400800_3579575
    ensures BytesEncodeDividers(p)
  {
    EncodedWith(p, 8);
  }

  lemma NtscXlXe17897725Bytes(p: Profile)
    requires p == NtscXlXe17897725
    ensures BytesEncodeDividers(p)
  {
    EncodedWith(p, 117);
  }

  lemma NtscXlXe3579545Bytes(p: Profile)
    requires p == NtscXlXe3579545
    ensures BytesEncodeDividers(p)
  {
    EncodedWith(p, 8);
  }

  lemma NtscXlXe14318180Bytes(p: Profile)
    requires p == NtscXlXe14318180
    ensures BytesEncodeDividers(p)
  {
    EncodedWith(p, 62);
  }

  lemma PalCrystal4433618Bytes(p: Profile)
    requires p == PalCrystal4433618
    ensures BytesEncodeDividers(p)
  {
    EncodedWith(p, 2);
  }

  lemma Xf551Crystal8333300Bytes(p: Profile)
    requires p == Xf551Crystal8333300
    ensures BytesEncodeDividers(p)
  {
    EncodedWith(p, 85);
  }

  /** Every plan in the table respects the chip's limits and documents frequencies its dividers produce. */
  lemma TableFrequencies()
    ensures forall i :: 0 <= i < |Table| ==> WithinChipLimits(Table[i]) && FrequenciesAgree(Table[i])
  {
  }

  /** Every plan's sixteen bytes are AN619's packing of its documented dividers. */
  lemma TableBytesEncodeDividers()
    ensures forall i :: 0 <= i < |Table| ==> BytesEncodeDividers(Table[i])
  {
    forall i | 0 <= i < |Table|
      ensures BytesEncodeDividers(Table[i])
    {
      if i == 0 {
        TestTenMHzBytes(Table[i]);
      } else if i == 1 {
        PalXlXe1773447Bytes(Table[i]);
      } else if i == 2 {
        PalXlXe3546894Bytes(Table[i]);
      } else if i == 3 {
        PalXlXe14187576Bytes(Table[i]);
      } else if i == 4 {
        Ntsc400800_17897875Bytes(Table[i]);
      } else if i == 5 {
        Ntsc400800_3579575Bytes(Table[i]);
      } else if i == 6 {
        NtscXlXe17897725Bytes(Table[i]);
      } else if i == 7 {
        NtscXlXe3579545Bytes(Table[i]);
      } else if i == 8 {
        NtscXlXe14318180Bytes(Table[i]);
      } else if i == 9 {
        PalCrystal4433618Bytes(Table[i]);
      } else {
        Xf551Crystal8333300Bytes(Table[i]);
      }
    }
  }

  /**
   * Read back as the chip reads them, a plan's bytes give the feedback
   * parameters for a + b/c with the reserved bits clear, and the output
   * parameters for the integer divider d with R divider 1 and DIVBY4 off.
   */
  lemma DecodedDividers(p: Profile)
    requires BytesEncodeDividers(p)
    ensures Unpack(p.pllA) == (MultisynthParams(p.a, p.b, p.c), 0)
    ensures Unpack(p.ms0) == (OutputParams(p.d), OutputUpperBits)
    ensures var fb := Unpack(p.pllA).0;
      fb.p3 == p.c && Ratio(fb).0 * p.c == (p.a * p.c + p.b) * Ratio(fb).1
    ensures var ms := Unpack(p.ms0).0;
      Ratio(ms).0 == p.d * Ratio(ms).1
  {
    UnpackPack(MultisynthParams(p.a, p.b, p.c), 0);
    UnpackPack(OutputParams(p.d), OutputUpperBits);
    MultisynthRatio(p.a, p.b, p.c);
    MultisynthRatio(p.d, 0, 1);
  }

  /**
   * A feedback divider a + b/c that turns the 25 MHz input into vcoHz has
   * parameters whose ratio does the same.
   */
  lemma VcoFromParams(a: int, b: int, c: int, vcoHz: int)
    requires c > 0 && InputHz * (a * c + b) == vcoHz * c
    ensures var (num, den) := Ratio(MultisynthParams(a, b, c));
      InputHz * num == vcoHz * den
  {
    MultisynthRatio(a, b, c);
    var (num, den) := Ratio(MultisynthParams(a, b, c));
    var m := a * c + b;
    calc {
      (InputHz * num) * c;
      InputHz * (m * den);
      (InputHz * m) * den;
      (vcoHz * den) * c;
    }
    CancelPositive(InputHz * num, vcoHz * den, c);
  }

  /**
   * The PLL A ratio the bytes encode turns the 25 MHz input into exactly
   * the documented VCO frequency.
   */
  lemma DecodedVco(p: Profile)
    requires BytesEncodeDividers(p) && FrequenciesAgree(p)
    ensures var (num, den) := Ratio(Unpack(p.pllA).0);
      InputHz * num == p.vcoHz * den
  {
    DecodedDividers(p);
    VcoFromParams(p.a, p.b, p.c, p.vcoHz);
  }

  /** The documented VCO frequency over the Multisynth 0 ratio in the bytes is within 1 Hz of the documented output. */
  predicate OutputWithinOneHz(p: Profile) {
    var (num, den) := Ratio(Unpack(p.ms0).0);
    -1000 * num < 1000 * p.vcoHz * den - num * p.outputMilliHz < 1000 * num
  }

  /**
   * An integer output divider d that brings vcoHz to within 1 Hz of the
   * output frequency has parameters whose ratio does the same.
   */
  lemma OutputFromParams(d: int, vcoHz: int, outputMilliHz: int)
    requires -1000 * d < 1000 * vcoHz - d * outputMilliHz < 1000 * d
    ensures var (num, den) := Ratio(OutputParams(d));
      -1000 * num < 1000 * vcoHz * den - num * outputMilliHz < 1000 * num
  {
    var (num, den) := Ratio(OutputParams(d));
    assert num == 128 * d && den == 128;
    var e := 1000 * vcoHz - d * outputMilliHz;
    assert 1000 * vcoHz * den - num * outputMilliHz == 128 * e;
  }

  /**
   * The Multisynth 0 ratio the bytes encode divides the documented VCO
   * frequency to within 1 Hz of the documented output frequency.
   */
  lemma DecodedOutput(p: Profile)
    requires BytesEncodeDividers(p) && FrequenciesAgree(p)
    ensures OutputWithinOneHz(p)
  {
    UnpackPack(OutputParams(p.d), OutputUpperBits);
    OutputFromParams(p.d, p.vcoHz, p.outputMilliHz);
  }

  lemma CancelPositive(x: int, y: int, c: int)
    requires c > 0 && x * c == y * c
    ensures x == y
  {
  }

  /** Every plan in the table decodes to its documented dividers and frequencies. */
  lemma TableDecodes()
    ensures forall i :: 0 <= i < |Table| ==>
      Unpack(Table[i].pllA) == (MultisynthParams(Table[i].a, Table[i].b, Table[i].c), 0)
      && Unpack(Table[i].ms0) == (OutputParams(Table[i].d), OutputUpperBits)
      && InputHz * Ratio(Unpack(Table[i].pllA).0).0 == Table[i].vcoHz * Ratio(Unpack(Table[i].pllA).0).1
      && OutputWithinOneHz(Table[i])
  {
    TableFrequencies();
    TableBytesEncodeDividers();
    forall i | 0 <= i < |Table|
      ensures Unpack(Table[i].pllA) == (MultisynthParams(Table[i].a, Table[i].b, Table[i].c), 0)
      ensures Unpack(Table[i].ms0) == (OutputParams(Table[i].d), OutputUpperBits)
      ensures InputHz * Ratio(Unpack(Table[i].pllA).0).0 == Table[i].vcoHz * Ratio(Unpack(Table[i].pllA).0).1
      ensures OutputWithinOneHz(Table[i])
    {
      DecodedDividers(Table[i]);
      DecodedVco(Table[i]);
      DecodedOutput(Table[i]);
    }
  }
}
