/**
 * The Si5351 divider parameters and their register packing, as Silicon Labs
 * application note AN619 defines them: the P1/P2/P3 equations of section 3.2
 * (feedback Multisynth NA, registers 26..33) and section 4.1.2 (output
 * Multisynth 0, registers 42..49), and the layout of the eight parameter
 * bytes, which is the same for both blocks.
 */
module AN619 {
  import opened Registers

  /** The eight bytes of one parameter block, in register order. */
  type Block = s: seq<Byte> | |s| == 8 witness [0, 0, 0, 0, 0, 0, 0, 0]

  /** The three Multisynth parameters: P1 is 18 bits wide, P2 and P3 are 20 bits wide. */
  datatype Params = Params(p1: int, p2: int, p3: int)

  const P1Limit := 0x4_0000
  const P23Limit := 0x10_0000

  predicate Fits(p: Params) {
    0 <= p.p1 < P1Limit && 0 <= p.p2 < P23Limit && 0 <= p.p3 < P23Limit
  }

  /**
   * The Multisynth equations for the divider a + b/c (AN619 sections 3.2 and
   * 4.1.2 use the same three):
   *   P1 = 128a + floor(128b/c) - 512,  P2 = 128b - c * floor(128b/c),  P3 = c.
   */
  function MultisynthParams(a: int, b: int, c: int): (p: Params)
    requires c > 0
    ensures p.p3 == c && 0 <= p.p2 < c
  {
    var f := 128 * b / c;
    Params(128 * a + f - 512, 128 * b - c * f, c)
  }

  /** An integer output divider d is the divider d + 0/1: no fractional part, and its ratio is d. */
  function OutputParams(d: int): (p: Params)
    ensures p.p2 == 0 && p.p3 == 1
    ensures Ratio(p).0 == d * Ratio(p).1
  {
    MultisynthParams(d, 0, 1)
  }

  /** The ratio a set of parameters stands for, as the fraction num / den. */
  function Ratio(p: Params): (r: (int, int)) {
    ((p.p1 + 512) * p.p3 + p.p2, 128 * p.p3)
  }

  /**
   * Packs the parameters into registers base..base+7. `upper` is bits 7:2 of
   * the third register: zero (reserved) for a PLL; R divider code (bits 4:2)
   * and DIVBY4 (bits 1:0) for an output Multisynth.
   */
  function Pack(p: Params, upper: int): (blk: Block)
    requires Fits(p) && 0 <= upper < 64
    ensures blk[2] / 4 == upper && blk[2] % 4 == p.p1 / 0x1_0000
    ensures blk[1] == p.p3 % 256 && blk[4] == p.p1 % 256 && blk[7] == p.p2 % 256
  {
    [p.p3 / 256 % 256, p.p3 % 256,
     4 * upper + p.p1 / 0x1_0000, p.p1 / 256 % 256, p.p1 % 256,
     16 * (p.p3 / 0x1_0000) + p.p2 / 0x1_0000, p.p2 / 256 % 256, p.p2 % 256]
  }

  /** Reads the parameters and the upper bits of the third register back out of a block. */
  function Unpack(blk: Block): (r: (Params, int))
    ensures Fits(r.0) && 0 <= r.1 < 64
  {
    var b: seq<int> := blk;
    (Params(0x1_0000 * (b[2] % 4) + 256 * b[3] + b[4],
            0x1_0000 * (b[5] % 16) + 256 * b[6] + b[7],
            0x1_0000 * (b[5] / 16) + 256 * b[0] + b[1]),
     b[2] / 4)
  }

  /** R divider 1 is R code 0; DIVBY4 is off. */
  const OutputUpperBits := 0

  /** The PLL A block for the feedback divider a + b/c. */
  function FeedbackBlock(a: int, b: int, c: int): (blk: Block)
    requires c > 0 && Fits(MultisynthParams(a, b, c))
  {
    Pack(MultisynthParams(a, b, c), 0)
  }

  /** The Multisynth 0 block for the integer divider d with R = 1. */
  function OutputBlock(d: int): (blk: Block)
    requires Fits(OutputParams(d))
  {
    Pack(OutputParams(d), OutputUpperBits)
  }

  lemma SplitTwenty(x: int)
    requires 0 <= x < P23Limit
    ensures x == 0x1_0000 * (x / 0x1_0000) + 256 * (x / 256 % 256) + x % 256
    ensures x / 0x1_0000 < 16
  {
    var hi := x / 256;
    assert x == 256 * hi + x % 256;
    assert hi == 256 * (hi / 256) + hi % 256;
    assert hi / 256 == x / 0x1_0000;
  }

  /** Unpacking a packed block gives back the parameters and the upper bits. */
  lemma UnpackPack(p: Params, upper: int)
    requires Fits(p) && 0 <= upper < 64
    ensures Unpack(Pack(p, upper)) == (p, upper)
  {
    var blk := Pack(p, upper);
    SplitTwenty(p.p1);
    SplitTwenty(p.p2);
    SplitTwenty(p.p3);
    assert p.p1 / 0x1_0000 < 4;
    assert blk[2] % 4 == p.p1 / 0x1_0000 && blk[2] / 4 == upper;
    assert blk[5] % 16 == p.p2 / 0x1_0000 && blk[5] / 16 == p.p3 / 0x1_0000;
  }

  /** A field joined from a high part below 16 and two bytes splits back into them. */
  lemma JoinTwenty(hi: int, mid: int, lo: int)
    requires 0 <= hi < 16 && 0 <= mid < 256 && 0 <= lo < 256
    ensures var x := 0x1_0000 * hi + 256 * mid + lo;
      0 <= x < P23Limit && x / 0x1_0000 == hi && x / 256 % 256 == mid && x % 256 == lo
  {
    var x := 0x1_0000 * hi + 256 * mid + lo;
    assert x / 256 == 256 * hi + mid;
    assert (256 * hi + mid) / 256 == hi;
  }

  /** Every block is the packing of what it unpacks to: the layout is a bijection. */
  lemma PackUnpack(blk: Block)
    ensures Fits(Unpack(blk).0) && 0 <= Unpack(blk).1 < 64
    ensures Pack(Unpack(blk).0, Unpack(blk).1) == blk
  {
    var b: seq<int> := blk;
    JoinTwenty(b[2] % 4, b[3], b[4]);
    JoinTwenty(b[5] % 16, b[6], b[7]);
    JoinTwenty(b[5] / 16, b[0], b[1]);
    assert b[2] == 4 * (b[2] / 4) + b[2] % 4;
    assert b[5] == 16 * (b[5] / 16) + b[5] % 16;
  }

  /**
   * The parameters encode the divider exactly: P3 = c, 0 <= P2 < P3, and
   * (P1 + 512 + P2/P3) / 128 = a + b/c.
   */
  lemma MultisynthRatio(a: int, b: int, c: int)
    requires c > 0
    ensures var p := MultisynthParams(a, b, c);
      p.p3 == c && 0 <= p.p2 < p.p3 && Ratio(p).0 * c == (a * c + b) * Ratio(p).1
  {
    var f := 128 * b / c;
    var p := MultisynthParams(a, b, c);
    assert 128 * b == c * f + 128 * b % c;
    assert p.p2 == 128 * b % c;
    calc {
      Ratio(p).0 * c;
      ((128 * a + f) * c + p.p2) * c;
      (128 * a * c + 128 * b) * c;
      (a * c + b) * (128 * c);
    }
  }

  lemma MulAtLeastOnce(c: int, k: int)
    requires c > 0 && k >= 1
    ensures c * k >= c
  {
    assert c * k == c + c * (k - 1);
  }

  /** floor(x / c) is the f with c*f <= x < c*(f+1). */
  lemma FloorByBounds(x: int, c: int, f: int)
    requires c > 0 && c * f <= x < c * f + c
    ensures x / c == f
  {
    var q, r := x / c, x % c;
    assert x == c * q + r && 0 <= r < c;
    if q > f {
      MulAtLeastOnce(c, q - f);
      assert false;
    } else if q < f {
      MulAtLeastOnce(c, f - q);
      assert false;
    }
  }

  /**
   * Within AN619's range for the feedback Multisynth (15 <= a <= 90,
   * 0 <= b < c <= 1048575) the parameters fit their register fields.
   */
  lemma FeedbackFits(a: int, b: int, c: int)
    requires 15 <= a <= 90 && 0 <= b < c <= 1_048_575
    ensures Fits(MultisynthParams(a, b, c))
  {
    var f, r := 128 * b / c, 128 * b % c;
    assert 128 * b == c * f + r && 0 <= r < c;
    assert 0 <= f < 128 by {
      if f < 0 {
        MulAtLeastOnce(c, -f);
      } else if f >= 128 {
        MulAtLeastOnce(c, f - 127);
        assert false;
      }
    }
    assert MultisynthParams(a, b, c) == Params(128 * a + f - 512, r, c);
  }

  /**
   * An integer output divider d has P1 = 128d - 512, P2 = 0, P3 = 1, and its
   * parameters fit their fields for 4 <= d <= 2048.
   */
  lemma OutputParamsInteger(d: int)
    requires 4 <= d <= 2048
    ensures OutputParams(d) == Params(128 * d - 512, 0, 1)
    ensures Fits(OutputParams(d))
    ensures Ratio(OutputParams(d)).0 == d * Ratio(OutputParams(d)).1
  {
  }
}
