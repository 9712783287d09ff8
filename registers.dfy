/**
 * The part of the Si5351 register map that the CLK0 bring-up touches, and
 * the bit fields of the control bytes it writes (register numbers and field
 * layouts as in Silicon Labs application note AN619).
 */
module Registers {

  /** One register address or register value: the source's uint8_t. */
  type Byte = x: int | 0 <= x < 256

  /** Number of addressable registers in the chip's register file. */
  const RegisterCount := 256

  const DeviceStatus: Byte := 0
  const OutputEnableControl: Byte := 3
  const Clk0Control: Byte := 16
  const Clk7Control: Byte := 23
  const Clk3To0DisableState: Byte := 24
  const Clk7To4DisableState: Byte := 25
  /** First of the eight Multisynth NA (PLL A feedback) parameter registers, 26..33. */
  const PllABase: Byte := 26
  /** First of the eight Multisynth 0 parameter registers, 42..49. */
  const Multisynth0Base: Byte := 42
  const PllReset: Byte := 177

  /** True for the sixteen divider registers the bring-up reprograms. */
  predicate IsDividerRegister(reg: int) {
    PllABase <= reg < PllABase + 8 || Multisynth0Base <= reg < Multisynth0Base + 8
  }

  // ---------------------------------------------------------------------
  // CLKx control registers 16..23

  datatype PllSource = PllA | PllB

  /** CLKx_SRC: where the output stage takes its clock from. */
  datatype ClockSource = Xtal | ClkIn | SharedMultisynth | OwnMultisynth

  /** CLKx_IDRV: output drive strength. */
  datatype DriveStrength = Drive2mA | Drive4mA | Drive6mA | Drive8mA

  datatype ClockControl = ClockControl(
    poweredDown: bool,     // bit 7, CLKx_PDN
    integerMode: bool,     // bit 6, MSx_INT
    pll: PllSource,        // bit 5, MSx_SRC
    inverted: bool,        // bit 4, CLKx_INV
    source: ClockSource,   // bits 3:2, CLKx_SRC
    drive: DriveStrength)  // bits 1:0, CLKx_IDRV

  function SourceCode(s: ClockSource): (k: int)
    ensures 0 <= k < 4
  {
    match s
    case Xtal => 0
    case ClkIn => 1
    case SharedMultisynth => 2
    case OwnMultisynth => 3
  }

  function SourceOfCode(k: int): (s: ClockSource)
    requires 0 <= k < 4
  {
    if k == 0 then Xtal else if k == 1 then ClkIn else if k == 2 then SharedMultisynth else OwnMultisynth
  }

  function DriveCode(d: DriveStrength): (k: int)
    ensures 0 <= k < 4
  {
    match d
    case Drive2mA => 0
    case Drive4mA => 1
    case Drive6mA => 2
    case Drive8mA => 3
  }

  function DriveOfCode(k: int): (d: DriveStrength)
    requires 0 <= k < 4
  {
    if k == 0 then Drive2mA else if k == 1 then Drive4mA else if k == 2 then Drive6mA else Drive8mA
  }

  function FlagBit(b: bool, weight: int): (k: int) {
    if b then weight else 0
  }

  /**
   * Splits a CLKx control byte into its six fields, lowest field first: the
   * top bit is the power-down flag and the two lowest bits the drive strength.
   */
  function DecodeControl(x: Byte): (c: ClockControl)
    ensures c.poweredDown <==> x >= 128
    ensures DriveCode(c.drive) == x % 4
  {
    var drive, x4 := x % 4, x / 4;
    var source, x16 := x4 % 4, x4 / 4;
    var inverted, x32 := x16 % 2, x16 / 2;
    var pll, x64 := x32 % 2, x32 / 2;
    var integer, x128 := x64 % 2, x64 / 2;
    ClockControl(x128 == 1, integer == 1, if pll == 0 then PllA else PllB, inverted == 1,
                 SourceOfCode(source), DriveOfCode(drive))
  }

  /** Assembles a CLKx control byte from its six fields, power-down flag in the top bit, drive in the lowest two. */
  function EncodeControl(c: ClockControl): (x: Byte)
    ensures x >= 128 <==> c.poweredDown
    ensures x % 4 == DriveCode(c.drive)
  {
    FlagBit(c.poweredDown, 128) + FlagBit(c.integerMode, 64) + FlagBit(c.pll == PllB, 32)
      + FlagBit(c.inverted, 16) + 4 * SourceCode(c.source) + DriveCode(c.drive)
  }

  /** Every control setting survives encoding then decoding. */
  lemma ControlDecodeEncode(c: ClockControl)
    ensures DecodeControl(EncodeControl(c)) == c
  {
    var x := EncodeControl(c);
    var x64 := FlagBit(c.poweredDown, 2) + FlagBit(c.integerMode, 1);
    var x32 := 2 * x64 + FlagBit(c.pll == PllB, 1);
    var x16 := 2 * x32 + FlagBit(c.inverted, 1);
    var x4 := 4 * x16 + SourceCode(c.source);
    assert x == 4 * x4 + DriveCode(c.drive);
    assert x % 4 == DriveCode(c.drive) && x / 4 == x4;
    assert x4 % 4 == SourceCode(c.source) && x4 / 4 == x16;
    assert x16 % 2 == FlagBit(c.inverted, 1) && x16 / 2 == x32;
    assert x32 % 2 == FlagBit(c.pll == PllB, 1) && x32 / 2 == x64;
    assert x64 % 2 == FlagBit(c.integerMode, 1) && x64 / 2 == FlagBit(c.poweredDown, 1);
    assert SourceOfCode(SourceCode(c.source)) == c.source;
    assert DriveOfCode(DriveCode(c.drive)) == c.drive;
  }

  /** Every control byte is the encoding of the fields it decodes to. */
  lemma ControlEncodeDecode(x: Byte)
    ensures EncodeControl(DecodeControl(x)) == x
  {
    var d := DecodeControl(x);
    var x4 := x / 4;
    var x16 := x4 / 4;
    var x32 := x16 / 2;
    var x64 := x32 / 2;
    assert x == 4 * x4 + x % 4;
    assert x4 == 4 * x16 + x4 % 4;
    assert x16 == 2 * x32 + x16 % 2;
    assert x32 == 2 * x64 + x32 % 2;
    assert x64 == 2 * (x64 / 2) + x64 % 2 && 0 <= x64 / 2 < 2;
    assert FlagBit(d.poweredDown, 128) == 128 * (x64 / 2);
    assert FlagBit(d.integerMode, 64) == 64 * (x64 % 2);
    assert FlagBit(d.pll == PllB, 32) == 32 * (x32 % 2);
    assert FlagBit(d.inverted, 16) == 16 * (x16 % 2);
    assert SourceCode(d.source) == x4 % 4;
    assert DriveCode(d.drive) == x % 4;
  }

  /**
   * The byte written to CLK0's control register: powered up, integer-mode
   * Multisynth 0 fed from PLL A, not inverted, clock source b11 (its own
   * Multisynth), drive strength b11 (8 mA).
   */
  lemma Clk0ControlByte()
    ensures DecodeControl(0x4F) == ClockControl(false, true, PllA, false, OwnMultisynth, Drive8mA)
    ensures EncodeControl(ClockControl(false, true, PllA, false, OwnMultisynth, Drive8mA)) == 0x4F
  {
  }

  /** The byte written to CLK1..CLK7's control registers powers the output down. */
  lemma UnusedClockControlByte()
    ensures DecodeControl(0x80).poweredDown
    ensures DecodeControl(0x80) == ClockControl(true, false, PllA, false, Xtal, Drive2mA)
  {
  }

  // ---------------------------------------------------------------------
  // Register 3: output enable control, one CLKx_OEB bit per output (1 disables)

  const BitWeight: seq<int> := [1, 2, 4, 8, 16, 32, 64, 128]

  predicate OutputEnabled(oeb: Byte, clk: int)
    requires 0 <= clk < 8
  {
    oeb / BitWeight[clk] % 2 == 0
  }

  /** 0xFF disables all eight outputs. */
  lemma AllOutputsDisabledByte()
    ensures forall clk :: 0 <= clk < 8 ==> !OutputEnabled(0xFF, clk)
  {
  }

  /** 0x00 enables all eight outputs. */
  lemma AllOutputsEnabledByte()
    ensures forall clk :: 0 <= clk < 8 ==> OutputEnabled(0x00, clk)
  {
  }

  // ---------------------------------------------------------------------
  // Registers 24 and 25: two CLKx_DIS_STATE bits per output

  datatype DisableState = DisabledLow | DisabledHigh | DisabledHighZ | NeverDisabled

  const PairWeight: seq<int> := [1, 4, 16, 64]

  /** State of output `clk mod 4` of the register's group of four while disabled. */
  function DisableStateOf(x: Byte, clk: int): (st: DisableState)
    requires 0 <= clk < 4
  {
    var k := x / PairWeight[clk] % 4;
    if k == 0 then DisabledLow else if k == 1 then DisabledHigh else if k == 2 then DisabledHighZ else NeverDisabled
  }

  /** Writing 0x00 to registers 24 and 25 holds every output low while it is disabled. */
  lemma DisableStateLowByte()
    ensures forall clk :: 0 <= clk < 4 ==> DisableStateOf(0x00, clk) == DisabledLow
  {
  }

  // ---------------------------------------------------------------------
  // Register 177: PLL soft reset (bit 7 PLLB_RST, bit 5 PLLA_RST)

  predicate ResetsPllA(x: Byte) { x / 32 % 2 == 1 }

  predicate ResetsPllB(x: Byte) { x / 128 == 1 }

  /** 0xAC sets both the PLL A and the PLL B reset bits. */
  lemma PllResetByte()
    ensures ResetsPllA(0xAC) && ResetsPllB(0xAC)
  {
  }
}
