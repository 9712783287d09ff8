# Si5351 CLK0 bring-up for Atari 8-bit clocks — a Dafny model

The program configures an Si5351 clock generator over I2C so that its CLK0
output carries one of the clock frequencies of the Atari 8-bit machines
(1.773447 MHz for a PAL XL/XE, 3.579545 MHz for an NTSC XL/XE, and so on).
It opens the I2C bus, then writes a fixed series of registers: it disables
every output, powers CLK0 up in integer mode from PLL A and powers CLK1..CLK7
down, holds disabled outputs low, loads the PLL A feedback divider (registers
26..33) and the Multisynth 0 output divider (registers 42..49) with the
sixteen bytes of the chosen frequency plan, resets both PLLs, and enables the
outputs. Each write is a two-byte frame (register, value) handed to write(2);
a failed write is reported on stderr and the program carries on.

The model has five modules:

- `Registers` — the register numbers, the CLKx control byte as six fields
  with a decoder and an encoder, the output-enable mask, the disable-state
  pairs and the PLL reset bits, following Silicon Labs application note
  AN619.
- `AN619` — the Multisynth parameter equations of AN619 (P1, P2, P3 from
  a + b/c) and the packing of P1/P2/P3 into eight register bytes, with its
  inverse.
- `Profiles` — the eleven frequency plans of the source (the 10 MHz test
  plan and ten Atari plans) with their documented dividers, VCO and output
  frequencies and their literal register bytes, and the proofs that the
  bytes are the AN619 packing of the dividers and decode back to the
  documented frequencies.
- `Bringup` — the write sequence as data, what it leaves in a register file
  when every write lands, and the order it promises.
- `I2c` — the imperative part: class `Bus` with the frame builder
  (`WriteReg8`, over a two-byte array buffer), the register-write wrapper
  that logs and continues (`WriteRegister`), and `Run`, which is `main`
  after the bus has been set up. What write(2) returns for the n-th frame is
  the parameter `reply`; the chip is a 256-byte register file that a frame
  changes only when write(2) returns 2.

The write sequence is 29 writes long (1 + 8 + 2 + 8 + 8 + 1 + 1): the
writes at Si5351ForAtari8bit.cc:148-161, 228-244 and 626-629.

## Model

| member | source | states |
|---|---|---|
| Registers.DecodeControl | Si5351ForAtari8bit.cc:151-158 | splits a CLKx control byte into its six fields; the power-down flag is set exactly when the byte is 128 or more, and the drive code is the byte's two lowest bits |
| Registers.EncodeControl | Si5351ForAtari8bit.cc:151-158 | assembles a CLKx control byte from its six fields; the byte is 128 or more exactly when the output is powered down, and its two lowest bits are the drive code |
| Registers.ControlDecodeEncode | Si5351ForAtari8bit.cc:150-158 | every CLKx control setting survives encoding to a byte and decoding back |
| Registers.ControlEncodeDecode | Si5351ForAtari8bit.cc:150-158 | every control byte is the encoding of the fields it decodes to, so the six-field layout is a bijection on bytes |
| Registers.Clk0ControlByte | Si5351ForAtari8bit.cc:150-151 | 0x4F is exactly: powered up, integer mode, PLL A, not inverted, clock source b11, drive strength b11 (8 mA), in both directions |
| Registers.UnusedClockControlByte | Si5351ForAtari8bit.cc:152-158 | 0x80 powers the output down, all other fields zero |
| Registers.AllOutputsDisabledByte | Si5351ForAtari8bit.cc:147-148 | 0xFF in register 3 disables all eight outputs |
| Registers.AllOutputsEnabledByte | Si5351ForAtari8bit.cc:628-629 | 0x00 in register 3 enables all eight outputs |
| Registers.DisableStateLowByte | Si5351ForAtari8bit.cc:160-161 | 0x00 in registers 24 and 25 holds every disabled output low |
| Registers.PllResetByte | Si5351ForAtari8bit.cc:625-626 | 0xAC sets both the PLL A and the PLL B reset bits |
| AN619.MultisynthParams | Si5351ForAtari8bit.cc:208-212 | P1, P2, P3 for the divider a + b/c by AN619's equations; P3 is c and P2 is the remainder, 0 <= P2 < c |
| AN619.OutputParams | Si5351ForAtari8bit.cc:214-219 | P1, P2, P3 for the integer output divider d; P2 = 0, P3 = 1, and the ratio the parameters stand for is d |
| AN619.Pack | Si5351ForAtari8bit.cc:228-244 | the eight register bytes of a parameter block; the third byte carries the upper bits in bits 7:2 and P1[17:16] in bits 1:0, and the second, fifth and eighth bytes are the low bytes of P3, P1 and P2 |
| AN619.Unpack | Si5351ForAtari8bit.cc:228-244 | reads P1, P2, P3 and the upper bits of the third byte out of eight register bytes; P1 is within 18 bits, P2 and P3 within 20 bits, the upper bits within 6 |
| AN619.UnpackPack | Si5351ForAtari8bit.cc:228-244 | reading a packed block back gives the same P1, P2, P3 and the same upper bits of the third byte |
| AN619.PackUnpack | Si5351ForAtari8bit.cc:228-244 | every eight-byte block is the packing of what it reads back as, with P1 within 18 bits and P2, P3 within 20 bits |
| AN619.MultisynthRatio | Si5351ForAtari8bit.cc:208-212 | the parameters for a + b/c have P3 = c, 0 <= P2 < P3, and (P1 + 512 + P2/P3) / 128 = a + b/c exactly |
| AN619.FeedbackFits | Si5351ForAtari8bit.cc:208-212 | for 15 <= a <= 90 and 0 <= b < c <= 1048575 the parameters fit their register fields |
| AN619.OutputParamsInteger | Si5351ForAtari8bit.cc:214-219 | an integer output divider d has P1 = 128d - 512, P2 = 0, P3 = 1, fits for 4 <= d <= 2048, and its ratio is d |
| Profiles.EncodedWith | Si5351ForAtari8bit.cc:228-244 | a plan within the chip's limits whose bytes pack the parameters computed with floor(128b/c) = f, checked by c*f <= 128b < c*(f+1), has bytes that are the AN619 packing of its dividers |
| Profiles.TestTenMHzBytes | Si5351ForAtari8bit.cc:163-202 | the 10 MHz test plan's bytes are the AN619 packing of 32 + 0/1 and 80 |
| Profiles.PalXlXe1773447Bytes | Si5351ForAtari8bit.cc:205-244 | the live PAL 1.773447 MHz plan's bytes are the packing of 27 + 237381/250000 and 394 |
| Profiles.PalXlXe3546894Bytes | Si5351ForAtari8bit.cc:247-286 | the PAL 3.546894 MHz plan's bytes are the packing of 28 + 457/5000 and 198 |
| Profiles.PalXlXe14187576Bytes | Si5351ForAtari8bit.cc:289-328 | the PAL 14.187576 MHz plan's bytes are the packing of 28 + 23447/62500 and 50 |
| Profiles.Ntsc400800_17897875Bytes | Si5351ForAtari8bit.cc:331-370 | the 400/800 NTSC 1.7897875 MHz plan's bytes are the packing of 27 + 184137/200000 and 390 |
| Profiles.Ntsc400800_3579575Bytes | Si5351ForAtari8bit.cc:373-412 | the 400/800 NTSC 3.579575 MHz plan's bytes are the packing of 28 + 15967/250000 and 196 |
| Profiles.NtscXlXe17897725Bytes | Si5351ForAtari8bit.cc:415-454 | the XL/XE NTSC 1.7897725 MHz plan's bytes are the packing of 27 + 920451/1000000 and 390 |
| Profiles.NtscXlXe3579545Bytes | Si5351ForAtari8bit.cc:457-496 | the XL/XE NTSC 3.579545 MHz plan's bytes are the packing of 28 + 3977/62500 and 196 |
| Profiles.NtscXlXe14318180Bytes | Si5351ForAtari8bit.cc:499-538 | the XL/XE NTSC 14.31818 MHz plan's bytes are the packing of 27 + 38352/78125 and 48 |
| Profiles.PalCrystal4433618Bytes | Si5351ForAtari8bit.cc:541-580 | the PAL crystal 4.433618 MHz plan's bytes are the packing of 28 + 12791/625000 and 158 |
| Profiles.Xf551Crystal8333300Bytes | Si5351ForAtari8bit.cc:583-622 | the XF551 crystal 8.3333 MHz plan's bytes are the packing of 28 + 83319/125000 and 86 |
| Profiles.TableFrequencies | Si5351ForAtari8bit.cc:163-622 | every plan is within AN619's limits (a in 15..90, VCO 600..900 MHz, even d in 8..2048), 25 MHz x (a + b/c) is exactly the documented VCO, and VCO / d is within 1 Hz of the documented output |
| Profiles.TableBytesEncodeDividers | Si5351ForAtari8bit.cc:163-622 | every plan's sixteen bytes are the AN619 packing of its documented dividers |
| Profiles.DecodedDividers | Si5351ForAtari8bit.cc:205-244 | bytes that encode a plan read back as its feedback parameters with reserved bits clear and as its output divider with R = 1 and DIVBY4 off, and their ratios are a + b/c and d |
| Profiles.VcoFromParams | Si5351ForAtari8bit.cc:208-212 | a divider a + b/c that turns 25 MHz into the VCO frequency has parameters whose ratio does the same |
| Profiles.DecodedVco | Si5351ForAtari8bit.cc:208-212 | the PLL A ratio read back from a plan's bytes turns 25 MHz into exactly the documented VCO frequency |
| Profiles.OutputFromParams | Si5351ForAtari8bit.cc:214-219 | an integer output divider that brings the VCO to within 1 Hz of the output frequency has parameters whose ratio does the same |
| Profiles.DecodedOutput | Si5351ForAtari8bit.cc:214-219 | the Multisynth 0 ratio read back from a plan's bytes divides the VCO to within 1 Hz of the documented output |
| Profiles.TableDecodes | Si5351ForAtari8bit.cc:163-622 | for every plan the bytes read back as its dividers, reproduce its VCO exactly and its output to within 1 Hz |
| Bringup.BringupWrites | Si5351ForAtari8bit.cc:147-629 | main's writeRegister calls as (register, value) pairs in program order: 29 of them, the first disabling every output and the last enabling them |
| Bringup.ApplyWrites | Si5351ForAtari8bit.cc:113-125 | the chip's register file after the writes land one after another; it stays 256 registers (ApplyWritesAt gives each register's value) |
| Bringup.ApplyWritesAt | Si5351ForAtari8bit.cc:113-125 | after a run of writes each register holds the value of the last write to it, or its old value if none went there |
| Bringup.LastWrittenNone | Si5351ForAtari8bit.cc:113-125 | there is no last write to a register exactly when no write goes to it |
| Bringup.LastWrittenAt | Si5351ForAtari8bit.cc:113-125 | a write with no later write to the same register is the last write to it |
| Bringup.ApplyIdempotent | Si5351ForAtari8bit.cc:147-629 | replaying the same writes over their own result changes nothing, so rerunning the bring-up gives the same register file |
| Bringup.BringupShape | Si5351ForAtari8bit.cc:147-629 | the bring-up is 29 writes and write i goes to register 3, 16..33, 42..49, 177, 3 in that order |
| Bringup.BringupOrdering | Si5351ForAtari8bit.cc:147-629 | the first write disables all outputs, no other write touches register 3 until the last, every divider write comes after the disable and before the PLL reset, and the last two writes are the reset then the enable |
| Bringup.DividerRegistersWrittenOnce | Si5351ForAtari8bit.cc:228-244 | each of the sixteen divider registers receives exactly one write |
| Bringup.BringupFinalState | Si5351ForAtari8bit.cc:147-629 | when every write lands: register 3 = 0x00, 16 = 0x4F, 17..23 = 0x80, 24 = 25 = 0x00, 26..33 and 42..49 = the plan's bytes, 177 = 0xAC, every other register unchanged |
| Bringup.FinalTouched | Si5351ForAtari8bit.cc:147-629 | a register the bring-up writes ends with the value of its last bring-up write |
| Bringup.FinalUntouched | Si5351ForAtari8bit.cc:147-629 | a register the bring-up never writes keeps its value |
| Bringup.ActiveBringup | Si5351ForAtari8bit.cc:147-629 | the live plan's writes are the 29 literal (register, value) pairs of main, in order |
| I2c.Bus.Transmit | Si5351ForAtari8bit.cc:119 | write(2) of the two-byte buffer: the frame is recorded, its result is reply of its number, and it lands in the chip exactly when that is 2 |
| I2c.Bus.WriteReg8 | Si5351ForAtari8bit.cc:113-125 | the frame handed to write(2) is (reg, value); the result is 0 when write(2) returned 2 and -1 otherwise; no register number is added to the reported list |
| I2c.Bus.WriteRegister | Si5351ForAtari8bit.cc:131-135 | one frame (reg, value) is sent; the register number is reported exactly when the write failed; the invariant tying chip and stderr to the frames is kept |
| I2c.Bus.WriteAll | Si5351ForAtari8bit.cc:147-629 | the frames are exactly the writes in order whatever fails; registers whose writes all landed end as the full sequence leaves them; if every write lands the chip is that state and nothing is reported |
| I2c.Bus.Run | Si5351ForAtari8bit.cc:137-634 | exit 1 with no frame when setup returned -1; otherwise exit 0 after exactly the 29 bring-up frames, with the chip and stderr guarantees of WriteAll |
| I2c.Delivered | Si5351ForAtari8bit.cc:131-135 | the writes that reach the chip: those whose write(2) returned 2, in order, since a failed write is not retried and the run goes on; never more than were sent |
| I2c.Failed | Si5351ForAtari8bit.cc:131-135 | the register numbers reported on stderr, one per write whose write(2) did not return 2, in order; never more than were sent |
| I2c.LandedAt | Si5351ForAtari8bit.cc:131-135 | after earlier frames then ws, a register all of whose writes in ws landed holds what the whole of ws leaves there on top of the chip as the earlier frames left it |
| I2c.LandedAll | Si5351ForAtari8bit.cc:131-135 | when write(2) returns 2 for every frame of ws, the chip after the earlier frames then ws is the whole of ws applied on top of the chip as the earlier frames left it |
| I2c.NothingReported | Si5351ForAtari8bit.cc:131-135 | when write(2) returns 2 for every frame of ws, ws adds no line to stderr |
| I2c.ApplyAppend | Si5351ForAtari8bit.cc:147-629 | applying two runs of writes one after the other is applying their concatenation |
| I2c.DeliveredAppend | Si5351ForAtari8bit.cc:131-135 | the delivered writes of a concatenation are those of each part, numbered on |
| I2c.FailedAppend | Si5351ForAtari8bit.cc:131-135 | the reported registers of a concatenation are those of each part, in order |
| I2c.AllDelivered | Si5351ForAtari8bit.cc:119-124 | every write reaches the chip, in order, if and only if write(2) returned 2 for every frame |
| I2c.NoneFailed | Si5351ForAtari8bit.cc:131-135 | nothing is reported on stderr if and only if write(2) returned 2 for every frame |
| I2c.DeliveredAt | Si5351ForAtari8bit.cc:131-135 | a failed write spoils only its own register: any register all of whose writes landed holds what it would have had if every write had landed |

## Left out

- Bus setup (`wiringPiI2CSetup`: opening `/dev/i2c-1`, selecting address 0x60 with ioctl, closing on failure) is not modelled; its result is the `fd` parameter of `Run`, and only the test for -1 is kept.
- The file descriptor is not part of the model: every frame goes to the one bus.
- The text of the stderr and stdout messages is left out; stderr is modelled as the list of register numbers named in writeRegister's failure lines.
- The perror line that wiringPiI2CWriteReg8 writes on a failed write(2) is not modelled at all: `WriteReg8` adds nothing to the reported list, and only writeRegister's line is recorded.
- The source never closes the descriptor; nothing corresponds to that.
- writeRegister takes `int` arguments that become `uint8_t`; every call passes a constant below 256, so the model takes bytes and leaves the truncation out.
- A write(2) result other than 2 (an error or a short write) leaves the chip unchanged; a one-byte write that only moves the chip's address pointer is not distinguished.
- The chip is a plain register file: the PLL reset bits clearing themselves, PLL lock time, the device status register and the analogue output are not modelled.
- I2c.Bus.Run: main spells out its 29 writeRegister calls one after another; the model issues the same calls with the same arguments in the same order by walking the write table `BringupWrites` in `WriteAll`'s loop, because the unrolled form with these contracts is too costly to verify.
- Only the PAL XL/XE 1.773447 MHz plan is live in the source; the others are disabled alternatives. `Run` takes the plan as a parameter and `Profiles.Active` names the live one.
- Spread spectrum, PLL B, Multisynth 1..7 and the phase offset registers are not written by the program and are not modelled.
