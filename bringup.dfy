/**
 * The register writes of the CLK0 bring-up, as a sequence of (register,
 * value) pairs, and what they leave in the chip's register file when every
 * one of them lands. The order is part of what is promised: outputs are
 * disabled before any divider register changes, the PLLs are reset after
 * the last divider write, and the outputs are enabled last of all.
 */
module Bringup {
  import opened Registers
  import opened AN619
  import opened Profiles

  datatype Option<T> = None | Some(value: T)

  /** One register write: register address, then value, as they go on the wire. */
  datatype Write = Write(reg: Byte, value: Byte)

  /** The eight writes that load a parameter block into registers base..base+7, in register order. */
  function BlockWrites(base: int, blk: Block): (ws: seq<Write>)
    requires 0 <= base <= RegisterCount - 8
    ensures |ws| == 8
    ensures forall i :: 0 <= i < 8 ==> ws[i] == Write(base + i, blk[i])
  {
    [Write(base, blk[0]), Write(base + 1, blk[1]), Write(base + 2, blk[2]), Write(base + 3, blk[3]),
     Write(base + 4, blk[4]), Write(base + 5, blk[5]), Write(base + 6, blk[6]), Write(base + 7, blk[7])]
  }

  /**
   * Every write the program issues once the bus is open, in program order:
   * disable all outputs; power CLK0 up and CLK1..CLK7 down; hold disabled
   * outputs low; load PLL A and Multisynth 0; reset both PLLs; enable outputs.
   */
  function BringupWrites(p: Profile): (ws: seq<Write>)
    ensures |ws| == 29
    ensures ws[0] == Write(OutputEnableControl, 0xFF) && ws[28] == Write(OutputEnableControl, 0x00)
  {
    OutputSetupWrites + BlockWrites(PllABase, p.pllA) + BlockWrites(Multisynth0Base, p.ms0) + FinishWrites
  }

  /** Disable all outputs, power CLK0 up and CLK1..CLK7 down, hold disabled outputs low. */
  const OutputSetupWrites: seq<Write> :=
    [Write(OutputEnableControl, 0xFF),
     Write(Clk0Control, 0x4F), Write(17, 0x80), Write(18, 0x80), Write(19, 0x80),
     Write(20, 0x80), Write(21, 0x80), Write(22, 0x80), Write(Clk7Control, 0x80),
     Write(Clk3To0DisableState, 0x00), Write(Clk7To4DisableState, 0x00)]

  /** Reset both PLLs, then enable the outputs. */
  const FinishWrites: seq<Write> := [Write(PllReset, 0xAC), Write(OutputEnableControl, 0x00)]

  /** The register the i-th bring-up write goes to. */
  function BringupRegister(i: int): (reg: int) {
    if i == 0 || i == 28 then OutputEnableControl
    else if i <= 18 then 15 + i
    else if i <= 26 then 23 + i
    else PllReset
  }

  /** The register file after the writes land one after another. */
  function ApplyWrites(r: seq<Byte>, ws: seq<Write>): (s: seq<Byte>)
    requires |r| == RegisterCount
    ensures |s| == RegisterCount
  {
    if ws == [] then r
    else
      var n := |ws| - 1;
      ApplyWrites(r, ws[..n])[ws[n].reg := ws[n].value]
  }

  /** The value of the last write to register k, if any write goes there. */
  function LastWritten(ws: seq<Write>, k: int): (v: Option<Byte>) {
    if ws == [] then None
    else if ws[|ws| - 1].reg == k then Some(ws[|ws| - 1].value)
    else LastWritten(ws[..|ws| - 1], k)
  }

  /** After a run of writes each register holds the last value written to it, or its old value. */
  lemma {:induction false} ApplyWritesAt(r: seq<Byte>, ws: seq<Write>, k: int)
    requires |r| == RegisterCount && 0 <= k < RegisterCount
    ensures ApplyWrites(r, ws)[k] == match LastWritten(ws, k) case Some(v) => v case None => r[k]
  {
    if ws != [] {
      ApplyWritesAt(r, ws[..|ws| - 1], k);
    }
  }

  /** No write goes to k exactly when there is no last write to k. */
  lemma {:induction false} LastWrittenNone(ws: seq<Write>, k: int)
    ensures LastWritten(ws, k) == None <==> forall i :: 0 <= i < |ws| ==> ws[i].reg != k
  {
    if ws != [] {
      var n := |ws| - 1;
      LastWrittenNone(ws[..n], k);
      assert forall i :: 0 <= i < n ==> ws[..n][i] == ws[i];
    }
  }

  /** The write at j is the last one to its register when no later write goes there. */
  lemma {:induction false} LastWrittenAt(ws: seq<Write>, j: int)
    requires 0 <= j < |ws|
    requires forall i :: j < i < |ws| ==> ws[i].reg != ws[j].reg
    ensures LastWritten(ws, ws[j].reg) == Some(ws[j].value)
  {
    var n := |ws| - 1;
    if j < n {
      assert ws[..n][j] == ws[j];
      assert forall i :: j < i < n ==> ws[..n][i] == ws[i];
      LastWrittenAt(ws[..n], j);
    }
  }

  /** Replaying the same writes a second time changes nothing: the bring-up can be rerun. */
  lemma ApplyIdempotent(r: seq<Byte>, ws: seq<Write>)
    requires |r| == RegisterCount
    ensures ApplyWrites(ApplyWrites(r, ws), ws) == ApplyWrites(r, ws)
  {
    var once := ApplyWrites(r, ws);
    forall k | 0 <= k < RegisterCount
      ensures ApplyWrites(once, ws)[k] == once[k]
    {
      ApplyWritesAt(once, ws, k);
      ApplyWritesAt(r, ws, k);
    }
  }

  /** The bring-up is 29 writes, and this is the register each one addresses. */
  lemma BringupShape(p: Profile)
    ensures |BringupWrites(p)| == 29
    ensures forall i :: 0 <= i < 29 ==> BringupWrites(p)[i].reg == BringupRegister(i)
  {
  }

  /**
   * The ordering the bring-up relies on: the first write disables every
   * output, no write in between touches the output-enable register, every
   * divider write comes after the disable and before the PLL reset, and the
   * last two writes reset both PLLs and then enable the outputs.
   */
  lemma BringupOrdering(p: Profile)
    ensures var ws := BringupWrites(p);
      && ws[0] == Write(OutputEnableControl, 0xFF)
      && ws[|ws| - 2] == Write(PllReset, 0xAC)
      && ws[|ws| - 1] == Write(OutputEnableControl, 0x00)
      && (forall i :: 0 < i < |ws| - 1 ==> ws[i].reg != OutputEnableControl)
      && (forall i :: 0 <= i < |ws| && IsDividerRegister(ws[i].reg) ==> 0 < i < |ws| - 2)
  {
    BringupShape(p);
  }

  /** Each of the sixteen divider registers receives exactly one write. */
  lemma DividerRegistersWrittenOnce(p: Profile)
    ensures var ws := BringupWrites(p);
      forall i, j :: 0 <= i < j < |ws| && IsDividerRegister(ws[i].reg) ==> ws[i].reg != ws[j].reg
    ensures forall k :: IsDividerRegister(k) ==> exists i :: 0 <= i < |BringupWrites(p)| && BringupWrites(p)[i].reg == k
  {
    var ws := BringupWrites(p);
    BringupShape(p);
    forall k | IsDividerRegister(k)
      ensures exists i :: 0 <= i < |ws| && ws[i].reg == k
    {
      if k < Multisynth0Base {
        assert ws[k - 15].reg == k;
      } else {
        assert ws[k - 23].reg == k;
      }
    }
  }

  /** Whether the bring-up writes register k at all. */
  predicate Touched(k: int) {
    k == OutputEnableControl || Clk0Control <= k < PllABase + 8
    || Multisynth0Base <= k < Multisynth0Base + 8 || k == PllReset
  }

  /** The index of the last bring-up write to a register it touches. */
  function LastIndex(k: int): (i: int) {
    if k == OutputEnableControl then 28
    else if k == PllReset then 27
    else if k < Multisynth0Base then k - 15
    else k - 23
  }

  lemma LastIndexIsLast(p: Profile, k: int)
    requires Touched(k)
    ensures var ws := BringupWrites(p);
      0 <= LastIndex(k) < |ws| && ws[LastIndex(k)].reg == k
      && forall i :: LastIndex(k) < i < |ws| ==> ws[i].reg != k
  {
    BringupShape(p);
  }

  /** A register the bring-up touches ends with the value of its last bring-up write. */
  lemma FinalTouched(p: Profile, r: seq<Byte>, k: int)
    requires |r| == RegisterCount && 0 <= k < RegisterCount && Touched(k)
    ensures 0 <= LastIndex(k) < 29
    ensures ApplyWrites(r, BringupWrites(p))[k] == BringupWrites(p)[LastIndex(k)].value
  {
    LastIndexIsLast(p, k);
    LastWrittenAt(BringupWrites(p), LastIndex(k));
    ApplyWritesAt(r, BringupWrites(p), k);
  }

  /** A register the bring-up does not touch keeps its value. */
  lemma FinalUntouched(p: Profile, r: seq<Byte>, k: int)
    requires |r| == RegisterCount && 0 <= k < RegisterCount && !Touched(k)
    ensures ApplyWrites(r, BringupWrites(p))[k] == r[k]
  {
    BringupShape(p);
    LastWrittenNone(BringupWrites(p), k);
    ApplyWritesAt(r, BringupWrites(p), k);
  }

  /**
   * When every write lands, the bring-up leaves the outputs enabled, CLK0's
   * control byte 0x4F, CLK1..CLK7 powered down, disabled outputs held low,
   * the profile's bytes in registers 26..33 and 42..49, the PLL reset byte
   * in register 177, and every other register as it was.
   */
  lemma BringupFinalState(p: Profile, r: seq<Byte>)
    requires |r| == RegisterCount
    ensures var f := ApplyWrites(r, BringupWrites(p));
      && f[OutputEnableControl] == 0x00
      && f[Clk0Control] == 0x4F
      && (forall k :: Clk0Control < k <= Clk7Control ==> f[k] == 0x80)
      && f[Clk3To0DisableState] == 0x00 && f[Clk7To4DisableState] == 0x00
      && (forall i :: 0 <= i < 8 ==> f[PllABase + i] == p.pllA[i] && f[Multisynth0Base + i] == p.ms0[i])
      && f[PllReset] == 0xAC
      && (forall k :: 0 <= k < RegisterCount && !Touched(k) ==> f[k] == r[k])
  {
    var ws := BringupWrites(p);
    var f := ApplyWrites(r, ws);
    assert ws[..11] == OutputSetupWrites;
    assert ws[11..19] == BlockWrites(PllABase, p.pllA);
    assert ws[19..27] == BlockWrites(Multisynth0Base, p.ms0);
    assert ws[27..] == FinishWrites;
    forall k | 0 <= k < RegisterCount && Touched(k)
      ensures f[k] == ws[LastIndex(k)].value
    {
      FinalTouched(p, r, k);
    }
    forall k | 0 <= k < RegisterCount && !Touched(k)
      ensures f[k] == r[k]
    {
      FinalUntouched(p, r, k);
    }
    forall i | 0 <= i < 8
      ensures f[PllABase + i] == p.pllA[i] && f[Multisynth0Base + i] == p.ms0[i]
    {
      assert ws[11..19][i] == ws[LastIndex(PllABase + i)];
      assert ws[19..27][i] == ws[LastIndex(Multisynth0Base + i)];
    }
    forall k | Clk0Control < k <= Clk7Control
      ensures f[k] == 0x80
    {
      assert ws[..11][k - 15] == ws[LastIndex(k)];
    }
  }

  /** The writes of the compiled-in plan, 1.773447 MHz for a PAL XL/XE, byte for byte. */
  lemma ActiveBringup()
    ensures BringupWrites(Active) == [
      Write(3, 0xFF),
      Write(16, 0x4F), Write(17, 0x80), Write(18, 0x80), Write(19, 0x80),
      Write(20, 0x80), Write(21, 0x80), Write(22, 0x80), Write(23, 0x80),
      Write(24, 0x00), Write(25, 0x00),
      Write(26, 0xd0), Write(27, 0x90), Write(28, 0x00), Write(29, 0x0b),
      Write(30, 0xf9), Write(31, 0x32), Write(32, 0x0e), Write(33, 0x70),
      Write(42, 0x00), Write(43, 0x01), Write(44, 0x00), Write(45, 0xc3),
      Write(46, 0x00), Write(47, 0x00), Write(48, 0x00), Write(49, 0x00),
      Write(177, 0xAC), Write(3, 0x00)]
  {
  }
}
