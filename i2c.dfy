/**
 * The program's side of the I2C bus: the frame builder that hands a
 * two-byte buffer to write(2), the register-write wrapper that logs a
 * failure and carries on, and main's fixed sequence of writes.
 *
 * The bus is a class whose state is what the program leaves behind: every
 * frame handed to write(2), the registers named in the failure lines on
 * stderr, and the chip's register file, which a frame changes only when
 * write(2) reports both bytes sent. What write(2) returns for the n-th
 * frame is not under the program's control; it is the parameter `reply`.
 */
module I2c {
  import opened Registers
  import opened Profiles
  import opened AN619
  import opened Bringup

  /**
   * The writes that reach the chip: those, numbered from `start`, for which
   * write(2) returned 2.
   */
  function Delivered(ws: seq<Write>, reply: nat -> int, start: nat): (d: seq<Write>)
    ensures |d| <= |ws|
  {
    if ws == [] then []
    else
      var n := |ws| - 1;
      Delivered(ws[..n], reply, start) + (if reply(start + n) == 2 then [ws[n]] else [])
  }

  /** The register numbers reported on stderr: one per write for which write(2) did not return 2. */
  function Failed(ws: seq<Write>, reply: nat -> int, start: nat): (f: seq<Byte>)
    ensures |f| <= |ws|
  {
    if ws == [] then []
    else
      var n := |ws| - 1;
      Failed(ws[..n], reply, start) + (if reply(start + n) == 2 then [] else [ws[n].reg])
  }

  class Bus {
    /** What write(2) returns for the n-th frame handed to it, counting from 0. */
    const reply: nat -> int
    /** The chip's registers before the first frame. */
    ghost const initial: seq<Byte>
    /** The chip's register file. */
    var chip: seq<Byte>
    /** Every frame handed to write(2), in order, as the write it carries. */
    var sent: seq<Write>
    /** The register numbers named in "register write error" lines on stderr, in order. */
    var reported: seq<Byte>

    /** The chip holds exactly what the delivered frames wrote over its initial contents. */
    ghost predicate ChipValid()
      reads this
    {
      |initial| == RegisterCount && |chip| == RegisterCount
      && chip == ApplyWrites(initial, Delivered(sent, reply, 0))
    }

    /** ChipValid, and stderr names every register whose frame was not delivered. */
    ghost predicate Valid()
      reads this
    {
      ChipValid() && reported == Failed(sent, reply, 0)
    }

    constructor (reply: nat -> int, chip: seq<Byte>)
      requires |chip| == RegisterCount
      ensures this.reply == reply && this.chip == chip && sent == [] && reported == []
      ensures Valid()
    {
      this.reply := reply;
      this.initial := chip;
      this.chip := chip;
      this.sent := [];
      this.reported := [];
    }

    /**
     * write(2) of a two-byte buffer: the frame goes out, and lands in the
     * chip only if write(2) reports both bytes sent.
     */
    method Transmit(buffer: array<Byte>) returns (n: int)
      requires ChipValid() && buffer.Length == 2
      modifies this
      ensures n == reply(|old(sent)|)
      ensures sent == old(sent) + [Write(buffer[0], buffer[1])]
      ensures chip == if n == 2 then old(chip)[buffer[0] := buffer[1]] else old(chip)
      ensures reported == old(reported)
      ensures ChipValid()
    {
      var w := Write(buffer[0], buffer[1]);
      n := reply(|sent|);
      var before := Delivered(sent, reply, 0);
      assert (sent + [w])[..|sent|] == sent;
      sent := sent + [w];
      if n == 2 {
        assert Delivered(sent, reply, 0) == before + [w];
        ApplyAppend(initial, before, [w]);
        assert [w][..0] == [];
        chip := chip[w.reg := w.value];
      } else {
        assert Delivered(sent, reply, 0) == before;
      }
    }

    /**
     * The frame builder: puts the register address and the value in a
     * two-byte buffer and writes it; 0 when both bytes were sent, -1
     * otherwise.
     */
    method WriteReg8(reg: Byte, value: Byte) returns (status: int)
      requires ChipValid()
      modifies this
      ensures status == (if reply(|old(sent)|) == 2 then 0 else -1)
      ensures sent == old(sent) + [Write(reg, value)]
      ensures chip == if status == 0 then old(chip)[reg := value] else old(chip)
      ensures reported == old(reported)
      ensures ChipValid()
    {
      var buffer := new Byte[2];
      buffer[0] := reg;
      buffer[1] := value;
      var n := Transmit(buffer);
      if n != 2 {
        status := -1;
      } else {
        status := 0;
      }
    }

    /** Writes one register; on failure names the register on stderr and carries on. */
    method WriteRegister(reg: Byte, value: Byte)
      requires Valid()
      modifies this
      ensures sent == old(sent) + [Write(reg, value)]
      ensures reported == old(reported) + if reply(|old(sent)|) == 2 then [] else [reg]
      ensures chip == if reply(|old(sent)|) == 2 then old(chip)[reg := value] else old(chip)
      ensures Valid()
    {
      var status := WriteReg8(reg, value);
      if status == -1 {
        reported := reported + [reg];
      }
      assert sent[..|sent| - 1] == old(sent);
    }

    /**
     * Issues the writes in order through WriteRegister, each one attempted
     * whatever became of the ones before it. Every register whose writes all
     * landed holds what the complete run would leave there; when every frame
     * is delivered the chip holds exactly that and nothing is reported.
     */
    method WriteAll(ws: seq<Write>)
      requires Valid()
      modifies this
      ensures Valid()
      ensures sent == old(sent) + ws
      ensures forall k :: 0 <= k < RegisterCount && AllWritesTo(ws, k, reply, |old(sent)|) ==>
        chip[k] == ApplyWrites(old(chip), ws)[k]
      ensures (forall n :: |old(sent)| <= n < |sent| ==> reply(n) == 2) ==>
        chip == ApplyWrites(old(chip), ws) && reported == old(reported)
    {
      for i := 0 to |ws|
        invariant sent == old(sent) + ws[..i]
        invariant Valid()
      {
        assert ws[..i + 1] == ws[..i] + [ws[i]];
        WriteRegister(ws[i].reg, ws[i].value);
      }
      assert ws[..|ws|] == ws;
      forall k | 0 <= k < RegisterCount && AllWritesTo(ws, k, reply, |old(sent)|)
        ensures chip[k] == ApplyWrites(old(chip), ws)[k]
      {
        LandedAt(initial, old(sent), ws, reply, k);
      }
      if forall n :: |old(sent)| <= n < |sent| ==> reply(n) == 2 {
        LandedAll(initial, old(sent), ws, reply);
        NothingReported(old(sent), ws, reply);
      }
    }

    /**
     * main once the bus is set up: `fd` is what the setup returned (-1 when
     * the bus could not be opened or addressed) and `p` is the live plan.
     * Exit code 1 without a single write when setup failed; otherwise the 29
     * bring-up writes in program order and exit code 0.
     */
    method Run(fd: int, p: Profile) returns (exitCode: int)
      requires Valid()
      modifies this
      ensures Valid()
      ensures fd == -1 ==> exitCode == 1 && sent == old(sent) && chip == old(chip) && reported == old(reported)
      ensures fd != -1 ==> exitCode == 0 && sent == old(sent) + BringupWrites(p)
      ensures fd != -1 ==> forall k :: 0 <= k < RegisterCount && AllWritesTo(BringupWrites(p), k, reply, |old(sent)|) ==>
        chip[k] == ApplyWrites(old(chip), BringupWrites(p))[k]
      ensures fd != -1 && (forall n :: |old(sent)| <= n < |sent| ==> reply(n) == 2) ==>
        chip == ApplyWrites(old(chip), BringupWrites(p)) && reported == old(reported)
    {
      if fd == -1 {
        return 1;
      }
      WriteAll(BringupWrites(p));
      return 0;
    }
  }

  /**
   * A register all of whose writes in ws landed holds, after before + ws, what
   * the complete run of ws leaves there on top of the chip after before.
   */
  lemma LandedAt(initial: seq<Byte>, before: seq<Write>, ws: seq<Write>, reply: nat -> int, k: int)
    requires |initial| == RegisterCount && 0 <= k < RegisterCount
    requires AllWritesTo(ws, k, reply, |before|)
    ensures ApplyWrites(initial, Delivered(before + ws, reply, 0))[k]
      == ApplyWrites(ApplyWrites(initial, Delivered(before, reply, 0)), ws)[k]
  {
    var d0, d1 := Delivered(before, reply, 0), Delivered(ws, reply, |before|);
    var mid := ApplyWrites(initial, d0);
    DeliveredAppend(before, ws, reply, 0);
    ApplyAppend(initial, d0, d1);
    assert ApplyWrites(initial, Delivered(before + ws, reply, 0)) == ApplyWrites(mid, d1);
    DeliveredAt(mid, ws, reply, |before|, k);
  }

  /** When every frame of ws is answered with 2, all of ws lands on top of the chip after before. */
  lemma LandedAll(initial: seq<Byte>, before: seq<Write>, ws: seq<Write>, reply: nat -> int)
    requires |initial| == RegisterCount
    requires forall n :: |before| <= n < |before| + |ws| ==> reply(n) == 2
    ensures ApplyWrites(initial, Delivered(before + ws, reply, 0))
      == ApplyWrites(ApplyWrites(initial, Delivered(before, reply, 0)), ws)
  {
    DeliveredAppend(before, ws, reply, 0);
    AllDelivered(ws, reply, |before|);
    ApplyAppend(initial, Delivered(before, reply, 0), ws);
  }

  /** When every frame of ws is answered with 2, ws adds nothing to stderr. */
  lemma NothingReported(before: seq<Write>, ws: seq<Write>, reply: nat -> int)
    requires forall n :: |before| <= n < |before| + |ws| ==> reply(n) == 2
    ensures Failed(before + ws, reply, 0) == Failed(before, reply, 0)
  {
    var f0 := Failed(before, reply, 0);
    FailedAppend(before, ws, reply, 0);
    NoneFailed(ws, reply, |before|);
    assert Failed(ws, reply, |before|) == [];
    assert f0 + [] == f0;
  }

  /** Every write to register k among ws (numbered from start) was answered with 2. */
  ghost predicate AllWritesTo(ws: seq<Write>, k: int, reply: nat -> int, start: nat) {
    forall i :: 0 <= i < |ws| && ws[i].reg == k ==> reply(start + i) == 2
  }

  /** Applying two runs of writes is applying their concatenation. */
  lemma {:induction false} ApplyAppend(r: seq<Byte>, a: seq<Write>, b: seq<Write>)
    requires |r| == RegisterCount
    ensures ApplyWrites(r, a + b) == ApplyWrites(ApplyWrites(r, a), b)
  {
    if b == [] {
      assert a + b == a;
    } else {
      var n := |b| - 1;
      assert (a + b)[..|a + b| - 1] == a + b[..n];
      assert (a + b)[|a + b| - 1] == b[n];
      ApplyAppend(r, a, b[..n]);
    }
  }

  /** The delivered writes of a concatenation are those of each part, numbered on from where the first ends. */
  lemma {:induction false} DeliveredAppend(a: seq<Write>, b: seq<Write>, reply: nat -> int, start: nat)
    ensures Delivered(a + b, reply, start) == Delivered(a, reply, start) + Delivered(b, reply, start + |a|)
  {
    if b == [] {
      assert a + b == a;
    } else {
      var n := |b| - 1;
      assert (a + b)[..|a + b| - 1] == a + b[..n];
      assert (a + b)[|a + b| - 1] == b[n];
      DeliveredAppend(a, b[..n], reply, start);
    }
  }

  /** The failures reported for a concatenation are those of each part, in order. */
  lemma {:induction false} FailedAppend(a: seq<Write>, b: seq<Write>, reply: nat -> int, start: nat)
    ensures Failed(a + b, reply, start) == Failed(a, reply, start) + Failed(b, reply, start + |a|)
  {
    if b == [] {
      assert a + b == a;
    } else {
      var n := |b| - 1;
      assert (a + b)[..|a + b| - 1] == a + b[..n];
      assert (a + b)[|a + b| - 1] == b[n];
      FailedAppend(a, b[..n], reply, start);
    }
  }

  /** Every write reaches the chip, in order, exactly when write(2) returns 2 for every frame. */
  lemma {:induction false} AllDelivered(ws: seq<Write>, reply: nat -> int, start: nat)
    ensures Delivered(ws, reply, start) == ws <==> forall i :: start <= i < start + |ws| ==> reply(i) == 2
  {
    if ws != [] {
      var n := |ws| - 1;
      var d := Delivered(ws[..n], reply, start);
      AllDelivered(ws[..n], reply, start);
      if reply(start + n) == 2 {
        assert Delivered(ws, reply, start) == d + [ws[n]];
        assert ws == ws[..n] + [ws[n]];
        if Delivered(ws, reply, start) == ws {
          assert d == (d + [ws[n]])[..n];
        }
      } else {
        assert Delivered(ws, reply, start) == d + [];
        assert |Delivered(ws, reply, start)| < |ws|;
      }
    }
  }

  /** Nothing is reported on stderr exactly when write(2) returns 2 for every frame. */
  lemma {:induction false} NoneFailed(ws: seq<Write>, reply: nat -> int, start: nat)
    ensures Failed(ws, reply, start) == [] <==> forall i :: start <= i < start + |ws| ==> reply(i) == 2
  {
    if ws != [] {
      NoneFailed(ws[..|ws| - 1], reply, start);
    }
  }

  /** A lost write spoils only its own register: where every write landed, the chip holds what it would have anyway. */
  lemma {:induction false} DeliveredAt(r: seq<Byte>, ws: seq<Write>, reply: nat -> int, start: nat, k: int)
    requires |r| == RegisterCount && 0 <= k < RegisterCount
    requires AllWritesTo(ws, k, reply, start)
    ensures ApplyWrites(r, Delivered(ws, reply, start))[k] == ApplyWrites(r, ws)[k]
  {
    LastWrittenDelivered(ws, reply, start, k);
    ApplyWritesAt(r, Delivered(ws, reply, start), k);
    ApplyWritesAt(r, ws, k);
  }

  lemma {:induction false} LastWrittenDelivered(ws: seq<Write>, reply: nat -> int, start: nat, k: int)
    requires AllWritesTo(ws, k, reply, start)
    ensures LastWritten(Delivered(ws, reply, start), k) == LastWritten(ws, k)
  {
    if ws != [] {
      var n := |ws| - 1;
      var d := Delivered(ws[..n], reply, start);
      assert forall i :: 0 <= i < n ==> ws[..n][i] == ws[i];
      LastWrittenDelivered(ws[..n], reply, start, k);
      if reply(start + n) == 2 {
        assert (d + [ws[n]])[..|d|] == d;
      } else {
        assert d + [] == d;
      }
    }
  }
}
