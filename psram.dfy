/** `setup_psram`: the PSRAM on QMI chip select 1 is identified through the
    direct-mode interface, switched to quad mode, given a fixed M1 timing and
    format, made writable, and sized from its extended id. The bytes the
    device returns and the word read back after the test write are inputs. */
module Psram {
  import opened Options
  import opened PsramTiming
  import opened Qmi

  type Byte = b: int | 0 <= b < 256

  const MIB: nat := 1024 * 1024
  /** Known-good-die byte of the PSRAM's id. */
  const KGD_OK: Byte := 0x5D
  /** The extended id that reports 8 MiB although its size bits say 4. */
  const EID_8MIB: Byte := 0x26
  const TEST_WORD: nat := 0x1234_5678
  /** CLKDIV of the direct-mode interface during the command scripts. */
  const DIRECT_CLKDIV: nat := 30
  /** The no-op loop after each enable command. */
  const SETTLE_NOPS: nat := 20

  /** The M1 timing `setup_psram` writes, whatever `set_psram_timing` derived. */
  const FIXED_TIMING: M1Timing := M1Timing(PAGE_BREAK_BYTES, SELECT_HOLD, COOLDOWN, 1, 16, 7, 2)
  /** Quad read with command 0xeb and 24 dummy bits; quad write with command 0x38. */
  const QUAD_FORMAT: M1Format := M1Format(0xeb, 0x38, 24, true)

  /** The enable commands: RESETEN, RESET, quad enable, toggle wrap boundary. */
  const ENABLE_COMMANDS: seq<bv8> := [0x66, 0x99, 0x35, 0xc0]

  /** The size multiplier of the extended id: `eid >> 5` selects x2, x4 or
      x8 for 0, 1 and 2, and 0x26 is x8 although its size bits are 1. */
  function SizeMultiplier(eid: Byte): (m: nat)
    ensures eid < 32 ==> m == 2
    ensures 32 <= eid < 64 && eid != EID_8MIB ==> m == 4
    ensures eid == EID_8MIB || 64 <= eid < 96 ==> m == 8
    ensures eid >= 96 ==> m == 1
  {
    var sizeId := eid / 32;
    if eid == EID_8MIB || sizeId == 2 then 8
    else if sizeId == 0 then 2
    else if sizeId == 1 then 4
    else 1
  }

  /** `_psram_size` after `setup_psram`. */
  function PsramSize(kgd: Byte, eid: Byte, readback: nat): (size: nat)
    ensures size == 0 <==> kgd != KGD_OK || readback != TEST_WORD
    ensures size != 0 ==> size == SizeMultiplier(eid) * MIB
    ensures size in {0, MIB, 2 * MIB, 4 * MIB, 8 * MIB}
  {
    if kgd != KGD_OK || readback != TEST_WORD then 0
    else SizeMultiplier(eid) * MIB
  }

  /** The byte sent in the i-th slot of the id read: 0x9f, then 0xff. */
  function IdByte(i: nat): bv8 {
    if i == 0 then 0x9f else 0xff
  }

  /** The first n transmits of the id read. */
  function IdTransmits(n: nat): seq<BusEvent> {
    if n == 0 then [] else IdTransmits(n - 1) + [Tx(IdByte(n - 1), Single)]
  }

  /** The id read sends 0x9f and then six 0xff, one byte at a time. */
  lemma {:induction false} IdTransmitsBytes(n: nat)
    ensures |IdTransmits(n)| == n
    ensures forall i :: 0 <= i < n ==> IdTransmits(n)[i] == Tx(IdByte(i), Single)
  {
    if n > 0 {
      IdTransmitsBytes(n - 1);
    }
  }

  /** Direct mode on and the quad "exit QPI" byte in its own chip-select
      window, then chip select asserted for the id read. */
  const PROBE_PREFIX: seq<BusEvent> :=
    [DirectOn(DIRECT_CLKDIV), CsAssert, Tx(0xf5, Quad), CsDeassert, CsAssert]

  /** The bus traffic of the identification: direct mode on, the quad
      "exit QPI" byte 0xf5 in its own chip-select window, then the id read
      under one chip select, then direct mode off. */
  function ProbeScript(): (s: seq<BusEvent>)
    ensures |s| == 13 && s[0] == DirectOn(DIRECT_CLKDIV) && s[12] == DirectOff
    ensures forall i :: 0 < i < 12 ==> !s[i].DirectOn? && !s[i].DirectOff?
  {
    IdTransmitsBytes(7);
    PROBE_PREFIX + IdTransmits(7) + [DirectOff]
  }

  /** One enable command: chip select asserted, the byte, chip select
      released, then the no-op settle. */
  function Framed(cmd: bv8): seq<BusEvent> {
    [CsAssert, Tx(cmd, Single), CsDeassert, Settle(SETTLE_NOPS)]
  }

  /** A list of enable commands, each framed. */
  function FramedAll(cmds: seq<bv8>): seq<BusEvent>
    decreases |cmds|
  {
    if cmds == [] then [] else FramedAll(cmds[..|cmds| - 1]) + Framed(cmds[|cmds| - 1])
  }

  /** The bus traffic of the quad-mode switch. */
  function EnableScript(): (s: seq<BusEvent>)
    ensures |s| == 2 + 4 * |ENABLE_COMMANDS| && s[0] == DirectOn(DIRECT_CLKDIV) && s[|s| - 1] == DirectOff
  {
    FramedAllShape(ENABLE_COMMANDS);
    [DirectOn(DIRECT_CLKDIV)] + FramedAll(ENABLE_COMMANDS) + [DirectOff]
  }

  /** The bytes transmitted in a stretch of bus traffic. */
  function Transmitted(log: seq<BusEvent>): seq<bv8> {
    if log == [] then []
    else (if log[0].Tx? then [log[0].byte] else []) + Transmitted(log[1..])
  }

  lemma {:induction false} TransmittedAppend(a: seq<BusEvent>, b: seq<BusEvent>)
    ensures Transmitted(a + b) == Transmitted(a) + Transmitted(b)
  {
    if a != [] {
      var head: seq<bv8> := if a[0].Tx? then [a[0].byte] else [];
      assert (a + b)[0] == a[0];
      assert (a + b)[1..] == a[1..] + b;
      TransmittedAppend(a[1..], b);
      calc {
        Transmitted(a + b);
        head + Transmitted(a[1..] + b);
        head + (Transmitted(a[1..]) + Transmitted(b));
        Transmitted(a) + Transmitted(b);
      }
    } else {
      assert a + b == b;
    }
  }

  /** Every command is framed: the 4k-th event asserts chip select, the
      next sends the k-th command, the next releases chip select. */
  lemma {:induction false} FramedAllShape(cmds: seq<bv8>)
    ensures |FramedAll(cmds)| == 4 * |cmds|
    ensures forall k :: 0 <= k < |cmds| ==>
      && FramedAll(cmds)[4 * k] == CsAssert
      && FramedAll(cmds)[4 * k + 1] == Tx(cmds[k], Single)
      && FramedAll(cmds)[4 * k + 2] == CsDeassert
      && FramedAll(cmds)[4 * k + 3] == Settle(SETTLE_NOPS)
    decreases |cmds|
  {
    if cmds != [] {
      var init := cmds[..|cmds| - 1];
      FramedAllShape(init);
      forall k | 0 <= k < |cmds|
        ensures FramedAll(cmds)[4 * k] == CsAssert
        ensures FramedAll(cmds)[4 * k + 1] == Tx(cmds[k], Single)
        ensures FramedAll(cmds)[4 * k + 2] == CsDeassert
        ensures FramedAll(cmds)[4 * k + 3] == Settle(SETTLE_NOPS)
      {
        if k < |init| {
          assert cmds[k] == init[k];
        }
      }
    }
  }

  lemma TransmittedCons(e: BusEvent, rest: seq<BusEvent>)
    ensures Transmitted([e] + rest) == (if e.Tx? then [e.byte] else []) + Transmitted(rest)
  {
    assert ([e] + rest)[1..] == rest;
  }

  /** A framed command transmits exactly its byte. */
  lemma FramedTransmits(cmd: bv8)
    ensures Transmitted(Framed(cmd)) == [cmd]
  {
    var e: seq<BusEvent> := [];
    TransmittedCons(Settle(SETTLE_NOPS), e);
    TransmittedCons(CsDeassert, [Settle(SETTLE_NOPS)] + e);
    TransmittedCons(Tx(cmd, Single), [CsDeassert] + ([Settle(SETTLE_NOPS)] + e));
    TransmittedCons(CsAssert, [Tx(cmd, Single)] + ([CsDeassert] + ([Settle(SETTLE_NOPS)] + e)));
    assert Framed(cmd) == [CsAssert] + ([Tx(cmd, Single)] + ([CsDeassert] + ([Settle(SETTLE_NOPS)] + e)));
  }

  /** The framed traffic transmits exactly the commands, in order. */
  lemma {:induction false} FramedAllTransmits(cmds: seq<bv8>)
    ensures Transmitted(FramedAll(cmds)) == cmds
    decreases |cmds|
  {
    if cmds != [] {
      var init := cmds[..|cmds| - 1];
      FramedAllTransmits(init);
      TransmittedAppend(FramedAll(init), Framed(cmds[|cmds| - 1]));
      FramedTransmits(cmds[|cmds| - 1]);
      assert init + [cmds[|cmds| - 1]] == cmds;
    }
  }

  lemma ProbePrefixTransmits()
    ensures Transmitted(PROBE_PREFIX) == [0xf5]
  {
    var e: seq<BusEvent> := [];
    TransmittedCons(CsAssert, e);
    TransmittedCons(CsDeassert, [CsAssert] + e);
    TransmittedCons(Tx(0xf5, Quad), [CsDeassert] + ([CsAssert] + e));
    TransmittedCons(CsAssert, [Tx(0xf5, Quad)] + ([CsDeassert] + ([CsAssert] + e)));
    TransmittedCons(DirectOn(DIRECT_CLKDIV), [CsAssert] + ([Tx(0xf5, Quad)] + ([CsDeassert] + ([CsAssert] + e))));
    assert PROBE_PREFIX == [DirectOn(DIRECT_CLKDIV)] + ([CsAssert] + ([Tx(0xf5, Quad)] + ([CsDeassert] + ([CsAssert] + e))));
  }

  /** No byte is transmitted by a non-transmit event on its own. */
  lemma QuietTransmits(ev: BusEvent)
    requires !ev.Tx?
    ensures Transmitted([ev]) == []
  {
    TransmittedCons(ev, []);
    assert [ev] + [] == [ev];
  }

  /** The identification sends 0xf5, then 0x9f and six 0xff. */
  lemma ProbeTransmits()
    ensures Transmitted(ProbeScript()) == [0xf5, 0x9f, 0xff, 0xff, 0xff, 0xff, 0xff, 0xff]
  {
    IdTransmitsBytes(7);
    ProbeWithIds(IdTransmits(7));
  }

  /** The probe traffic around any id read that sends 0x9f and six 0xff. */
  lemma ProbeWithIds(ids: seq<BusEvent>)
    requires |ids| == 7 && forall i :: 0 <= i < 7 ==> ids[i] == Tx(IdByte(i), Single)
    ensures Transmitted(PROBE_PREFIX + ids + [DirectOff]) == [0xf5, 0x9f, 0xff, 0xff, 0xff, 0xff, 0xff, 0xff]
  {
    ProbePrefixTransmits();
    PrefixTransmits(ids);
    QuietTransmits(DirectOff);
    TransmittedAppend(PROBE_PREFIX, ids);
    TransmittedAppend(PROBE_PREFIX + ids, [DirectOff]);
    var id: seq<bv8> := [0x9f, 0xff, 0xff, 0xff, 0xff, 0xff, 0xff];
    assert Transmitted(PROBE_PREFIX + ids) == [0xf5] + id;
    assert Transmitted(PROBE_PREFIX + ids + [DirectOff]) == ([0xf5] + id) + [];
  }

  /** Traffic made only of transmits sends their bytes, in order. */
  lemma {:induction false} TransmittedAllTx(log: seq<BusEvent>)
    requires forall i :: 0 <= i < |log| ==> log[i].Tx?
    ensures |Transmitted(log)| == |log|
    ensures forall i :: 0 <= i < |log| ==> Transmitted(log)[i] == log[i].byte
  {
    if log != [] {
      TransmittedAllTx(log[1..]);
    }
  }

  /** The id read, transmit by transmit. */
  lemma PrefixTransmits(ids: seq<BusEvent>)
    requires |ids| == 7 && forall i :: 0 <= i < 7 ==> ids[i] == Tx(IdByte(i), Single)
    ensures Transmitted(ids) == [0x9f, 0xff, 0xff, 0xff, 0xff, 0xff, 0xff]
  {
    TransmittedAllTx(ids);
    var t := Transmitted(ids);
    assert forall i :: 0 <= i < 7 ==> t[i] == IdByte(i);
  }

  /** The quad switch sends 0x66, 0x99, 0x35 and 0xc0 and nothing else. */
  lemma EnableTransmits()
    ensures Transmitted(EnableScript()) == ENABLE_COMMANDS
  {
    var f := FramedAll(ENABLE_COMMANDS);
    QuietTransmits(DirectOn(DIRECT_CLKDIV));
    QuietTransmits(DirectOff);
    FramedAllTransmits(ENABLE_COMMANDS);
    TransmittedAppend([DirectOn(DIRECT_CLKDIV)], f);
    TransmittedAppend([DirectOn(DIRECT_CLKDIV)] + f, [DirectOff]);
  }

  /** Each enable command sits in its own chip-select window. */
  lemma EnableFraming()
    ensures |EnableScript()| == 2 + 4 * |ENABLE_COMMANDS|
    ensures forall k :: 0 <= k < 4 ==>
      EnableScript()[1 + 4 * k .. 4 + 4 * k] == [CsAssert, Tx(ENABLE_COMMANDS[k], Single), CsDeassert]
  {
    var f := FramedAll(ENABLE_COMMANDS);
    FramedAllShape(ENABLE_COMMANDS);
    forall k | 0 <= k < 4
      ensures EnableScript()[1 + 4 * k .. 4 + 4 * k] == [CsAssert, Tx(ENABLE_COMMANDS[k], Single), CsDeassert]
    {
      assert EnableScript()[1 + 4 * k] == f[4 * k];
      assert EnableScript()[2 + 4 * k] == f[4 * k + 1];
      assert EnableScript()[3 + 4 * k] == f[4 * k + 2];
    }
  }

  /** The fixed timing honours the PSRAM's limits with clk_sys at 132 MHz,
      the clock its comments assume (7.52 ns per cycle)... */
  lemma FixedTimingFitsAt132MHz()
    ensures MeetsDeviceLimits(FIXED_TIMING, 132_000_000)
  {
    TimingAt132MHz();
  }

  /** ...but with clk_sys at 264 MHz, where `overclock` leaves it before
      `setup_psram` runs, 7 cycles of deselect are 26.5 ns, short of 50 ns,
      and one half cycle of RX delay is 1.9 ns, short of 3.33 ns. */
  lemma FixedTimingMissesAt264MHz()
    ensures !MeetsDeviceLimits(FIXED_TIMING, 264_000_000)
    ensures FIXED_TIMING.minDeselect * FsPerCycle(264_000_000) < MIN_DESELECT_FS
    ensures FIXED_TIMING.rxDelay * (FsPerCycle(264_000_000) / 2) < RX_DELAY_FS
  {
    TimingAt264MHz();
  }

  /** The identification: direct mode on, 0xf5 sent in quad to leave QPI
      mode, then the id read under one chip select; the answers to the
      sixth and seventh transmits are kept. */
  method ReadId(qmi: QmiController, idResponses: seq<Byte>) returns (kgd: Byte, eid: Byte)
    requires |idResponses| == 7
    modifies qmi`log
    ensures kgd == idResponses[5] && eid == idResponses[6]
    ensures qmi.log == old(qmi.log) + ProbeScript()
  {
    ExitQpi(qmi);
    ghost var log1 := qmi.log;
    kgd, eid := 0, 0;
    for i := 0 to 7
      invariant qmi.log == log1 + IdTransmits(i)
      invariant kgd == (if i > 5 then idResponses[5] else 0)
      invariant eid == (if i > 6 then idResponses[6] else 0)
    {
      qmi.Direct(Tx(IdByte(i), Single));
      if i == 5 {
        kgd := idResponses[i];
      } else if i == 6 {
        eid := idResponses[i];
      }
    }
    qmi.Direct(DirectOff);
  }

  /** Direct mode on, 0xf5 sent in quad in its own chip-select window, and
      chip select asserted again for the id read. */
  method ExitQpi(qmi: QmiController)
    modifies qmi`log
    ensures qmi.log == old(qmi.log) + PROBE_PREFIX
  {
    qmi.Direct(DirectOn(DIRECT_CLKDIV));
    qmi.Direct(CsAssert);
    qmi.Direct(Tx(0xf5, Quad));
    qmi.Direct(CsDeassert);
    qmi.Direct(CsAssert);
  }

  /** The quad-mode switch: direct mode on, the four enable commands each
      in its own chip-select window, direct mode off. */
  method EnableQuad(qmi: QmiController)
    modifies qmi`log
    ensures qmi.log == old(qmi.log) + EnableScript()
  {
    qmi.Direct(DirectOn(DIRECT_CLKDIV));
    ghost var log2 := qmi.log;
    for i := 0 to 4
      invariant qmi.log == log2 + FramedAll(ENABLE_COMMANDS[..i])
    {
      qmi.Direct(CsAssert);
      qmi.Direct(Tx(ENABLE_COMMANDS[i], Single));
      qmi.Direct(CsDeassert);
      qmi.Direct(Settle(SETTLE_NOPS));
      assert ENABLE_COMMANDS[..i + 1][..i] == ENABLE_COMMANDS[..i];
    }
    qmi.Direct(DirectOff);
    assert ENABLE_COMMANDS[..4] == ENABLE_COMMANDS;
  }

  /** setup_psram(): the identification script runs; bytes 5 and 6 of the
      device's answer to the id read are its known-good-die and extended id.
      Unless the die is good nothing more happens. Otherwise the quad switch
      script runs, M1 gets the fixed timing and the quad format, M1 is made
      writable, and the size is decoded unless the test word does not read
      back. */
  method SetupPsram(qmi: QmiController, idResponses: seq<Byte>, readback: nat) returns (size: nat)
    requires |idResponses| == 7
    modifies qmi`log, qmi`m1Timing, qmi`m1Format, qmi`m1Writable
    ensures size == PsramSize(idResponses[5], idResponses[6], readback)
    ensures idResponses[5] != KGD_OK ==>
      && qmi.log == old(qmi.log) + ProbeScript()
      && qmi.m1Timing == old(qmi.m1Timing) && qmi.m1Format == old(qmi.m1Format)
      && qmi.m1Writable == old(qmi.m1Writable)
    ensures idResponses[5] == KGD_OK ==>
      && qmi.log == old(qmi.log) + ProbeScript() + EnableScript()
      && qmi.m1Timing == Some(FIXED_TIMING) && qmi.m1Format == Some(QUAD_FORMAT)
      && qmi.m1Writable
  {
    var kgd, eid := ReadId(qmi, idResponses);
    if kgd != KGD_OK {
      size := 0;
      return;
    }
    EnableQuad(qmi);
    qmi.WriteM1Timing(FIXED_TIMING);
    qmi.WriteM1Format(QUAD_FORMAT);

    size := MIB;
    var sizeId := eid / 32;
    if eid == EID_8MIB || sizeId == 2 {
      size := size * 8;
    } else if sizeId == 0 {
      size := size * 2;
    } else if sizeId == 1 {
      size := size * 4;
    }

    qmi.SetM1Writable();
    if readback != TEST_WORD {
      size := 0;
      return;
    }
  }
}
