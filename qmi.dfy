/** The QMI memory interface: the flash window's (M0) timing register, the
    PSRAM window's (M1) timing and format registers, the M1 write enable in
    the XIP controller, and the direct-mode command interface, whose traffic
    is recorded as a bus log. Register bit positions are not modelled. */
module Qmi {
  import opened Options
  import opened PsramTiming

  /** Contents of the M0 (flash) timing register. */
  datatype FlashTiming =
    | BootTiming                                   // as left by the boot ROM
    | WithClkDiv(base: FlashTiming, clkDiv: nat)   // a masked write of the CLKDIV field only
    | Word(value: bv32)                            // a whole-register write

  /** The M1 read/write framing: command opcodes, dummy bits before read data, quad lines. */
  datatype M1Format = M1Format(readCmd: bv8, writeCmd: bv8, readDummyBits: nat, quad: bool)

  /** Width of a direct-mode transmit. */
  datatype Width = Single | Quad

  /** What the direct-mode interface does on the bus. */
  datatype BusEvent =
    | DirectOn(clkDiv: nat)   // direct_csr = CLKDIV | EN: direct mode on, CS released
    | CsAssert                // direct_csr |= ASSERT_CS1N
    | Tx(byte: bv8, width: Width)
    | CsDeassert              // direct_csr &= ~ASSERT_CS1N
    | Settle(nops: nat)       // a fixed no-op delay
    | DirectOff               // direct_csr &= ~(ASSERT_CS1N | EN)

  class QmiController {
    var m0Timing: FlashTiming
    /** The M0 timing the flash interface runs with: the register as of the last XIP access. */
    var m0Applied: FlashTiming
    var m1Timing: Option<M1Timing>
    var m1Format: Option<M1Format>
    var m1Writable: bool
    var log: seq<BusEvent>

    /** hw_write_masked(&m[0].timing, div, CLKDIV_BITS). */
    method WriteFlashClkDiv(div: nat)
      modifies this`m0Timing
      ensures m0Timing == WithClkDiv(old(m0Timing), div)
    {
      m0Timing := WithClkDiv(m0Timing, div);
    }

    /** m[0].timing = word. */
    method WriteFlashTiming(word: bv32)
      modifies this`m0Timing
      ensures m0Timing == Word(word)
    {
      m0Timing := Word(word);
    }

    /** A dummy read through XIP: the flash interface latches its timing register. */
    method XipRead()
      modifies this`m0Applied
      ensures m0Applied == m0Timing
    {
      m0Applied := m0Timing;
    }

    /** m[1].timing = t. */
    method WriteM1Timing(t: M1Timing)
      modifies this`m1Timing
      ensures m1Timing == Some(t)
    {
      m1Timing := Some(t);
    }

    /** m[1].rfmt, rcmd, wfmt and wcmd. */
    method WriteM1Format(f: M1Format)
      modifies this`m1Format
      ensures m1Format == Some(f)
    {
      m1Format := Some(f);
    }

    /** xip_ctrl_hw->ctrl |= WRITABLE_M1. */
    method SetM1Writable()
      modifies this`m1Writable
      ensures m1Writable
    {
      m1Writable := true;
    }

    /** One direct-mode register access. */
    method Direct(e: BusEvent)
      modifies this`log
      ensures log == old(log) + [e]
    {
      log := log + [e];
    }
  }
}
