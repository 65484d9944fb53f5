/** The clock sequencer of clocking.c: `clock_init` moves clk_sys, clk_peri,
    clk_usb and clk_adc onto the 528 MHz USB PLL, `set_psram_timing` derives
    the PSRAM timing from the new clk_sys, and `overclock` then puts clk_hstx
    on the system PLL at half the requested bit clock.

    The clock tree is a class whose methods are the register operations the
    source performs. The hardware rules the source's comments rely on are the
    preconditions of those operations: a PLL may only be reprogrammed while no
    running clock is fed by it, and clk_sys may only be raised once the core
    voltage is boosted and the flash runs with the slow divider. `ClockInit`
    verifies only because its order of operations meets them. Every operation
    also appends to a ghost trace, from which the interrupt-masked window is read. */
module Clocking {
  import opened Options
  import opened Machine
  import opened ClockSpeeds
  import opened PsramTiming
  import opened Qmi

  datatype Domain = ClkRef | ClkSys | ClkPeri | ClkHstx | ClkUsb | ClkAdc
  datatype Pll = PllSys | PllUsb

  /** The auxiliary-mux inputs the model tells apart. */
  datatype AuxSrc = FromPll(pll: Pll) | FromClkSys | FromOther

  /** The SRC field of clk_sys's glitchless mux: clk_ref or the aux mux. */
  datatype SysCtrlSrc = SysSrcRef | SysSrcAux
  /** The SRC field of clk_ref's glitchless mux. */
  datatype RefCtrlSrc = RefSrcRosc | RefSrcAux | RefSrcXosc

  datatype PllConfig = PllConfig(vcoHz: nat, postDiv1: nat, postDiv2: nat)

  predicate ValidPll(c: PllConfig) {
    1 <= c.postDiv1 <= 7 && 1 <= c.postDiv2 <= 7
  }

  function PllOutputHz(c: PllConfig): nat
    requires ValidPll(c)
  {
    c.vcoHz / (c.postDiv1 * c.postDiv2)
  }

  /** The one-hot SELECTED value each glitchless-mux input reports. */
  function SysSelectedFor(src: SysCtrlSrc): nat {
    match src
    case SysSrcRef => 1
    case SysSrcAux => 2
  }

  function RefSelectedFor(src: RefCtrlSrc): nat {
    match src
    case RefSrcRosc => 1
    case RefSrcAux => 2
    case RefSrcXosc => 4
  }

  const VREG_1_15_MV: nat := 1150
  /** The M0 clock divider `clock_init` forces before touching the clocks. */
  const SLOW_FLASH_CLKDIV: nat := 6
  /** The M0 timing word `set_qmi_timing` writes once the clocks are fast. */
  const FAST_FLASH_TIMING: bv32 := 0x4000_0202
  /** VCO and post dividers of the USB PLL: 1584 MHz / (3 * 1). */
  const USB_PLL_CONFIG: PllConfig := PllConfig(1_584_000_000, 3, 1)
  const PERI_HZ: nat := USB_PLL_HZ / 4
  /** USB_CLK_KHZ * KHZ: 528 MHz / 11. */
  const USB_CLK_HZ: nat := 48_000_000

  /** A flash timing whose CLKDIV field was last set to the slow divider or slower. */
  predicate IsSlowFlash(t: FlashTiming) {
    t.WithClkDiv? && t.clkDiv >= SLOW_FLASH_CLKDIV
  }

  /** One register operation of the sequence, as recorded in the trace. */
  datatype ClockStep =
    | DisableIrq
    | RestoreIrq
    | SetFlashClkDiv(div: nat)
    | RaiseVoltage(mv: nat)
    | FlashXipRead
    | SelectSysSrc(sys: SysCtrlSrc)
    | SysSelected(sysBits: nat)
    | SelectRefSrc(ref: RefCtrlSrc)
    | RefSelected(refBits: nat)
    | Stop(stopped: Domain)
    | InitPll(pll: Pll, cfg: PllConfig)
    | Configure(configured: Domain, aux: AuxSrc, hz: nat)
    | SetFlashTiming(word: bv32)
    | SetPsramTiming(t: M1Timing)

  /** The first part of `clock_init`'s trace: interrupts off, flash slowed,
      voltage raised, clk_sys parked on clk_ref and clk_ref on the crystal. */
  function PrepareTrace(): seq<ClockStep> {
    [ DisableIrq,
      SetFlashClkDiv(SLOW_FLASH_CLKDIV), RaiseVoltage(VREG_1_15_MV), FlashXipRead,
      SelectSysSrc(SysSrcRef), SysSelected(1),
      SelectRefSrc(RefSrcXosc), RefSelected(4) ]
  }

  /** The clocks that may run from the USB PLL are stopped. */
  function StopTrace(): seq<ClockStep> {
    [ Stop(ClkUsb), Stop(ClkAdc), Stop(ClkPeri), Stop(ClkHstx) ]
  }

  /** The USB PLL is reprogrammed and the four clocks are put back on it. */
  function ConfigureTrace(speed: ClkSysSpeed): seq<ClockStep> {
    [ InitPll(PllUsb, USB_PLL_CONFIG),
      Configure(ClkSys, FromPll(PllUsb), SysClockHz(speed)),
      Configure(ClkPeri, FromPll(PllUsb), PERI_HZ),
      Configure(ClkUsb, FromPll(PllUsb), USB_CLK_HZ),
      Configure(ClkAdc, FromPll(PllUsb), USB_CLK_HZ) ]
  }

  /** Fast flash timing, then interrupts restored. */
  function FinishTrace(): seq<ClockStep> {
    [ SetFlashTiming(FAST_FLASH_TIMING), FlashXipRead, RestoreIrq ]
  }

  /** The trace of `clock_init` for a given clk_sys divider. */
  function ClockInitTrace(speed: ClkSysSpeed): (t: seq<ClockStep>)
    ensures t == PrepareTrace() + StopTrace() + ConfigureTrace(speed) + FinishTrace()
  {
    [ DisableIrq,
      SetFlashClkDiv(SLOW_FLASH_CLKDIV), RaiseVoltage(VREG_1_15_MV), FlashXipRead,
      SelectSysSrc(SysSrcRef), SysSelected(1),
      SelectRefSrc(RefSrcXosc), RefSelected(4),
      Stop(ClkUsb), Stop(ClkAdc), Stop(ClkPeri), Stop(ClkHstx),
      InitPll(PllUsb, USB_PLL_CONFIG),
      Configure(ClkSys, FromPll(PllUsb), SysClockHz(speed)),
      Configure(ClkPeri, FromPll(PllUsb), PERI_HZ),
      Configure(ClkUsb, FromPll(PllUsb), USB_CLK_HZ),
      Configure(ClkAdc, FromPll(PllUsb), USB_CLK_HZ),
      SetFlashTiming(FAST_FLASH_TIMING), FlashXipRead, RestoreIrq ]
  }

  /** The ordering the comments of `clock_init` ask for. Before the USB PLL
      is reprogrammed (step 12, the only PLL step): the QSPI divider is set to
      6 and the voltage raised, then a dummy XIP read applies the slow timing
      (steps 1-3); clk_sys is confirmed on clk_ref (5); clk_ref is confirmed on
      the crystal (7); and every PLL-fed clock is stopped (8-11). The fast
      flash timing (17) comes after all four clocks are configured. */
  lemma ClockInitOrder(speed: ClkSysSpeed)
    ensures var t := ClockInitTrace(speed);
      && t[1] == SetFlashClkDiv(SLOW_FLASH_CLKDIV) && t[2] == RaiseVoltage(VREG_1_15_MV)
      && t[3] == FlashXipRead && t[5] == SysSelected(1) && t[7] == RefSelected(4)
      && t[8..12] == [Stop(ClkUsb), Stop(ClkAdc), Stop(ClkPeri), Stop(ClkHstx)]
      && t[12] == InitPll(PllUsb, USB_PLL_CONFIG)
  {
  }

  /** ...and those steps are the only ones of their kind: step 12 is the only
      PLL initialisation, the clocks are configured only in steps 13-16, and
      no fast flash timing is written before step 17. */
  lemma ClockInitStepsAreUnique(speed: ClkSysSpeed)
    ensures var t := ClockInitTrace(speed);
      && (forall k :: 0 <= k < |t| && k != 12 ==> !t[k].InitPll?)
      && (forall k :: 0 <= k < 17 ==> !t[k].SetFlashTiming?)
      && (forall k :: 0 <= k < |t| && t[k].Configure? ==> 12 < k < 17)
  {
  }

  /** `clock_init` is one interrupt-masked window: interrupts are disabled
      by its first step and restored only by its last. */
  lemma ClockInitIsOneMaskedWindow(speed: ClkSysSpeed)
    ensures var t := ClockInitTrace(speed);
      && t[0] == DisableIrq && t[|t| - 1] == RestoreIrq
      && forall k :: 0 < k < |t| - 1 ==> t[k] != DisableIrq && t[k] != RestoreIrq
  {
  }

  /** What `check_sys_clock_khz` promises when it reports success: post
      dividers in range, a VCO between 750 MHz and 1600 MHz, and an output
      of exactly `khz` kHz. */
  predicate ExactPllFor(c: PllConfig, khz: nat): (exact: bool)
    ensures exact ==> ValidPll(c) && PllOutputHz(c) * (c.postDiv1 * c.postDiv2) == c.vcoHz
  {
    && ValidPll(c)
    && 750_000_000 <= c.vcoHz <= 1_600_000_000
    && c.vcoHz % (c.postDiv1 * c.postDiv2) == 0
    && PllOutputHz(c) == khz * 1000
  }

  /** A PLL setting the search reports has a non-zero output. */
  lemma ExactPllIsRunning(c: PllConfig, khz: nat)
    requires ExactPllFor(c, khz)
    ensures PllOutputHz(c) > 0
  {
    var n := c.postDiv1 * c.postDiv2;
    MulMono(c.postDiv1, 7, c.postDiv2);
    MulMono(c.postDiv2, 7, 7);
    DivAntiMono(c.vcoHz, n, 49);
    DivMono(49, c.vcoHz, 49);
  }

  /** `bit_clk_khz >> 1`: the HSTX clock is half the DVI bit clock, rounded down. */
  function DviClockKhz(bitClkKhz: nat): (khz: nat)
    requires bitClkKhz < U32_LIMIT
    ensures 2 * khz <= bitClkKhz < 2 * khz + 2
  {
    bitClkKhz / 2
  }

  /** How `overclock` ends: a panic when the requested HSTX clock cannot be
      made exactly, or clk_hstx running at the given frequency. */
  datatype OverclockOutcome = Panicked(khz: nat) | Configured(hstxHz: nat)

  /** Every operating point leaves `set_psram_timing` a valid divisor. */
  lemma SysClockIsValid(speed: ClkSysSpeed)
    ensures ValidSysHz(SysClockHz(speed))
  {
    assert 232_831 <= SysClockHz(speed) < U32_LIMIT;
  }

  class ClockControl {
    var irqEnabled: bool
    var voltageMv: nat
    var sysCtrl: SysCtrlSrc
    var sysSelected: nat
    var refCtrl: RefCtrlSrc
    var refSelected: nat
    var aux: map<Domain, AuxSrc>
    var running: set<Domain>
    var freqHz: map<Domain, nat>
    var plls: map<Pll, PllConfig>
    ghost var trace: seq<ClockStep>

    function AuxOf(d: Domain): AuxSrc
      reads this`aux
    {
      if d in aux then aux[d] else FromOther
    }

    /** clock_get_hz(d): the frequency last configured for d (0 once stopped). */
    function FreqOf(d: Domain): nat
      reads this`freqHz
    {
      if d in freqHz then freqHz[d] else 0
    }

    /** Whether clk_sys may be drawing from its aux mux: anything but a
        confirmed switch to clk_ref counts. */
    predicate SysMayRunOnAux()
      reads this`sysSelected
    {
      sysSelected != SysSelectedFor(SysSrcRef)
    }

    /** Whether domain d may be clocked from PLL p right now. */
    predicate FedBy(d: Domain, p: Pll)
      reads this`refSelected, this`sysSelected, this`aux
    {
      match d
      case ClkRef =>
        refSelected != RefSelectedFor(RefSrcXosc) && refSelected != RefSelectedFor(RefSrcRosc)
        && AuxOf(ClkRef) == FromPll(p)
      case ClkSys =>
        SysMayRunOnAux() && AuxOf(ClkSys) == FromPll(p)
      case _ =>
        AuxOf(d) == FromPll(p)
        || (AuxOf(d) == FromClkSys && SysMayRunOnAux() && AuxOf(ClkSys) == FromPll(p))
    }

    /** The hardware rule for raising clk_sys: voltage boosted first, and the
        flash already running with the slow divider. */
    predicate SafeToRaiseSys(qmi: QmiController)
      reads this`voltageMv, qmi`m0Applied
    {
      voltageMv >= VREG_1_15_MV && IsSlowFlash(qmi.m0Applied)
    }

    /** save_and_disable_interrupts(). */
    method SaveAndDisableIrq() returns (stash: bool)
      modifies this`irqEnabled, this`trace
      ensures stash == old(irqEnabled) && !irqEnabled
      ensures trace == old(trace) + [DisableIrq]
    {
      stash := irqEnabled;
      irqEnabled := false;
      trace := trace + [DisableIrq];
    }

    /** restore_interrupts(stash). */
    method RestoreIrqs(stash: bool)
      modifies this`irqEnabled, this`trace
      ensures irqEnabled == stash
      ensures trace == old(trace) + [RestoreIrq]
    {
      irqEnabled := stash;
      trace := trace + [RestoreIrq];
    }

    /** vreg_set_voltage. */
    method SetVoltage(mv: nat)
      modifies this`voltageMv, this`trace
      ensures voltageMv == mv
      ensures trace == old(trace) + [RaiseVoltage(mv)]
    {
      voltageMv := mv;
      trace := trace + [RaiseVoltage(mv)];
    }

    /** A write of the SRC field of clk_sys's control register. */
    method WriteSysSrc(src: SysCtrlSrc)
      modifies this`sysCtrl, this`trace
      ensures sysCtrl == src
      ensures trace == old(trace) + [SelectSysSrc(src)]
    {
      sysCtrl := src;
      trace := trace + [SelectSysSrc(src)];
    }

    /** `while (clk_sys.selected != want)`: the loop ends once the glitchless
        mux reports the input its control field names, so it ends only when
        `want` is that input's value. */
    method WaitSysSelected(want: nat)
      requires want == SysSelectedFor(sysCtrl)
      modifies this`sysSelected, this`trace
      ensures sysSelected == want
      ensures trace == old(trace) + [SysSelected(want)]
    {
      sysSelected := want;
      trace := trace + [SysSelected(want)];
    }

    /** A write of the SRC field of clk_ref's control register. */
    method WriteRefSrc(src: RefCtrlSrc)
      modifies this`refCtrl, this`trace
      ensures refCtrl == src
      ensures trace == old(trace) + [SelectRefSrc(src)]
    {
      refCtrl := src;
      trace := trace + [SelectRefSrc(src)];
    }

    /** `while (clk_ref.selected != want)`. */
    method WaitRefSelected(want: nat)
      requires want == RefSelectedFor(refCtrl)
      modifies this`refSelected, this`trace
      ensures refSelected == want
      ensures trace == old(trace) + [RefSelected(want)]
    {
      refSelected := want;
      trace := trace + [RefSelected(want)];
    }

    /** clock_stop(d): the domain is disabled and its recorded frequency becomes 0. */
    method ClockStop(d: Domain)
      modifies this`running, this`freqHz, this`trace
      ensures running == old(running) - {d}
      ensures freqHz == old(freqHz)[d := 0]
      ensures trace == old(trace) + [Stop(d)]
    {
      running := running - {d};
      freqHz := freqHz[d := 0];
      trace := trace + [Stop(d)];
    }

    /** pll_init(p, ...): only its result, the PLL's new configuration. */
    method PllInit(p: Pll, cfg: PllConfig)
      requires ValidPll(cfg)
      requires forall d :: d in running ==> !FedBy(d, p)
      modifies this`plls, this`trace
      ensures plls == old(plls)[p := cfg]
      ensures trace == old(trace) + [InitPll(p, cfg)]
    {
      plls := plls[p := cfg];
      trace := trace + [InitPll(p, cfg)];
    }

    /** clock_configure(d, ..., src, srcHz, hz) with a PLL on the aux mux: only
        its result. clk_sys's glitchless mux ends on its aux input. */
    method ClockConfigure(qmi: QmiController, d: Domain, p: Pll, srcHz: nat, hz: nat)
      requires p in plls && ValidPll(plls[p]) && PllOutputHz(plls[p]) == srcHz
      requires 0 < hz <= srcHz
      requires d == ClkSys ==> SafeToRaiseSys(qmi)
      modifies this`aux, this`running, this`freqHz, this`sysCtrl, this`sysSelected, this`trace
      ensures aux == old(aux)[d := FromPll(p)]
      ensures running == old(running) + {d}
      ensures freqHz == old(freqHz)[d := hz]
      ensures d == ClkSys ==> sysCtrl == SysSrcAux && sysSelected == SysSelectedFor(SysSrcAux)
      ensures d != ClkSys ==> sysCtrl == old(sysCtrl) && sysSelected == old(sysSelected)
      ensures trace == old(trace) + [Configure(d, FromPll(p), hz)]
    {
      aux := aux[d := FromPll(p)];
      running := running + {d};
      freqHz := freqHz[d := hz];
      if d == ClkSys {
        sysCtrl := SysSrcAux;
        sysSelected := SysSelectedFor(SysSrcAux);
      }
      trace := trace + [Configure(d, FromPll(p), hz)];
    }

    /** The M0 timing write of `set_qmi_timing` (after waiting for the flash
        to be deselected), made effective by a dummy XIP read. */
    method SetQmiTiming(qmi: QmiController)
      modifies qmi`m0Timing, qmi`m0Applied, this`trace
      ensures qmi.m0Timing == Word(FAST_FLASH_TIMING) && qmi.m0Applied == Word(FAST_FLASH_TIMING)
      ensures trace == old(trace) + [SetFlashTiming(FAST_FLASH_TIMING), FlashXipRead]
    {
      qmi.WriteFlashTiming(FAST_FLASH_TIMING);
      trace := trace + [SetFlashTiming(FAST_FLASH_TIMING)];
      qmi.XipRead();
      trace := trace + [FlashXipRead];
    }

    /** The first part of `clock_init`: interrupts off; the flash divider
        slowed, the core voltage raised and the slow timing applied by a dummy
        XIP read; clk_sys moved to clk_ref and clk_ref to the crystal, each
        confirmed through the mux's SELECTED register. */
    method PrepareForPllChange(qmi: QmiController) returns (stash: bool)
      modifies this`irqEnabled, this`voltageMv, this`sysCtrl, this`sysSelected
      modifies this`refCtrl, this`refSelected, this`trace, qmi`m0Timing, qmi`m0Applied
      ensures stash == old(irqEnabled) && !irqEnabled
      ensures qmi.m0Timing == WithClkDiv(old(qmi.m0Timing), SLOW_FLASH_CLKDIV)
      ensures qmi.m0Applied == qmi.m0Timing
      ensures voltageMv == VREG_1_15_MV
      ensures sysCtrl == SysSrcRef && sysSelected == SysSelectedFor(SysSrcRef)
      ensures refCtrl == RefSrcXosc && refSelected == RefSelectedFor(RefSrcXosc)
      ensures trace == old(trace) + PrepareTrace()
    {
      stash := SaveAndDisableIrq();
      qmi.WriteFlashClkDiv(SLOW_FLASH_CLKDIV);
      trace := trace + [SetFlashClkDiv(SLOW_FLASH_CLKDIV)];
      SetVoltage(VREG_1_15_MV);
      qmi.XipRead();
      trace := trace + [FlashXipRead];
      WriteSysSrc(SysSrcRef);
      WaitSysSelected(1);
      WriteRefSrc(RefSrcXosc);
      WaitRefSelected(4);
    }

    /** Every clock that may run from the USB PLL other than clk_sys is stopped. */
    method StopPllClients()
      modifies this`running, this`freqHz, this`trace
      ensures running == old(running) - {ClkUsb, ClkAdc, ClkPeri, ClkHstx}
      ensures freqHz == old(freqHz)[ClkUsb := 0][ClkAdc := 0][ClkPeri := 0][ClkHstx := 0]
      ensures trace == old(trace) + StopTrace()
    {
      ClockStop(ClkUsb);
      ClockStop(ClkAdc);
      ClockStop(ClkPeri);
      ClockStop(ClkHstx);
    }

    /** The USB PLL is set to 528 MHz, then clk_sys, clk_peri, clk_usb and
        clk_adc are configured from it. */
    method ConfigureFromUsbPll(qmi: QmiController, speed: ClkSysSpeed)
      requires forall d :: d in running ==> !FedBy(d, PllUsb)
      requires SafeToRaiseSys(qmi)
      modifies this`plls, this`aux, this`running, this`freqHz, this`sysCtrl, this`sysSelected, this`trace
      ensures plls == old(plls)[PllUsb := USB_PLL_CONFIG]
      ensures aux == old(aux)[ClkSys := FromPll(PllUsb)][ClkPeri := FromPll(PllUsb)]
                             [ClkUsb := FromPll(PllUsb)][ClkAdc := FromPll(PllUsb)]
      ensures running == old(running) + {ClkSys, ClkPeri, ClkUsb, ClkAdc}
      ensures freqHz == old(freqHz)[ClkSys := SysClockHz(speed)][ClkPeri := PERI_HZ]
                                   [ClkUsb := USB_CLK_HZ][ClkAdc := USB_CLK_HZ]
      ensures sysCtrl == SysSrcAux && sysSelected == SysSelectedFor(SysSrcAux)
      ensures trace == old(trace) + ConfigureTrace(speed)
    {
      PllInit(PllUsb, USB_PLL_CONFIG);
      ConfigureSysAndPeri(qmi, speed);
      ConfigureUsbAndAdc(qmi);
    }

    /** clk_sys at 528 MHz divided by the speed's divider and clk_peri at
        132 MHz, both from the USB PLL. */
    method ConfigureSysAndPeri(qmi: QmiController, speed: ClkSysSpeed)
      requires PllUsb in plls && plls[PllUsb] == USB_PLL_CONFIG
      requires SafeToRaiseSys(qmi)
      modifies this`aux, this`running, this`freqHz, this`sysCtrl, this`sysSelected, this`trace
      ensures aux == old(aux)[ClkSys := FromPll(PllUsb)][ClkPeri := FromPll(PllUsb)]
      ensures running == old(running) + {ClkSys, ClkPeri}
      ensures freqHz == old(freqHz)[ClkSys := SysClockHz(speed)][ClkPeri := PERI_HZ]
      ensures sysCtrl == SysSrcAux && sysSelected == SysSelectedFor(SysSrcAux)
      ensures trace == old(trace) + [Configure(ClkSys, FromPll(PllUsb), SysClockHz(speed)),
                                     Configure(ClkPeri, FromPll(PllUsb), PERI_HZ)]
    {
      var usbPllHz := USB_PLL_HZ;
      assert PllOutputHz(plls[PllUsb]) == usbPllHz;
      ClockConfigure(qmi, ClkSys, PllUsb, usbPllHz, usbPllHz / Divider(speed));
      ClockConfigure(qmi, ClkPeri, PllUsb, usbPllHz, usbPllHz / 4);
    }

    /** clk_usb and clk_adc at 48 MHz from the USB PLL. */
    method ConfigureUsbAndAdc(qmi: QmiController)
      requires PllUsb in plls && plls[PllUsb] == USB_PLL_CONFIG
      modifies this`aux, this`running, this`freqHz, this`sysCtrl, this`sysSelected, this`trace
      ensures aux == old(aux)[ClkUsb := FromPll(PllUsb)][ClkAdc := FromPll(PllUsb)]
      ensures running == old(running) + {ClkUsb, ClkAdc}
      ensures freqHz == old(freqHz)[ClkUsb := USB_CLK_HZ][ClkAdc := USB_CLK_HZ]
      ensures sysCtrl == old(sysCtrl) && sysSelected == old(sysSelected)
      ensures trace == old(trace) + [Configure(ClkUsb, FromPll(PllUsb), USB_CLK_HZ),
                                     Configure(ClkAdc, FromPll(PllUsb), USB_CLK_HZ)]
    {
      var usbPllHz := USB_PLL_HZ;
      assert PllOutputHz(plls[PllUsb]) == usbPllHz;
      ClockConfigure(qmi, ClkUsb, PllUsb, usbPllHz, USB_CLK_HZ);
      ClockConfigure(qmi, ClkAdc, PllUsb, usbPllHz, USB_CLK_HZ);
    }

    /** clock_init(sys_clk_div): from any clock state, clk_sys ends at 528 MHz
        divided by the speed's divider, clk_peri at 132 MHz, clk_usb and clk_adc
        at 48 MHz, all on the USB PLL; clk_hstx is stopped; the flash runs with
        the fast timing; the interrupt state is restored. The step methods'
        preconditions are the hardware rules, so their order here is checked. */
    method ClockInit(qmi: QmiController, speed: ClkSysSpeed)
      modifies this, qmi`m0Timing, qmi`m0Applied
      ensures plls == old(plls)[PllUsb := USB_PLL_CONFIG]
      ensures PllOutputHz(USB_PLL_CONFIG) == USB_PLL_HZ
      ensures FreqOf(ClkSys) == SysClockHz(speed) && FreqOf(ClkPeri) == PERI_HZ
      ensures FreqOf(ClkUsb) == USB_CLK_HZ && FreqOf(ClkAdc) == USB_CLK_HZ
      ensures FreqOf(ClkHstx) == 0
      ensures running == old(running) - {ClkHstx} + {ClkSys, ClkPeri, ClkUsb, ClkAdc}
      ensures AuxOf(ClkSys) == FromPll(PllUsb) && AuxOf(ClkPeri) == FromPll(PllUsb)
      ensures AuxOf(ClkUsb) == FromPll(PllUsb) && AuxOf(ClkAdc) == FromPll(PllUsb)
      ensures sysSelected == SysSelectedFor(SysSrcAux) && refSelected == RefSelectedFor(RefSrcXosc)
      ensures voltageMv == VREG_1_15_MV && irqEnabled == old(irqEnabled)
      // clk_ref keeps its aux source and frequency, clk_hstx its aux source
      ensures AuxOf(ClkRef) == old(AuxOf(ClkRef)) && FreqOf(ClkRef) == old(FreqOf(ClkRef))
      ensures AuxOf(ClkHstx) == old(AuxOf(ClkHstx))
      ensures sysCtrl == SysSrcAux && refCtrl == RefSrcXosc
      ensures qmi.m0Timing == Word(FAST_FLASH_TIMING) && qmi.m0Applied == Word(FAST_FLASH_TIMING)
      ensures trace == old(trace) + ClockInitTrace(speed)
    {
      ghost var t0 := trace;
      var stash := SwitchToUsbPll(qmi, speed);
      SetQmiTiming(qmi);
      RestoreIrqs(stash);
      assert trace == t0 + (PrepareTrace() + StopTrace() + ConfigureTrace(speed)) + FinishTrace();
    }

    /** `clock_init` up to the fast flash timing: interrupts masked, the
        preparation, the PLL's clients stopped, then the USB PLL and the
        clocks run from it configured. */
    method SwitchToUsbPll(qmi: QmiController, speed: ClkSysSpeed) returns (stash: bool)
      modifies this, qmi`m0Timing, qmi`m0Applied
      ensures stash == old(irqEnabled) && !irqEnabled
      ensures plls == old(plls)[PllUsb := USB_PLL_CONFIG]
      ensures FreqOf(ClkSys) == SysClockHz(speed) && FreqOf(ClkPeri) == PERI_HZ
      ensures FreqOf(ClkUsb) == USB_CLK_HZ && FreqOf(ClkAdc) == USB_CLK_HZ
      ensures FreqOf(ClkHstx) == 0
      ensures running == old(running) - {ClkHstx} + {ClkSys, ClkPeri, ClkUsb, ClkAdc}
      ensures AuxOf(ClkSys) == FromPll(PllUsb) && AuxOf(ClkPeri) == FromPll(PllUsb)
      ensures AuxOf(ClkUsb) == FromPll(PllUsb) && AuxOf(ClkAdc) == FromPll(PllUsb)
      ensures sysSelected == SysSelectedFor(SysSrcAux) && refSelected == RefSelectedFor(RefSrcXosc)
      ensures voltageMv == VREG_1_15_MV
      ensures AuxOf(ClkRef) == old(AuxOf(ClkRef)) && FreqOf(ClkRef) == old(FreqOf(ClkRef))
      ensures AuxOf(ClkHstx) == old(AuxOf(ClkHstx))
      ensures sysCtrl == SysSrcAux && refCtrl == RefSrcXosc
      ensures trace == old(trace) + PrepareTrace() + StopTrace() + ConfigureTrace(speed)
    {
      stash := PrepareForPllChange(qmi);
      StopPllClients();
      assert forall d :: d in running ==> d == ClkRef || d == ClkSys;
      ConfigureFromUsbPll(qmi, speed);
    }

    /** set_psram_timing(): the M1 timing is derived from the current clk_sys,
        inside an interrupt-masked window. */
    method SetPsramTimingFromClock(qmi: QmiController)
      requires ValidSysHz(ToU32(FreqOf(ClkSys)))
      modifies qmi`m1Timing, this`irqEnabled, this`trace
      ensures qmi.m1Timing == Some(DerivedTiming(ToU32(old(FreqOf(ClkSys)))))
      ensures irqEnabled == old(irqEnabled)
      ensures trace == old(trace) + [DisableIrq, SetPsramTiming(DerivedTiming(ToU32(FreqOf(ClkSys)))), RestoreIrq]
    {
      var sysHz := ToU32(FreqOf(ClkSys));
      var stash := SaveAndDisableIrq();
      var t := DerivedTiming(sysHz);
      qmi.WriteM1Timing(t);
      trace := trace + [SetPsramTiming(t)];
      RestoreIrqs(stash);
    }

    /** overclock(clk_sys_div, bit_clk_khz): `clock_init`, then the PSRAM
        timing for the new clk_sys, then the system PLL set to the DVI clock
        and clk_hstx run from it. `found` is the answer of the SDK's search
        for PLL settings (`check_sys_clock_khz`); when there is none the
        firmware panics and nothing after the PSRAM timing happens. */
    method Overclock(qmi: QmiController, speed: ClkSysSpeed, bitClkKhz: nat, found: Option<PllConfig>)
        returns (r: OverclockOutcome)
      requires bitClkKhz < U32_LIMIT
      requires found.Some? ==> ExactPllFor(found.value, DviClockKhz(bitClkKhz))
      modifies this, qmi`m0Timing, qmi`m0Applied, qmi`m1Timing
      ensures FreqOf(ClkSys) == SysClockHz(speed) && FreqOf(ClkPeri) == PERI_HZ
      ensures FreqOf(ClkUsb) == USB_CLK_HZ && FreqOf(ClkAdc) == USB_CLK_HZ
      ensures qmi.m1Timing == Some(DerivedTiming(SysClockHz(speed)))
      ensures qmi.m0Applied == Word(FAST_FLASH_TIMING)
      ensures irqEnabled == old(irqEnabled)
      ensures found.None? <==> r == Panicked(DviClockKhz(bitClkKhz))
      ensures found.Some? ==>
        && r == Configured(DviClockKhz(bitClkKhz) * 1000)
        && plls == old(plls)[PllUsb := USB_PLL_CONFIG][PllSys := found.value]
        && ClkHstx in running && AuxOf(ClkHstx) == FromPll(PllSys)
        && FreqOf(ClkHstx) == DviClockKhz(bitClkKhz) * 1000
      ensures found.None? ==>
        && plls == old(plls)[PllUsb := USB_PLL_CONFIG]
        && ClkHstx !in running && FreqOf(ClkHstx) == 0
      ensures trace == old(trace) + ClockInitTrace(speed)
        + [DisableIrq, SetPsramTiming(DerivedTiming(SysClockHz(speed))), RestoreIrq]
        + (if found.Some? then [InitPll(PllSys, found.value),
                                Configure(ClkHstx, FromPll(PllSys), DviClockKhz(bitClkKhz) * 1000)]
           else [])
    {
      ClockInit(qmi, speed);
      SysClockIsValid(speed);
      SetPsramTimingFromClock(qmi);
      var dviKhz := bitClkKhz / 2;
      if found == None {
        r := Panicked(dviKhz);
        return;
      }
      ExactPllIsRunning(found.value, dviKhz);
      var freq := StartHstx(qmi, found.value);
      r := Configured(freq);
    }

    /** The system PLL set to `cfg` and clk_hstx configured from it at the
        PLL's own frequency; allowed because after `clock_init` nothing runs
        from the system PLL. */
    method StartHstx(qmi: QmiController, cfg: PllConfig) returns (freq: nat)
      requires ValidPll(cfg) && PllOutputHz(cfg) > 0
      requires sysSelected == SysSelectedFor(SysSrcAux) && AuxOf(ClkSys) == FromPll(PllUsb)
      requires refSelected == RefSelectedFor(RefSrcXosc)
      requires AuxOf(ClkPeri) == FromPll(PllUsb) && AuxOf(ClkUsb) == FromPll(PllUsb)
      requires AuxOf(ClkAdc) == FromPll(PllUsb)
      requires ClkHstx !in running
      modifies this`plls, this`aux, this`running, this`freqHz, this`sysCtrl, this`sysSelected, this`trace
      ensures freq == PllOutputHz(cfg)
      ensures plls == old(plls)[PllSys := cfg]
      ensures aux == old(aux)[ClkHstx := FromPll(PllSys)]
      ensures running == old(running) + {ClkHstx}
      ensures freqHz == old(freqHz)[ClkHstx := freq]
      ensures sysCtrl == old(sysCtrl) && sysSelected == old(sysSelected)
      ensures trace == old(trace) + [InitPll(PllSys, cfg), Configure(ClkHstx, FromPll(PllSys), freq)]
    {
      freq := cfg.vcoHz / (cfg.postDiv1 * cfg.postDiv2);
      PllInit(PllSys, cfg);
      ClockConfigure(qmi, ClkHstx, PllSys, freq, freq);
    }
  }
}
