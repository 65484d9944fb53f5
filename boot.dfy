/** The start of `main` in an overclocked build: `overclock` to 264 MHz with
    a 252 MHz DVI bit clock, then `setup_psram`. The PSRAM step therefore
    runs after the timing was derived for the new clock, and replaces it. */
module Boot {
  import opened Options
  import opened ClockSpeeds
  import opened PsramTiming
  import opened Qmi
  import opened Clocking
  import opened Psram

  /** The DVI bit clock `main` asks for, in kHz. */
  const BIT_CLK_KHZ: nat := 252_000

  /** `overclock(CLK_SYS_264MHZ, 252000)` and then, when the clock set-up
      did not panic, `setup_psram()`. The PSRAM's answers are inputs; the
      result is `None` when the firmware stopped in the panic. */
  method StartUp(clocks: ClockControl, qmi: QmiController, found: Option<PllConfig>,
                 idResponses: seq<Byte>, readback: nat) returns (psramSize: Option<nat>)
    requires found.Some? ==> ExactPllFor(found.value, DviClockKhz(BIT_CLK_KHZ))
    requires |idResponses| == 7
    modifies clocks, qmi`m0Timing, qmi`m0Applied, qmi`m1Timing, qmi`m1Format, qmi`m1Writable, qmi`log
    ensures clocks.FreqOf(ClkSys) == 264_000_000 && clocks.FreqOf(ClkPeri) == 132_000_000
    ensures found.None? <==> psramSize.None?
    ensures found.None? ==> qmi.m1Timing == Some(DerivedTiming(264_000_000))
    ensures found.Some? ==>
      && clocks.FreqOf(ClkHstx) == 126_000_000
      && psramSize == Some(PsramSize(idResponses[5], idResponses[6], readback))
    // with a PSRAM that identifies itself, the fixed timing is what stays,
    // and at 264 MHz it is outside the device's limits
    ensures found.Some? && idResponses[5] == KGD_OK ==>
      && qmi.m1Timing == Some(FIXED_TIMING)
      && !MeetsDeviceLimits(qmi.m1Timing.value, clocks.FreqOf(ClkSys))
    // without one, the derived timing stays, and it is within them
    ensures found.Some? && idResponses[5] != KGD_OK ==>
      && qmi.m1Timing == Some(DerivedTiming(264_000_000))
      && MeetsDeviceLimits(qmi.m1Timing.value, clocks.FreqOf(ClkSys))
  {
    var r := clocks.Overclock(qmi, Sys264MHz, BIT_CLK_KHZ, found);
    if r.Panicked? {
      return None;
    }
    var size := SetupPsram(qmi, idResponses, readback);
    psramSize := Some(size);
    TimingAt264MHz();
    FixedTimingMissesAt264MHz();
    DerivedTimingMeetsLimits(264_000_000);
  }
}
