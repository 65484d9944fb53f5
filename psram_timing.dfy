/** The PSRAM (QMI window M1) timing derivation of `set_psram_timing`: four
    register fields computed from the system clock frequency with the C
    types of the source (uint32_t intermediates, uint8_t fields). */
module PsramTiming {
  import opened Machine

  /** Longest continuous chip-select assertion, in femtoseconds / 64 (8 us). */
  const MAX_SELECT_FS64: nat := 125_000_000
  /** Shortest chip-select deassertion between transfers, in fs (50 ns). */
  const MIN_DESELECT_FS: nat := 50_000_000
  /** Delay from SCK edge to RX sampling, in fs (3.33 ns). */
  const RX_DELAY_FS: nat := 3_333_333
  /** Fastest serial clock the PSRAM accepts. */
  const MAX_SCK_HZ: nat := 133_000_000
  const SEC_TO_FS: nat := 1_000_000_000_000_000

  /** The fixed fields of the M1 timing record. */
  const PAGE_BREAK_BYTES: nat := 1024
  const SELECT_HOLD: nat := 3
  const COOLDOWN: nat := 1

  /** The M1 timing register as a record of its fields; bit positions are not modelled. */
  datatype M1Timing = M1Timing(
    pageBreak: nat,
    selectHold: nat,
    cooldown: nat,
    rxDelay: nat,
    maxSelect: nat,
    minDeselect: nat,
    clkDiv: nat)

  /** `SEC_TO_FS / sysHz`, a 64-bit quotient stored in a uint32_t: for a
      clk_sys of at least 232 831 Hz the quotient fits, and below 2^32 Hz it
      is at least 232 830. */
  function FsPerCycle(sysHz: nat): (fs: nat)
    requires sysHz > 0
    ensures fs < U32_LIMIT
    ensures sysHz >= 232_831 ==> fs == SEC_TO_FS / sysHz
    ensures 232_831 <= sysHz < U32_LIMIT ==> fs >= 232_830
  {
    if sysHz >= 232_831 then
      DivAntiMono(SEC_TO_FS, 232_831, sysHz);
      if sysHz < U32_LIMIT then
        DivAntiMono(SEC_TO_FS, sysHz, U32_LIMIT - 1);
        ToU32(SEC_TO_FS / sysHz)
      else
        ToU32(SEC_TO_FS / sysHz)
    else
      ToU32(SEC_TO_FS / sysHz)
  }

  /** The uint32_t clk_sys values `set_psram_timing` divides by without a
      zero divisor: sysHz itself, and the half cycle `fsPerCycle / 2`. */
  predicate ValidSysHz(sysHz: nat) {
    0 < sysHz < U32_LIMIT && FsPerCycle(sysHz) >= 2
  }

  /** `(sysHz + MAX_SCK_HZ - 1) / MAX_SCK_HZ`, a uint32_t sum stored in a uint8_t. */
  function ClockDivider(sysHz: nat): (d: nat)
    requires sysHz < U32_LIMIT
    ensures d < U8_LIMIT
  {
    ToU8(ToU32(sysHz + MAX_SCK_HZ - 1) / MAX_SCK_HZ)
  }

  /** `MAX_SELECT_FS64 / fsPerCycle` stored in a uint8_t. */
  function MaxSelect(fs: nat): (n: nat)
    requires fs > 0
    ensures n < U8_LIMIT && n <= MAX_SELECT_FS64 / fs
  {
    ToU8(MAX_SELECT_FS64 / fs)
  }

  /** `(MIN_DESELECT_FS + fsPerCycle - 1) / fsPerCycle`, uint32_t sum, uint8_t result. */
  function MinDeselect(fs: nat): (n: nat)
    requires fs > 0
    ensures n < U8_LIMIT
  {
    ToU8(ToU32(MIN_DESELECT_FS + fs - 1) / fs)
  }

  /** `(RX_DELAY_FS + fsPerHalfCycle - 1) / fsPerHalfCycle`, uint32_t sum, uint8_t result. */
  function RxDelay(half: nat): (n: nat)
    requires half > 0
    ensures n < U8_LIMIT
  {
    ToU8(ToU32(RX_DELAY_FS + half - 1) / half)
  }

  /** `x | 1`: the RXDELAY field receives both `rxDelay` and a literal 1, OR-ed together. */
  function OrOne(x: nat): (r: nat)
    ensures r % 2 == 1
    ensures x <= r <= x + 1
  {
    x - x % 2 + 1
  }

  /** The M1 timing fields `set_psram_timing` derives for a given clk_sys:
      the fixed page break, select hold and cooldown, and four computed
      fields that each fit their uint8_t, the RXDELAY one odd. */
  function DerivedTiming(sysHz: nat): (t: M1Timing)
    requires ValidSysHz(sysHz)
    ensures t.pageBreak == PAGE_BREAK_BYTES && t.selectHold == SELECT_HOLD && t.cooldown == COOLDOWN
    ensures t.rxDelay % 2 == 1
    ensures t.rxDelay < U8_LIMIT && t.maxSelect < U8_LIMIT && t.minDeselect < U8_LIMIT && t.clkDiv < U8_LIMIT
  {
    var fs := FsPerCycle(sysHz);
    M1Timing(PAGE_BREAK_BYTES, SELECT_HOLD, COOLDOWN, OrOne(RxDelay(fs / 2)),
             MaxSelect(fs), MinDeselect(fs), ClockDivider(sysHz))
  }

  /** The device's electrical limits, expressed the way the source counts
      cycles (with the truncated femtoseconds per cycle). */
  predicate MeetsDeviceLimits(t: M1Timing, sysHz: nat)
    requires ValidSysHz(sysHz)
  {
    var fs := FsPerCycle(sysHz);
    && t.clkDiv * MAX_SCK_HZ >= sysHz
    && t.maxSelect * fs <= MAX_SELECT_FS64
    && t.minDeselect * fs >= MIN_DESELECT_FS
    && t.rxDelay * (fs / 2) >= RX_DELAY_FS
  }

  /** The clock divider is the ceiling of sysHz / 133 MHz, wherever the
      uint32_t addition does not wrap. */
  lemma ClockDividerIsCeiling(sysHz: nat)
    requires 0 < sysHz <= U32_LIMIT - MAX_SCK_HZ
    ensures ClockDivider(sysHz) * MAX_SCK_HZ >= sysHz
    ensures (ClockDivider(sysHz) - 1) * MAX_SCK_HZ < sysHz
  {
    CeilDiv(sysHz, MAX_SCK_HZ);
    DivMono(sysHz + MAX_SCK_HZ - 1, U32_LIMIT - 1, MAX_SCK_HZ);
  }

  /** maxSelect never exceeds the 8 us limit and, while the quotient fits its
      uint8_t, is the largest count that does not. */
  lemma MaxSelectIsFloor(fs: nat)
    requires fs > 0
    ensures MaxSelect(fs) * fs <= MAX_SELECT_FS64
    ensures MAX_SELECT_FS64 / fs < U8_LIMIT ==> (MaxSelect(fs) + 1) * fs > MAX_SELECT_FS64
  {
    var q := MAX_SELECT_FS64 / fs;
    FloorDiv(MAX_SELECT_FS64, fs);
    assert MaxSelect(fs) == q % U8_LIMIT <= q;
    MulMono(MaxSelect(fs), q, fs);
    if q < U8_LIMIT {
      assert MaxSelect(fs) == q;
    }
  }

  /** minDeselect is the least cycle count covering 50 ns, while the uint32_t
      sum does not wrap and the result fits its uint8_t. */
  lemma MinDeselectIsLeast(fs: nat)
    requires 196_079 <= fs <= U32_LIMIT - MIN_DESELECT_FS
    ensures MinDeselect(fs) * fs >= MIN_DESELECT_FS
    ensures (MinDeselect(fs) - 1) * fs < MIN_DESELECT_FS
  {
    var q := (MIN_DESELECT_FS + fs - 1) / fs;
    assert ToU32(MIN_DESELECT_FS + fs - 1) == MIN_DESELECT_FS + fs - 1;
    CeilDiv(MIN_DESELECT_FS, fs);
    if q >= U8_LIMIT {
      MulMono(255, q - 1, fs);
    }
    assert MinDeselect(fs) == q;
  }

  /** rxDelay is the least number of half cycles covering 3.33 ns, while the
      uint32_t sum does not wrap and the result fits its uint8_t. */
  lemma RxDelayIsLeast(half: nat)
    requires 13_072 <= half <= U32_LIMIT - RX_DELAY_FS
    ensures RxDelay(half) * half >= RX_DELAY_FS
    ensures (RxDelay(half) - 1) * half < RX_DELAY_FS
  {
    var q := (RX_DELAY_FS + half - 1) / half;
    assert ToU32(RX_DELAY_FS + half - 1) == RX_DELAY_FS + half - 1;
    CeilDiv(RX_DELAY_FS, half);
    if q >= U8_LIMIT {
      MulMono(255, q - 1, half);
    }
    assert RxDelay(half) == q;
  }

  /** For every clk_sys from 1 MHz to 2 GHz nothing wraps, the derived field
      record honours every device limit, and each computed value is the
      tightest that does; the RXDELAY field holds `rxDelay | 1`. */
  lemma DerivedTimingMeetsLimits(sysHz: nat)
    requires 1_000_000 <= sysHz <= 2_000_000_000
    ensures MeetsDeviceLimits(DerivedTiming(sysHz), sysHz)
    ensures var fs := FsPerCycle(sysHz);
      && (ClockDivider(sysHz) - 1) * MAX_SCK_HZ < sysHz
      && (MaxSelect(fs) + 1) * fs > MAX_SELECT_FS64
      && (MinDeselect(fs) - 1) * fs < MIN_DESELECT_FS
      && (RxDelay(fs / 2) - 1) * (fs / 2) < RX_DELAY_FS
  {
    var fs := FsPerCycle(sysHz);
    DivAntiMono(SEC_TO_FS, 1_000_000, sysHz);
    DivAntiMono(SEC_TO_FS, sysHz, 2_000_000_000);
    assert 500_000 <= fs <= 1_000_000_000;
    ClockDividerIsCeiling(sysHz);
    DivAntiMono(MAX_SELECT_FS64, 500_000, fs);
    MaxSelectIsFloor(fs);
    MinDeselectIsLeast(fs);
    RxDelayIsLeast(fs / 2);
    var t := DerivedTiming(sysHz);
    MulMono(RxDelay(fs / 2), t.rxDelay, fs / 2);
  }

  /** clk_sys = 264 MHz gives divider 2, maxSelect 33, minDeselect 14, rxDelay 2 (field 3). */
  lemma TimingAt264MHz()
    ensures FsPerCycle(264_000_000) == 3_787_878
    ensures RxDelay(FsPerCycle(264_000_000) / 2) == 2
    ensures DerivedTiming(264_000_000) == M1Timing(1024, 3, 1, 3, 33, 14, 2)
  {
    var fs := FsPerCycle(264_000_000);
    assert fs == 3_787_878;
    assert ClockDivider(264_000_000) == 2;
    assert MaxSelect(fs) == 33;
    assert MinDeselect(fs) == 14;
    assert RxDelay(fs / 2) == 2;
    assert OrOne(2) == 3;
  }

  /** clk_sys = 176 MHz gives divider 2, maxSelect 22, minDeselect 9, rxDelay 2 (field 3). */
  lemma TimingAt176MHz()
    ensures FsPerCycle(176_000_000) == 5_681_818
    ensures RxDelay(FsPerCycle(176_000_000) / 2) == 2
    ensures DerivedTiming(176_000_000) == M1Timing(1024, 3, 1, 3, 22, 9, 2)
  {
    var fs := FsPerCycle(176_000_000);
    assert fs == 5_681_818;
    assert ClockDivider(176_000_000) == 2;
    assert MaxSelect(fs) == 22;
    assert MinDeselect(fs) == 9;
    assert RxDelay(fs / 2) == 2;
    assert OrOne(2) == 3;
  }

  /** clk_sys = 132 MHz gives divider 1, maxSelect 16, minDeselect 7, rxDelay 1 (field 1). */
  lemma TimingAt132MHz()
    ensures FsPerCycle(132_000_000) == 7_575_757
    ensures RxDelay(FsPerCycle(132_000_000) / 2) == 1
    ensures DerivedTiming(132_000_000) == M1Timing(1024, 3, 1, 1, 16, 7, 1)
  {
    var fs := FsPerCycle(132_000_000);
    assert fs == 7_575_757;
    assert ClockDivider(132_000_000) == 1;
    assert MaxSelect(fs) == 16;
    assert MinDeselect(fs) == 7;
    assert RxDelay(fs / 2) == 1;
    assert OrOne(1) == 1;
  }
}
