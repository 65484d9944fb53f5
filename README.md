# pico-mac firmware core, modelled in Dafny

pico-mac runs the umac Macintosh emulator on an RP2350 board with DVI video,
optional PSRAM, an SD card and an I2S audio codec. This project models the
deterministic rules in that firmware's bring-up and periodic step, and proves
properties about them:

- **Clock operating points** (`ClockSpeeds`, for `enum clk_sys_speed`). Each
  constant divides the 528 MHz USB PLL down to the frequency its name states.
- **Clock sequencing** (`Clocking`, for `clock_init` and `overclock`). The
  clock tree is a class whose methods are the register operations. The
  hardware rules the source's comments rely on are preconditions of those
  methods, so `ClockInit` verifies only because its steps come in a safe
  order. A ghost trace records the steps, and lemmas about that trace state
  the ordering and the single interrupt-masked window.
- **PSRAM timing** (`PsramTiming`, for `set_psram_timing`). The four timing
  fields are computed with the source's `uint32_t` and `uint8_t`
  arithmetic. Lemmas show that each field meets the device limit it
  targets, and give the values at 264, 176 and 132 MHz. Every field except
  RXDELAY is the tightest value that meets its limit. RXDELAY holds the least
  value rounded up to odd.
- **The QMI memory interface** (`Qmi`). It holds the M0/M1 timing and format
  registers, the M1 write enable, and a log of the bus traffic of the
  direct-mode interface.
- **PSRAM identification** (`Psram`, for `setup_psram`):
  - the fixed command scripts, with the device's answers as inputs;
  - the size decode;
  - the fixed M1 timing it writes over the derived one.
- **Framebuffer mirroring** (`Framebuffer`, for `copy_framebuffer`). A 640x480
  screen is copied word for word. A 512x342 screen is centred and inverted.
- **The audio codec's register file** (`Codec`) and the masked merge of
  `modifyRegister`.
- **Audio** (`Audio`): the volume scale, sample conversion, the idempotent
  mute setter with its automute deadline, and the hand-off to the buffer pool.
  The mute flag is the state the setter last applied; it can differ from the
  codec's output bits, which the setter brings into line only when it writes.
- **Core 1's periodic step** (`Poll`, for `poll_umac`). Calls into the
  emulator are recorded as a list of events.
- **Disc selection** (`Disc`, for `disc_setup`) and the status rule of the SD
  block operations.
- **The start of `main`** (`Boot`): `overclock`, then `setup_psram`.

Things the firmware cannot see are inputs to the model:
- the current time;
- the PSRAM's answers on the bus and the word read back after the test write;
- the FatFS results;
- whether the audio pool has a free buffer;
- the PLL setting found by the SDK's `check_sys_clock_khz`.

The model takes one build: USE_PSRAM, ENABLE_AUDIO, OVERCLOCK and a
mirrored framebuffer, with either display geometry.

Notes on the source:
- `poll_umac` raises the vsync event when more than 16667 us have passed,
  and also whenever `audio_poll` handed a buffer to the pool
  (src/main.c:165). A design that requires frame publication to wait 16.67 ms
  is therefore not what the code does. The model follows the code.
- `setup_psram` runs after `overclock` and overwrites the M1 timing derived
  for 264 MHz with fixed values chosen for a 7.52 ns cycle (src/main.c:437-444).
  `Psram.FixedTimingMissesAt264MHz` and `Boot.StartUp` show that these fixed
  values miss the PSRAM's minimum deselect time and RX delay at 264 MHz. The
  model keeps that order and does not change it.
- The RXDELAY field of the derived timing receives `rxDelay | 1`, because two
  terms OR into that field (src/clocking.c:79-80).
- The header names `overclock`'s second argument `bit_clk_hz`, but the
  definition uses it as kHz (include/clocking.h:11, src/clocking.c:152-165).
  `Boot.StartUp` shows that 252000 gives a 126 MHz HSTX clock.
- A mute-state change costs four register writes: the page select and three
  masked writes. The change also leaves codec page 1 selected.

## Model

| member | source | states |
|---|---|---|
| Machine.ToU32 | src/clocking.c:49 | the uint32_t result is below 2^32 and equals its operand when no wrap happens |
| Machine.ToU8 | src/clocking.c:66 | the uint8_t store is below 256 and equals its operand when that fits |
| Machine.ToI16 | src/main.c:712 | an int16_t store gives a value in [-32768, 32768), congruent to the operand modulo 2^16 and equal to it when it fits |
| Machine.CDiv | src/main.c:778 | C's signed division rounds toward zero: q * b <= a < (q + 1) * b for a >= 0, and (q - 1) * b < a <= q * b for a < 0 |
| ClockSpeeds.Divider | include/clocking.h:5-9 | every operating point's constant is a divider between 2 and 4 |
| ClockSpeeds.SysClockHz | src/clocking.c:118-124 | clk_sys times the divider is exactly 528 MHz, and equals the MHz in the constant's name (264, 176, 132) |
| ClockSpeeds.DividersDistinct | include/clocking.h:6-8 | two operating points are different exactly when their dividers are |
| ClockSpeeds.LargerDividerIsSlower | include/clocking.h:6-8 | a larger divider gives a strictly lower system clock, and conversely |
| PsramTiming.FsPerCycle | src/clocking.c:55 | femtoseconds per cycle fit a uint32_t; from 232 831 Hz they are the exact quotient 10^15 / sysHz, and below 2^32 Hz that quotient is at least 232 830 |
| PsramTiming.ClockDivider | src/clocking.c:49 | the divider stored in a uint8_t is below 256 |
| PsramTiming.MaxSelect | src/clocking.c:60 | maxSelect is below 256 and never above the 8 us quotient |
| PsramTiming.MinDeselect | src/clocking.c:66 | minDeselect stored in a uint8_t is below 256 |
| PsramTiming.RxDelay | src/clocking.c:71 | rxDelay stored in a uint8_t is below 256 |
| PsramTiming.OrOne | src/clocking.c:79-80 | the RXDELAY field is odd and is rxDelay or rxDelay + 1 |
| PsramTiming.DerivedTiming | src/clocking.c:77-82 | the derived field record has page break 1024, select hold 3 and cooldown 1, an odd RXDELAY field, and four computed fields below 256 |
| PsramTiming.ClockDividerIsCeiling | src/clocking.c:49 | clockDivider * 133 MHz >= sysHz and (clockDivider - 1) * 133 MHz < sysHz |
| PsramTiming.MaxSelectIsFloor | src/clocking.c:60 | maxSelect * fsPerCycle <= 125 000 000 (8 us in 64-cycle units), and maxSelect is the largest such count while it fits a uint8_t |
| PsramTiming.MinDeselectIsLeast | src/clocking.c:66 | minDeselect is the least n with n * fsPerCycle >= 50 ns |
| PsramTiming.RxDelayIsLeast | src/clocking.c:71 | rxDelay is the least n with n * fsPerHalfCycle >= 3.33 ns |
| PsramTiming.DerivedTimingMeetsLimits | src/clocking.c:43-85 | from 1 MHz to 2 GHz the derived field record honours all four device limits; each field except RXDELAY is the tightest value that does, and RXDELAY is the least value rounded up to odd |
| PsramTiming.TimingAt264MHz | src/clocking.c:45-82 | at 264 MHz: divider 2, maxSelect 33, minDeselect 14, rxDelay 2 (field 3) |
| PsramTiming.TimingAt176MHz | src/clocking.c:45-82 | at 176 MHz: divider 2, maxSelect 22, minDeselect 9, rxDelay 2 (field 3) |
| PsramTiming.TimingAt132MHz | src/clocking.c:45-82 | at 132 MHz: divider 1, maxSelect 16, minDeselect 7, rxDelay 1 (field 1) |
| Qmi.QmiController.WriteFlashClkDiv | src/clocking.c:92 | a masked write changes only the CLKDIV field of the M0 timing |
| Qmi.QmiController.WriteFlashTiming | src/clocking.c:18 | the M0 timing register holds the whole written word |
| Qmi.QmiController.XipRead | src/clocking.c:97-99 | a dummy XIP read makes the flash interface apply the current M0 timing |
| Qmi.QmiController.WriteM1Timing | src/main.c:437-444 | the M1 timing register holds the written fields |
| Qmi.QmiController.WriteM1Format | src/main.c:445-464 | the M1 read/write format and commands hold the written values |
| Qmi.QmiController.SetM1Writable | src/main.c:479 | the PSRAM window becomes writable |
| Qmi.QmiController.Direct | src/main.c:347-364 | each direct-mode access appends one bus event to the log |
| Clocking.ClockInitTrace | src/clocking.c:88-150 | clock_init's steps are the preparation, the stops, the USB PLL configuration and the finish, in that order |
| Clocking.ClockInitOrder | src/clocking.c:88-144 | before the USB PLL is reprogrammed (step 12): QSPI divider 6, voltage raised, XIP read; clk_sys confirmed on clk_ref (selected 1); clk_ref confirmed on XOSC (selected 4); the four PLL clients stopped |
| Clocking.ClockInitStepsAreUnique | src/clocking.c:115-147 | step 12 is the only PLL initialisation, clocks are configured only in steps 13-16, and the fast flash timing comes after them |
| Clocking.ClockInitIsOneMaskedWindow | src/clocking.c:89-149 | interrupts are disabled by the first step, restored by the last, and touched by no other |
| Clocking.ExactPllFor | src/clocking.c:167-170 | a setting check_sys_clock_khz reports has valid post dividers that divide the VCO exactly |
| Clocking.ExactPllIsRunning | src/clocking.c:168-170 | a PLL setting that check_sys_clock_khz accepts has a non-zero output, so clk_hstx can be configured from it |
| Clocking.DviClockKhz | src/clocking.c:165 | the HSTX clock is half the bit clock, rounded down |
| Clocking.SysClockIsValid | src/clocking.c:45-56 | every operating point gives set_psram_timing non-zero divisors |
| Clocking.ClockControl.SaveAndDisableIrq | src/clocking.c:89 | interrupts are off and the old state is returned |
| Clocking.ClockControl.RestoreIrqs | src/clocking.c:149 | the saved interrupt state is back |
| Clocking.ClockControl.SetVoltage | src/clocking.c:95 | the core voltage is the requested one |
| Clocking.ClockControl.WriteSysSrc | src/clocking.c:102 | clk_sys's SRC field selects the given input |
| Clocking.ClockControl.WaitSysSelected | src/clocking.c:103-104 | the wait ends once SELECTED reports the input the SRC field chose |
| Clocking.ClockControl.WriteRefSrc | src/clocking.c:105 | clk_ref's SRC field selects the given input |
| Clocking.ClockControl.WaitRefSelected | src/clocking.c:106-107 | the wait ends once SELECTED reports the input the SRC field chose |
| Clocking.ClockControl.ClockStop | src/clocking.c:110-113 | the clock stops running and reads 0 Hz |
| Clocking.ClockControl.PllInit | src/clocking.c:116 | a PLL is reprogrammed only while no running clock is fed by it |
| Clocking.ClockControl.ClockConfigure | src/clocking.c:121-144 | a clock runs from the PLL at a frequency no higher than the PLL's; clk_sys only after the voltage boost and the slow flash timing |
| Clocking.ClockControl.SetQmiTiming | src/clocking.c:13-23 | the fast M0 timing 0x40000202 is written and applied |
| Clocking.ClockControl.PrepareForPllChange | src/clocking.c:89-107 | interrupts off, flash slowed and applied, voltage raised, clk_sys on clk_ref and clk_ref on XOSC |
| Clocking.ClockControl.StopPllClients | src/clocking.c:109-113 | clk_usb, clk_adc, clk_peri and clk_hstx are stopped |
| Clocking.ClockControl.ConfigureFromUsbPll | src/clocking.c:115-144 | the USB PLL runs at 1584 MHz / 3, and clk_sys, clk_peri, clk_usb and clk_adc run from it |
| Clocking.ClockControl.ConfigureSysAndPeri | src/clocking.c:118-130 | clk_sys is 528 MHz / divider and clk_peri is 132 MHz, both from the USB PLL |
| Clocking.ClockControl.ConfigureUsbAndAdc | src/clocking.c:132-144 | clk_usb and clk_adc run at 48 MHz from the USB PLL |
| Clocking.ClockControl.SwitchToUsbPll | src/clocking.c:88-144 | from any clock state, the four clocks end up on the USB PLL at their frequencies, with clk_hstx stopped; clk_ref keeps its aux source and frequency and clk_hstx its aux source |
| Clocking.ClockControl.ClockInit | src/clocking.c:88-150 | clk_sys = 528 MHz / divider, clk_peri 132 MHz, clk_usb and clk_adc 48 MHz, all from the USB PLL; clk_hstx stopped; fast flash timing; interrupt state restored; clk_ref keeps its aux source and frequency and clk_hstx its aux source; the trace is ClockInitTrace |
| Clocking.ClockControl.SetPsramTimingFromClock | src/clocking.c:43-85 | the M1 timing becomes the derived field record for the current clk_sys, written inside an interrupt-masked window |
| Clocking.ClockControl.StartHstx | src/clocking.c:170-179 | the system PLL takes the found setting and clk_hstx runs from it at the PLL's output frequency |
| Clocking.ClockControl.Overclock | src/clocking.c:152-180 | clock_init and the derived PSRAM timing, then a panic if no exact PLL setting exists, otherwise clk_hstx at bit_clk_khz / 2 kHz from the system PLL |
| Psram.SizeMultiplier | src/main.c:468-476 | eid >> 5 = 0, 1, 2 gives x2, x4, x8; 0x26 gives x8 although its size bits say x4; any other eid gives x1 |
| Psram.PsramSize | src/main.c:468-488 | the size is 0 exactly when the KGD byte is not 0x5D or the test word does not read back; otherwise it is 1 MiB times the multiplier |
| Psram.IdTransmitsBytes | src/main.c:369-375 | the id read sends 0x9f and then 0xff, one byte per transmit |
| Psram.ProbeScript | src/main.c:347-389 | the identification traffic is 13 events, opened by direct mode on and closed by direct mode off, with no other direct-mode switch between |
| Psram.ProbeTransmits | src/main.c:347-389 | the identification sends 0xf5, then 0x9f and six 0xff |
| Psram.EnableScript | src/main.c:396-434 | the quad-switch traffic is direct mode on, four events per command, then direct mode off |
| Psram.EnableTransmits | src/main.c:406-433 | the quad switch sends 0x66, 0x99, 0x35, 0xc0 and nothing else |
| Psram.EnableFraming | src/main.c:406-433 | each enable command has its own chip-select assert and deassert |
| Psram.FixedTimingFitsAt132MHz | src/main.c:437-444 | the fixed timing meets the PSRAM's limits at 132 MHz |
| Psram.FixedTimingMissesAt264MHz | src/main.c:437-444 | at 264 MHz the fixed 7-cycle deselect is below 50 ns and the 1 half-cycle RX delay is below 3.33 ns |
| Psram.ReadId | src/main.c:341-389 | the identification traffic is sent and the answers to the sixth and seventh transmits are kept |
| Psram.ExitQpi | src/main.c:347-367 | direct mode on, 0xf5 in quad under its own chip select, then chip select asserted for the id read |
| Psram.EnableQuad | src/main.c:396-435 | direct mode on, the four framed enable commands, direct mode off |
| Psram.SetupPsram | src/main.c:341-490 | with a bad KGD byte only the probe runs and M1 is untouched; otherwise the enable script runs, M1 gets the fixed timing and quad format and becomes writable; the size is PsramSize |
| Framebuffer.SourceIndexInRange | src/main.c:135-139 | every mirror word of the centred window reads a word of the 512x342 framebuffer |
| Framebuffer.Mirrored | src/main.c:123-144 | the mirror after the copy has 9600 words, each the word MirrorWord gives for its position |
| Framebuffer.FullScreenIsCopy | src/main.c:125-129 | at 640x480 the 9600 mirror words equal the source words |
| Framebuffer.MacScreenPlacement | src/main.c:130-140 | at 512x342, mirror word (69*20+2) + 20i + j is the bitwise NOT of source word 16i + j |
| Framebuffer.MacScreenLeavesBorder | src/main.c:130-140 | at 512x342, a mirror word that changes is the placement of a row below 342 and a column below 16 |
| Framebuffer.CopyFramebuffer | src/main.c:123-144 | the mirror array becomes the mirrored copy of the source |
| Codec.Merge | src/main.c:580-584 | the masked bits come from the value and the others from the current register |
| Codec.MergeUnique | src/main.c:582 | the merge is the only byte with that property |
| Codec.MergeIdempotent | src/main.c:582 | merging the same value again changes nothing |
| Codec.MergeOneBit | src/main.c:767-773 | a one-bit merge sets or clears just that bit |
| Codec.CodecRegisters.Read | src/main.c:565-578 | readRegister returns the byte of the register on the page last selected |
| Codec.CodecRegisters.constructor | src/main.c:554-588 | the register file starts with the given contents, page 0 selected and no writes |
| Codec.CodecRegisters.Write | src/main.c:554-563 | the register on the current page takes the value; a write to register 0 selects the page; the write is recorded |
| Codec.CodecRegisters.SetPage | src/main.c:586-588 | register 0 is written and the page is selected |
| Codec.CodecRegisters.Modify | src/main.c:580-584 | the register keeps its unmasked bits and takes the masked bits from the value; one write is recorded |
| Audio.ProductFits | src/main.c:710-711 | for scales within ScaleFits, (sample - 128) * scale fits an int32_t |
| Audio.VolScale | src/main.c:778 | the scale is 0 when sndres is set, otherwise 65536 * volume / 7 truncated; it is 0 exactly when sound is off or the volume is 0; volumes 0-7 give 0..65536 |
| Audio.Sample | src/main.c:710-712 | each sample fits an int16_t and is 0 at scale 0 |
| Audio.Samples | src/main.c:704-713 | the block has 370 samples, the i-th the conversion of the i-th emulator word |
| Audio.SilentAtScaleZero | src/main.c:704-706 | at scale 0 the 370-sample block is silence |
| Audio.MacVolumesDoNotWrap | src/main.c:709-713 | for volumes 0-7 each sample is exactly ((low byte - 128) * scale) >> 8, within [-32768, 32512] |
| Audio.MutedRegs | src/main.c:761-775 | every register keeps a value, and the speaker's not-muted bit ends set exactly when the applied state `on` is true |
| Audio.MuteWrites | src/main.c:767-773 | a mute change is four writes: the page-1 select, then three writes each storing the page-1 value of the register it names |
| Audio.MutedRegsMatch | src/main.c:761-775 | whatever the outputs were before, after a state change the not-muted bit of 0x28, 0x29 and 0x2A on page 1 is set exactly when the applied state is on (OutputsMatch) |
| Audio.MuteTouchesOnlyOutputBits | src/main.c:761-775 | a mute change sets or clears only bit 0x04 of registers 0x28, 0x29 and 0x2A on page 1, and otherwise only selects page 1 |
| Audio.AudioProducer.constructor | src/main.c:690-694 | the producer starts with scale 0, mute_state false (src/main.c:760), the zero-initialised automute time and the zero-initialised 370-sample block, so a hand-off before the first trap is silence; the codec's registers are left as given |
| Audio.AudioProducer.SetMuteState | src/main.c:761-775 | no write when the flag already equals the new state; otherwise the new flag, page 1 and the three merged output registers, after which the outputs match the flag; outputs that matched the flag before still match it |
| Audio.AudioProducer.Configure | src/main.c:777-780 | the scale is VolScale and the mute flag becomes "scale non-zero"; the codec is untouched when that leaves the flag as it was, and otherwise gets page 1 and the three merged output registers, matching the flag; outputs that matched the flag still do |
| Audio.AudioProducer.Trap | src/main.c:696-714 | the mute flag becomes "scale non-zero", with no codec traffic when the flag is unchanged and otherwise page 1 and the three merged output registers, matching the flag; outputs that matched the flag still do; a non-zero scale re-arms the automute 500 ms ahead; the block holds the converted samples |
| Audio.AudioProducer.Poll | src/main.c:751-758 | a block is handed off exactly when a buffer is free, with the current samples and a count of 370 |
| Poll.MouseEvents | src/main.c:180-201 | a mouse event exactly when x, y or the button changed; its deltas carry the old position to the new one, with y inverted, and it carries the new button |
| Poll.KeyEvent | src/main.c:205 | the key code is the low byte, and together with bits 8-14 and the flag it rebuilds the queued word |
| Poll.KeyEventFlag | src/main.c:205 | the flag is set exactly when bit 15 of the queued word is |
| Poll.KeyEvents | src/main.c:203-206 | at most one key event, and one exactly when the queue is non-empty |
| Poll.PopKey | src/main.c:203-206 | the head of a non-empty queue is popped and delivered; an empty queue is left alone |
| Poll.Poller.constructor | src/main.c:96-150 | the shadow cursor, the reference times and every word of the zero-initialised framebuffer mirror start at 0 |
| Poll.Poller.Automute | src/main.c:159-162 | a passed automute deadline is cleared to the end of time and the mute flag becomes false, with codec traffic only when the flag was true; otherwise nothing changes; outputs that matched the flag still do |
| Poll.Poller.RaiseVsync | src/main.c:167-174 | the mirror is refreshed and last_vsync becomes now |
| Poll.Poller.TrackCursor | src/main.c:180-201 | the emitted events are MouseEvents of the old shadow and the new cursor, and the shadow becomes the cursor |
| Poll.Poller.Step | src/main.c:147-207 | events in order: loop; vsync iff more than 16667 us since last_vsync or audio_poll delivered; 1 Hz iff at least 1 000 000 us since last_1hz; mouse; key. A firing moves its reference to now, the mirror is refreshed before vsync, the shadow equals the cursor, and at most one key is popped |
| Disc.DiscSetup | src/main.c:243-309 | the SD image backs drive 0 exactly when SD is built in and mount, find and open (including FR_EXIST) succeed; it is read-only exactly when named umac0ro.img; otherwise the flash image, read-only |
| Disc.TransferStatus | src/main.c:210-238 | a read or write returns 0 exactly when FatFS reported FR_OK and moved all len bytes, else -1 |
| Boot.StartUp | src/main.c:492-499 | after overclock(264 MHz, 252000) and setup_psram: clk_sys 264 MHz, HSTX 126 MHz; an identified PSRAM keeps the fixed timing, which misses its limits at 264 MHz, while an unidentified one keeps the derived timing, which meets them |

## Left out

- Busy-waits on hardware status bits are not modelled loop by loop. Each is a step that ends in the state it waits for.
- Interrupt masking inside `setup_psram` is not modelled.
- GPIO set-up and the LED, `printf` diagnostics, `stdio_init_all` and `io_init` are not modelled. They have no effect on the modelled state.
- The I2C transfers behind `readRegister`/`writeRegister` and their panics are not modelled. The codec is a register map.
- The codec initialisation script `setup_i2s_dac` and `audio_setup` are not modelled. They run once and configure foreign code.
- The pico_audio buffer pool and the I2S DMA are not modelled. A free buffer is an input.
- The USB host stack, the HID tasks, `multicore_launch_core1` and the core-0 loop are not modelled. They are foreign code whose point is concurrency.
- The umac emulator itself is not modelled. Its calls are recorded as events.
- FatFS internals are not modelled. That includes the name `f_findfirst` returns when nothing matches and the unchecked result of `f_lseek`.
- Data movement in `disc_do_read/write` is not modelled, because it is done inside FatFS.
- SDK internals are not modelled: `pll_init`, `clock_configure`, `clock_stop`, `vreg_set_voltage`, and the search inside `check_sys_clock_khz`. Only their results and the promise at src/clocking.c:168-170 are modelled.
- QMI and XIP register bit positions are not modelled, nor is the packing of the format registers. The field LSB constants come from SDK headers that are not part of this model.
- The build variants without PSRAM, audio, overclocking or framebuffer mirroring are not modelled.
- Under `USE_SD`, only disc selection (`Disc.DiscSetup` with its `useSd` parameter) and the status rule of `disc_do_read/write` (`Disc.TransferStatus`) are modelled. The SD card's SPI driver and the data the transfers move are part of FatFS and not of this model.
- Poll.Poller.Step: the emulator's callbacks made from inside `umac_loop` (`umac_audio_trap`, `umac_audio_cfg`) are modelled as separate `Audio.AudioProducer.Trap` and `Audio.AudioProducer.Configure` calls made between steps, so within one step the automute check, the mute state, the codec and the audio block are those left by the last such call, as if each callback ran just before `Loop`.
- Poll.Poller.Step: times are unbounded integers. The 64-bit `absolute_time_t`, its `int64_t` differences and the `int` overflow of cursor deltas are not modelled.
- Audio.AudioProducer.constructor: the codec register file is an input, and the flag and the codec's output bits can disagree from boot on. The firmware's `setup_i2s_dac` sets the not-muted bit of 0x28, 0x29 and 0x2A (src/main.c:670-671, 681) while `mute_state` starts false (src/main.c:760), so the outputs are on with the flag off. The first automute expiry and a volume-0 `umac_audio_cfg` then write nothing, and the outputs stay on until the flag has gone true and back. `setup_i2s_dac` is not modelled, so the model promises only that every state change makes the outputs match the flag and that matching outputs stay matched (`OutputsMatch`).
- Audio.AudioProducer.Trap: requires a scale for which `(sample - 128) * scale` fits an `int32_t`. Signed overflow is undefined in C, and the Mac's volumes 0-7 stay far inside that range.
- Audio.VolScale: requires `65536 * volume` to fit an `int` for the same reason. Audio.AudioProducer.Configure inherits this.
- PsramTiming.ClockDividerIsCeiling: stated only up to 2^32 - 133 MHz, where the `uint32_t` sum cannot wrap. The function itself models the wrap.
- PsramTiming.MinDeselectIsLeast: stated only where the `uint32_t` sum cannot wrap and the `uint8_t` result cannot truncate. The function models both effects.
- PsramTiming.RxDelayIsLeast: stated only where the `uint32_t` sum cannot wrap and the `uint8_t` result cannot truncate. The function models both effects.
- PsramTiming.DerivedTimingMeetsLimits: stated for clk_sys from 1 MHz to 2 GHz.
