/** The emulator's sound output: `umac_audio_cfg` turns the Mac's volume
    into a sample scale, `umac_audio_trap` converts the emulator's 370 8-bit
    samples into signed 16-bit ones, `audio_poll` hands the converted block
    to the I2S producer pool, and `set_mute_state` switches the codec's
    headphone and speaker outputs. */
module Audio {
  import opened Options
  import opened Machine
  import opened Codec

  const SAMPLES_PER_BUFFER: nat := 370
  /** The 8-bit samples are unsigned around this midpoint. */
  const SAMPLE_OFFSET: int := 128
  /** The automute timeout armed by a trap, in microseconds (500 ms). */
  const AUTOMUTE_US: nat := 500_000
  /** The codec page holding the output-driver registers. */
  const OUTPUT_PAGE: bv8 := 1
  const HP_LEFT: bv8 := 0x28
  const HP_RIGHT: bv8 := 0x29
  const SPEAKER: bv8 := 0x2A
  /** The "not muted" bit of each of those registers. */
  const UNMUTE_BIT: bv8 := 0x04

  /** A point in time in microseconds, or `at_the_end_of_time`. */
  datatype Deadline = At(us: int) | EndOfTime

  /** The scales for which `(sample - 128) * scale` fits an int32_t for
      every 8-bit sample. */
  predicate ScaleFits(scale: int) {
    -16_777_215 <= scale <= 16_777_216
  }

  /** The product of an offset sample and a fitting scale fits an int32_t. */
  lemma ProductFits(a: int, scale: int)
    requires -128 <= a < 128 && ScaleFits(scale)
    ensures InI32(a * scale)
  {
    var p := a * scale;
    if scale >= 0 {
      MulMono(a, 127, scale);
      MulMono(-128, a, scale);
      assert -128 * scale <= p <= 127 * scale;
    } else {
      MulMono(a, 127, -scale);
      MulMono(-128, a, -scale);
      assert 127 * scale <= p <= -128 * scale;
    }
  }

  /** `umac_audio_cfg`'s scale: 0 when sound is off (`sndres` non-zero),
      otherwise `65536 * volume / 7` in C's truncating division. It is zero
      exactly when sound is off or the volume is 0, and volumes 0 to 7 give
      0 to 65536. */
  function VolScale(volume: int, sndres: int): (scale: int)
    requires InI32(65536 * volume)
    ensures sndres != 0 ==> scale == 0
    ensures sndres == 0 && volume >= 0 ==> scale * 7 <= 65536 * volume < (scale + 1) * 7
    ensures sndres == 0 && volume < 0 ==> -scale * 7 <= -65536 * volume < (-scale + 1) * 7
    ensures scale == 0 <==> sndres != 0 || volume == 0
    ensures sndres == 0 && 0 <= volume <= 7 ==> 0 <= scale <= 65536
  {
    if sndres != 0 then 0 else CDiv(65536 * volume, 7)
  }

  /** One converted sample: the low byte of the 16-bit word, less 128, times
      the scale, arithmetically shifted right by 8 (a floor division by 256),
      stored in an int16_t. */
  function Sample(word: U16, scale: int): (s: int)
    requires ScaleFits(scale)
    ensures -0x8000 <= s < 0x8000
    ensures scale == 0 ==> s == 0
  {
    var a := word % 256 - SAMPLE_OFFSET;
    ProductFits(a, scale);
    ToI16(a * scale / 256)
  }

  /** The block `umac_audio_trap` leaves in `audio[]`: with scale 0 the
      memset gives zeros, which is also what the conversion gives. */
  function Samples(src: seq<U16>, scale: int): (out: seq<int>)
    requires |src| >= SAMPLES_PER_BUFFER && ScaleFits(scale)
    ensures |out| == SAMPLES_PER_BUFFER
    ensures forall i :: 0 <= i < SAMPLES_PER_BUFFER ==> out[i] == Sample(src[i], scale)
  {
    seq(SAMPLES_PER_BUFFER, i requires 0 <= i < SAMPLES_PER_BUFFER => Sample(src[i], scale))
  }

  /** With sound off or volume 0 the output block is silence. */
  lemma SilentAtScaleZero(src: seq<U16>)
    requires |src| >= SAMPLES_PER_BUFFER
    ensures forall i :: 0 <= i < SAMPLES_PER_BUFFER ==> Samples(src, 0)[i] == 0
  {
  }

  /** For the Mac's volumes 0 to 7 with sound on, no sample wraps: each is
      exactly `((low byte - 128) * scale) >> 8`, between -32768 and 32512. */
  lemma MacVolumesDoNotWrap(volume: int, word: U16)
    requires 0 <= volume <= 7
    ensures var scale := VolScale(volume, 0);
      var exact := (word % 256 - SAMPLE_OFFSET) * scale / 256;
      && Sample(word, scale) == exact
      && -32768 <= exact <= 32512
  {
    var scale := VolScale(volume, 0);
    var a := word % 256 - SAMPLE_OFFSET;
    MulMono(a, 127, scale);
    MulMono(-128, a, scale);
    MulMono(scale, 65536, 127);
    MulMono(scale, 65536, 128);
    assert -8_388_608 <= a * scale <= 8_323_072;
  }

  /** The register file after `set_mute_state` changes state from a page
      `page`: page 1 selected, then the "not muted" bit of each output
      register merged in. */
  function MutedRegs(regs: map<Addr, bv8>, page: bv8, on: bool): (after: map<Addr, bv8>)
    requires forall k: Addr :: k in regs
    ensures forall k: Addr :: k in after
    ensures after[Addr(OUTPUT_PAGE, SPEAKER)] & UNMUTE_BIT == if on then UNMUTE_BIT else 0
  {
    var bit: bv8 := if on then UNMUTE_BIT else 0;
    regs[Addr(page, PAGE_REG) := OUTPUT_PAGE]
        [Addr(OUTPUT_PAGE, HP_LEFT) := Merge(regs[Addr(OUTPUT_PAGE, HP_LEFT)], UNMUTE_BIT, bit)]
        [Addr(OUTPUT_PAGE, HP_RIGHT) := Merge(regs[Addr(OUTPUT_PAGE, HP_RIGHT)], UNMUTE_BIT, bit)]
        [Addr(OUTPUT_PAGE, SPEAKER) := Merge(regs[Addr(OUTPUT_PAGE, SPEAKER)], UNMUTE_BIT, bit)]
  }

  /** The I2C writes of a state change: the page select, then the three
      merged output registers. */
  function MuteWrites(regs: map<Addr, bv8>): (w: seq<(bv8, bv8)>)
    requires forall k: Addr :: k in regs
    ensures |w| == 4 && w[0] == (PAGE_REG, OUTPUT_PAGE)
    ensures forall i :: 1 <= i < 4 ==> w[i].0 != PAGE_REG && w[i].1 == regs[Addr(OUTPUT_PAGE, w[i].0)]
  {
    [(PAGE_REG, OUTPUT_PAGE),
     (HP_LEFT, regs[Addr(OUTPUT_PAGE, HP_LEFT)]),
     (HP_RIGHT, regs[Addr(OUTPUT_PAGE, HP_RIGHT)]),
     (SPEAKER, regs[Addr(OUTPUT_PAGE, SPEAKER)])]
  }

  /** A state change sets (on) or clears (off) only the "not muted" bit of
      the two headphone registers and the speaker register on page 1, and
      writes nothing else but the page select. */
  lemma MuteTouchesOnlyOutputBits(regs: map<Addr, bv8>, page: bv8, on: bool)
    requires forall k: Addr :: k in regs
    ensures var after := MutedRegs(regs, page, on);
      && (forall k: Addr :: k in after)
      && (forall r :: r in {HP_LEFT, HP_RIGHT, SPEAKER} ==>
            && after[Addr(OUTPUT_PAGE, r)] & UNMUTE_BIT == (if on then UNMUTE_BIT else 0)
            && after[Addr(OUTPUT_PAGE, r)] & !UNMUTE_BIT == regs[Addr(OUTPUT_PAGE, r)] & !UNMUTE_BIT)
      && after[Addr(page, PAGE_REG)] == OUTPUT_PAGE
      && (forall a: Addr :: a.page != OUTPUT_PAGE && a != Addr(page, PAGE_REG) ==> after[a] == regs[a])
      && (forall r: bv8 :: r !in {PAGE_REG, HP_LEFT, HP_RIGHT, SPEAKER} ==>
            after[Addr(OUTPUT_PAGE, r)] == regs[Addr(OUTPUT_PAGE, r)])
  {
  }

  /** The codec's outputs are in state `on`: the "not muted" bit of both
      headphone registers and the speaker register on page 1 is set exactly
      when `on` holds. */
  predicate OutputsMatch(regs: map<Addr, bv8>, on: bool)
    requires forall k: Addr :: k in regs
  {
    var bit: bv8 := if on then UNMUTE_BIT else 0;
    && regs[Addr(OUTPUT_PAGE, HP_LEFT)] & UNMUTE_BIT == bit
    && regs[Addr(OUTPUT_PAGE, HP_RIGHT)] & UNMUTE_BIT == bit
    && regs[Addr(OUTPUT_PAGE, SPEAKER)] & UNMUTE_BIT == bit
  }

  /** Whatever state the outputs were in, a state change leaves all three in
      the state it applied. */
  lemma MutedRegsMatch(regs: map<Addr, bv8>, page: bv8, on: bool)
    requires forall k: Addr :: k in regs
    ensures OutputsMatch(MutedRegs(regs, page, on), on)
  {
    MuteTouchesOnlyOutputBits(regs, page, on);
  }

  /** A block handed to the I2S producer pool. */
  datatype AudioBuffer = AudioBuffer(samples: seq<int>, sampleCount: nat)

  class AudioProducer {
    const codec: CodecRegisters
    /** The converted block, `audio[]`. */
    const audio: array<int>
    var volscale: int
    /** `mute_state`: the state `set_mute_state` last applied to the
        outputs (false at boot, see `OutputsMatch`). */
    var muteState: bool
    var automute: Deadline

    /** The state the firmware starts in: no scale, the mute flag false,
        the zero-initialised automute time and a silent block. The codec's
        registers are whatever `codec` holds; they need not match the flag. */
    constructor (codec: CodecRegisters)
      ensures this.codec == codec && fresh(audio) && audio.Length == SAMPLES_PER_BUFFER
      ensures volscale == 0 && !muteState && automute == At(0)
      ensures forall i :: 0 <= i < audio.Length ==> audio[i] == 0
    {
      this.codec := codec;
      audio := new int[SAMPLES_PER_BUFFER](_ => 0);
      volscale := 0;
      muteState := false;
      automute := At(0);
    }

    /** set_mute_state(on): nothing is written when the flag already equals
        `on`. Otherwise page 1 is selected and the "not muted" bit of the two
        headphone registers and the speaker register is merged in, so the
        outputs then match the flag. Outputs that matched the flag before
        still match it after. */
    method SetMuteState(on: bool)
      requires codec.Valid()
      modifies this`muteState, codec
      ensures codec.Valid() && muteState == on
      ensures old(muteState) == on ==>
        codec.writes == old(codec.writes) && codec.regs == old(codec.regs) && codec.page == old(codec.page)
      ensures old(muteState) != on ==>
        && codec.page == OUTPUT_PAGE
        && codec.regs == MutedRegs(old(codec.regs), old(codec.page), on)
        && codec.writes == old(codec.writes) + MuteWrites(codec.regs)
      ensures old(muteState) != on ==> OutputsMatch(codec.regs, on)
      ensures OutputsMatch(old(codec.regs), old(muteState)) ==> OutputsMatch(codec.regs, muteState)
    {
      if muteState == on {
        return;
      }
      muteState := on;
      codec.SetPage(OUTPUT_PAGE);
      var bit: bv8 := if on then UNMUTE_BIT else 0;
      codec.Modify(HP_LEFT, UNMUTE_BIT, bit);
      codec.Modify(HP_RIGHT, UNMUTE_BIT, bit);
      codec.Modify(SPEAKER, UNMUTE_BIT, bit);
      MutedRegsMatch(old(codec.regs), old(codec.page), on);
    }

    /** umac_audio_cfg(volume, sndres): the new scale, and `set_mute_state`
        applied with "scale non-zero". */
    method Configure(volume: int, sndres: int)
      requires InI32(65536 * volume) && codec.Valid()
      modifies this`volscale, this`muteState, codec
      ensures codec.Valid()
      ensures volscale == VolScale(volume, sndres)
      ensures muteState == (volscale != 0)
      // the codec traffic of set_mute_state
      ensures old(muteState) == muteState ==>
        codec.writes == old(codec.writes) && codec.regs == old(codec.regs) && codec.page == old(codec.page)
      ensures old(muteState) != muteState ==>
        && codec.page == OUTPUT_PAGE
        && codec.regs == MutedRegs(old(codec.regs), old(codec.page), muteState)
        && codec.writes == old(codec.writes) + MuteWrites(codec.regs)
      ensures old(muteState) != muteState ==> OutputsMatch(codec.regs, muteState)
      ensures OutputsMatch(old(codec.regs), old(muteState)) ==> OutputsMatch(codec.regs, muteState)
    {
      volscale := if sndres != 0 then 0 else CDiv(65536 * volume, 7);
      SetMuteState(volscale != 0);
    }

    /** umac_audio_trap(): `set_mute_state` applied with "scale non-zero";
        a non-zero scale re-arms the automute 500 ms from `now`; `audio[]`
        receives the converted block of the emulator's samples `src`. */
    method Trap(now: int, src: seq<U16>)
      requires |src| >= SAMPLES_PER_BUFFER && ScaleFits(volscale) && codec.Valid()
      requires audio.Length == SAMPLES_PER_BUFFER
      modifies this`muteState, this`automute, codec, audio
      ensures codec.Valid()
      ensures muteState == (volscale != 0)
      // the codec traffic of set_mute_state
      ensures old(muteState) == muteState ==>
        codec.writes == old(codec.writes) && codec.regs == old(codec.regs) && codec.page == old(codec.page)
      ensures old(muteState) != muteState ==>
        && codec.page == OUTPUT_PAGE
        && codec.regs == MutedRegs(old(codec.regs), old(codec.page), muteState)
        && codec.writes == old(codec.writes) + MuteWrites(codec.regs)
      ensures old(muteState) != muteState ==> OutputsMatch(codec.regs, muteState)
      ensures OutputsMatch(old(codec.regs), old(muteState)) ==> OutputsMatch(codec.regs, muteState)
      ensures automute == if volscale != 0 then At(now + AUTOMUTE_US) else old(automute)
      ensures audio[..] == Samples(src, volscale)
    {
      SetMuteState(volscale != 0);
      if volscale != 0 {
        automute := At(now + AUTOMUTE_US);
      }
      var scale := volscale;
      if scale == 0 {
        forall k | 0 <= k < SAMPLES_PER_BUFFER {
          audio[k] := 0;
        }
        return;
      }
      for i := 0 to SAMPLES_PER_BUFFER
        modifies audio
        invariant forall k :: 0 <= k < i ==> audio[k] == Sample(src[k], scale)
      {
        var a := src[i] % 256 - SAMPLE_OFFSET;
        ProductFits(a, scale);
        a := a * scale / 256;
        audio[i] := ToI16(a);
      }
    }

    /** audio_poll(): when the pool has a free buffer (`available`), the
        current block is copied into it with a sample count of 370 and handed
        back; the result says whether that happened. */
    method Poll(available: bool) returns (delivered: bool, handed: Option<AudioBuffer>)
      ensures delivered == available
      ensures delivered <==> handed.Some?
      ensures handed.Some? ==>
        && handed.value.samples == audio[..]
        && handed.value.sampleCount == SAMPLES_PER_BUFFER
    {
      if !available {
        return false, None;
      }
      return true, Some(AudioBuffer(audio[..], SAMPLES_PER_BUFFER));
    }
  }
}
