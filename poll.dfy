/** `poll_umac`, core 1's periodic step: run the emulator, apply
    `set_mute_state(false)` once the automute time has passed, raise the vsync event
    (after refreshing the mirror) when 16.67 ms have passed or the audio
    producer took a block, raise the 1 Hz event once a second, forward
    cursor changes as one relative mouse event, and forward at most one
    key from the keyboard queue. Emulator calls are recorded as events. */
module Poll {
  import opened Options
  import opened Machine
  import opened Framebuffer
  import opened Audio

  /** Microseconds after which a vsync is due: 1 / 60 s. */
  const VSYNC_US: int := 16667
  /** Microseconds between 1 Hz events. */
  const ONE_HZ_US: int := 1_000_000

  /** A call into the emulator. */
  datatype Event =
    | Loop                                     // umac_loop()
    | Vsync                                    // umac_vsync_event()
    | OneHz                                    // umac_1hz_event()
    | Mouse(dx: int, dy: int, button: int)     // umac_mouse(dx, dy, b)
    | Key(code: bv16, bit15: bool)             // umac_kbd_event(code, flag)

  /** The mouse event a cursor change calls for: none when nothing
      changed, otherwise one whose deltas carry the shadow position to the
      new one (the y axis pointing up) together with the new button. */
  function MouseEvents(oldX: int, oldY: int, oldButton: int, x: int, y: int, button: int): (evs: seq<Event>)
    ensures |evs| <= 1
    ensures evs == [] <==> x == oldX && y == oldY && button == oldButton
    ensures evs != [] ==>
      && evs[0].Mouse?
      && oldX + evs[0].dx == x && oldY - evs[0].dy == y && evs[0].button == button
  {
    if x == oldX && y == oldY && button == oldButton then []
    else [Mouse(x - oldX, oldY - y, button)]
  }

  /** The key event for a queued word: its low byte and bit 15, which
      together with the dropped bits 8 to 14 make up the word. */
  function KeyEvent(k: bv16): (e: Event)
    ensures e.Key? && e.code <= 0xff
    ensures k == e.code | (k & 0x7f00) | (if e.bit15 then 0x8000 else 0)
  {
    Key(k & 0xff, k & 0x8000 != 0)
  }

  /** The flag is set exactly for the words from 0x8000 up. */
  lemma KeyEventFlag(k: bv16)
    ensures KeyEvent(k).bit15 <==> k >= 0x8000
  {
  }

  /** The key events of one step: none for an empty queue, else the head's. */
  function KeyEvents(queue: seq<bv16>): (evs: seq<Event>)
    ensures |evs| <= 1
    ensures evs == [] <==> queue == []
  {
    if queue == [] then [] else [KeyEvent(queue[0])]
  }

  /** The keyboard check: when the queue is not empty its head is popped
      and delivered as a key event. */
  method PopKey(queue: seq<bv16>) returns (evs: seq<Event>, rest: seq<bv16>)
    ensures evs == KeyEvents(queue)
    ensures rest == if queue == [] then [] else queue[1..]
  {
    if queue != [] {
      var k := queue[0];
      rest := queue[1..];
      evs := [Key(k & 0xff, k & 0x8000 != 0)];
    } else {
      evs, rest := [], queue;
    }
  }

  class Poller {
    /** The static `last_1hz` and `last_vsync`, in microseconds. */
    var last1Hz: int
    var lastVsync: int
    /** The shadow cursor: `umac_cursor_x`, `umac_cursor_y`, `umac_cursor_button`. */
    var shadowX: int
    var shadowY: int
    var shadowButton: int
    const audio: AudioProducer
    /** `umac_framebuffer_mirror`. */
    const mirror: array<bv32>
    const geometry: Geometry

    /** The mirror is a full 640x480 picture of its own, apart from the
        audio block. */
    ghost predicate Valid()
      reads this
    {
      mirror.Length == MIRROR_WORDS && mirror as object != audio.audio
    }

    /** The zero-initialised statics, the blank mirror included. */
    constructor (audio: AudioProducer, geometry: Geometry)
      ensures Valid()
      ensures this.audio == audio && this.geometry == geometry
      ensures fresh(mirror) && mirror.Length == MIRROR_WORDS
      ensures forall k :: 0 <= k < mirror.Length ==> mirror[k] == 0
      ensures last1Hz == 0 && lastVsync == 0
      ensures shadowX == 0 && shadowY == 0 && shadowButton == 0
    {
      this.audio := audio;
      this.geometry := geometry;
      mirror := new bv32[MIRROR_WORDS](_ => 0);
      last1Hz, lastVsync := 0, 0;
      shadowX, shadowY, shadowButton := 0, 0, 0;
    }

    /** One call of poll_umac() at time `now`, with the cursor state (x, y,
        button) left by the USB side, the keyboard queue `queue`, whether the
        audio pool has a free buffer, and the emulator framebuffer `fb`.
        Returns the emulator calls in order, the queue left behind, and the
        block handed to the audio pool. */
    method Step(now: int, x: int, y: int, button: int, queue: seq<bv16>, bufferFree: bool, fb: seq<bv32>)
        returns (events: seq<Event>, rest: seq<bv16>, handed: Option<AudioBuffer>)
      requires Valid() && audio.codec.Valid() && |fb| >= InputWords(geometry)
      modifies this`last1Hz, this`lastVsync, this`shadowX, this`shadowY, this`shadowButton
      modifies mirror, audio`automute, audio`muteState, audio.codec
      ensures Valid() && audio.codec.Valid()
      // the events: the emulator step, then vsync, 1 Hz, mouse and key
      ensures var vsync := now - old(lastVsync) > VSYNC_US || bufferFree;
        var oneHz := now - old(last1Hz) >= ONE_HZ_US;
        events == [Loop] + (if vsync then [Vsync] else []) + (if oneHz then [OneHz] else [])
                  + MouseEvents(old(shadowX), old(shadowY), old(shadowButton), x, y, button)
                  + KeyEvents(queue)
      // a firing moves its reference time to now; the mirror is refreshed before vsync
      ensures lastVsync == if now - old(lastVsync) > VSYNC_US || bufferFree then now else old(lastVsync)
      ensures last1Hz == if now - old(last1Hz) >= ONE_HZ_US then now else old(last1Hz)
      ensures mirror[..] == if now - old(lastVsync) > VSYNC_US || bufferFree
                            then Mirrored(geometry, old(mirror[..]), fb) else old(mirror[..])
      // afterwards the shadow cursor is the cursor
      ensures shadowX == x && shadowY == y && shadowButton == button
      // at most one key is taken, from the front
      ensures rest == if queue == [] then [] else queue[1..]
      // the audio hand-off
      ensures handed.Some? <==> bufferFree
      ensures handed.Some? ==>
        handed.value.samples == audio.audio[..] && handed.value.sampleCount == SAMPLES_PER_BUFFER
      // automute: a passed deadline is cleared and set_mute_state(false) applied
      ensures var due := old(audio.automute).At? && old(audio.automute).us < now;
        && (due ==> audio.automute == EndOfTime && !audio.muteState)
        && (due && old(audio.muteState) ==>
              && audio.codec.page == OUTPUT_PAGE
              && audio.codec.regs == MutedRegs(old(audio.codec.regs), old(audio.codec.page), false)
              && audio.codec.writes == old(audio.codec.writes) + MuteWrites(audio.codec.regs))
        && (!(due && old(audio.muteState)) ==>
              && audio.codec.regs == old(audio.codec.regs) && audio.codec.page == old(audio.codec.page)
              && audio.codec.writes == old(audio.codec.writes))
        && (!due ==> audio.automute == old(audio.automute) && audio.muteState == old(audio.muteState))
    {
      events := [Loop];
      var pOneHz := now - last1Hz;
      var pVsync := now - lastVsync;
      var pending := pVsync > VSYNC_US;

      Automute(now);
      var delivered;
      delivered, handed := audio.Poll(bufferFree);
      pending := pending || delivered;

      if pending {
        RaiseVsync(now, fb);
        events := events + [Vsync];
      }
      if pOneHz >= ONE_HZ_US {
        events := events + [OneHz];
        last1Hz := now;
      }
      var mouse := TrackCursor(x, y, button);
      events := events + mouse;

      var key;
      key, rest := PopKey(queue);
      events := events + key;
    }

    /** The automute check: a deadline that has passed is cleared and
        `set_mute_state(false)` applied, which writes nothing when the flag is
        already false; otherwise nothing changes. */
    method Automute(now: int)
      requires audio.codec.Valid()
      modifies audio`automute, audio`muteState, audio.codec
      ensures audio.codec.Valid()
      ensures var due := old(audio.automute).At? && old(audio.automute).us < now;
        && (due ==> audio.automute == EndOfTime && !audio.muteState)
        && (due && old(audio.muteState) ==>
              && audio.codec.page == OUTPUT_PAGE
              && audio.codec.regs == MutedRegs(old(audio.codec.regs), old(audio.codec.page), false)
              && audio.codec.writes == old(audio.codec.writes) + MuteWrites(audio.codec.regs))
        && (!(due && old(audio.muteState)) ==>
              && audio.codec.regs == old(audio.codec.regs) && audio.codec.page == old(audio.codec.page)
              && audio.codec.writes == old(audio.codec.writes))
        && (!due ==> audio.automute == old(audio.automute) && audio.muteState == old(audio.muteState))
      ensures OutputsMatch(old(audio.codec.regs), old(audio.muteState)) ==>
        OutputsMatch(audio.codec.regs, audio.muteState)
    {
      if audio.automute.At? && audio.automute.us < now {
        audio.automute := EndOfTime;
        audio.SetMuteState(false);
      }
    }

    /** The mirror refreshed from `fb` and `last_vsync` moved to now. */
    method RaiseVsync(now: int, fb: seq<bv32>)
      requires mirror.Length == MIRROR_WORDS && |fb| >= InputWords(geometry)
      modifies this`lastVsync, mirror
      ensures lastVsync == now
      ensures mirror[..] == Mirrored(geometry, old(mirror[..]), fb)
    {
      CopyFramebuffer(geometry, mirror, fb);
      lastVsync := now;
    }

    /** The cursor comparison: the mouse event for the change, if any, and
        the shadow cursor brought up to date. */
    method TrackCursor(x: int, y: int, button: int) returns (evs: seq<Event>)
      modifies this`shadowX, this`shadowY, this`shadowButton
      ensures evs == MouseEvents(old(shadowX), old(shadowY), old(shadowButton), x, y, button)
      ensures shadowX == x && shadowY == y && shadowButton == button
    {
      var update := false;
      var dx, dy, b := 0, 0, shadowButton;
      if x != shadowX {
        dx := x - shadowX;
        shadowX := x;
        update := true;
      }
      if y != shadowY {
        dy := y - shadowY;
        shadowY := y;
        update := true;
      }
      if button != shadowButton {
        b := button;
        shadowButton := button;
        update := true;
      }
      evs := if update then [Mouse(dx, -dy, b)] else [];
    }
  }
}
