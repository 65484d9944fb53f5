/** `copy_framebuffer`: the emulator's 1-bit framebuffer is copied into the
    640x480 mirror the video output scans. A 640x480 Mac screen is copied
    word for word; a 512x342 one is centred and inverted, since the Mac
    draws black as 1. */
module Framebuffer {

  /** 32 pixels per word: 640 * 480 / 32. */
  const MIRROR_WORDS: nat := 9600
  const LONGS_PER_OUTPUT_ROW: nat := 20
  const LONGS_PER_INPUT_ROW: nat := 16
  const MAC_ROWS: nat := 342
  /** (640 - 512) / 32 / 2 words in from the left. */
  const X_OFFSET: nat := 2
  /** (480 - 342) / 2 rows down from the top. */
  const Y_OFFSET: nat := 69
  /** The first mirror word of the centred picture. */
  const WINDOW_BASE: nat := Y_OFFSET * LONGS_PER_OUTPUT_ROW + X_OFFSET

  /** The two display geometries the firmware builds for. */
  datatype Geometry = Full640x480 | Mac512x342

  /** Words of emulator framebuffer the copy reads. */
  function InputWords(g: Geometry): nat {
    match g
    case Full640x480 => MIRROR_WORDS
    case Mac512x342 => MAC_ROWS * LONGS_PER_INPUT_ROW
  }

  /** The mirror word showing row i, column j of the 512x342 picture. */
  function MirrorPos(i: int, j: int): int {
    WINDOW_BASE + LONGS_PER_OUTPUT_ROW * i + j
  }

  /** Whether mirror word k lies inside the 512x342 picture. */
  predicate InWindow(k: int) {
    && WINDOW_BASE <= k
    && (k - WINDOW_BASE) / LONGS_PER_OUTPUT_ROW < MAC_ROWS
    && (k - WINDOW_BASE) % LONGS_PER_OUTPUT_ROW < LONGS_PER_INPUT_ROW
  }

  /** The framebuffer word shown by mirror word k of the window. */
  function SourceIndex(k: int): int
    requires InWindow(k)
  {
    var off := k - WINDOW_BASE;
    LONGS_PER_INPUT_ROW * (off / LONGS_PER_OUTPUT_ROW) + off % LONGS_PER_OUTPUT_ROW
  }

  /** Source word index of row i and column j, for both sides. */
  lemma RowColumn(i: nat, j: nat)
    requires i < MAC_ROWS && j < LONGS_PER_INPUT_ROW
    ensures var k := MirrorPos(i, j);
      && k < MIRROR_WORDS && InWindow(k) && SourceIndex(k) == LONGS_PER_INPUT_ROW * i + j
      && LONGS_PER_INPUT_ROW * i + j < MAC_ROWS * LONGS_PER_INPUT_ROW
  {
    var off := LONGS_PER_OUTPUT_ROW * i + j;
    assert off / LONGS_PER_OUTPUT_ROW == i && off % LONGS_PER_OUTPUT_ROW == j;
  }

  /** Every window word reads a word of the 512x342 framebuffer. */
  lemma SourceIndexInRange(k: int)
    requires InWindow(k)
    ensures 0 <= SourceIndex(k) < MAC_ROWS * LONGS_PER_INPUT_ROW
  {
    var off := k - WINDOW_BASE;
    var row := off / LONGS_PER_OUTPUT_ROW;
    assert LONGS_PER_INPUT_ROW * row <= LONGS_PER_INPUT_ROW * (MAC_ROWS - 1);
  }

  /** Mirror word k after the copy. */
  function MirrorWord(g: Geometry, before: seq<bv32>, src: seq<bv32>, k: nat): bv32
    requires |before| == MIRROR_WORDS && |src| >= InputWords(g) && k < MIRROR_WORDS
  {
    match g
    case Full640x480 => src[k]
    case Mac512x342 =>
      if InWindow(k) then
        SourceIndexInRange(k);
        src[SourceIndex(k)] ^ 0xffff_ffff
      else before[k]
  }

  /** The whole mirror after the copy. */
  function Mirrored(g: Geometry, before: seq<bv32>, src: seq<bv32>): (after: seq<bv32>)
    requires |before| == MIRROR_WORDS && |src| >= InputWords(g)
    ensures |after| == MIRROR_WORDS
    ensures forall k :: 0 <= k < MIRROR_WORDS ==> after[k] == MirrorWord(g, before, src, k)
  {
    seq(MIRROR_WORDS, k requires 0 <= k < MIRROR_WORDS => MirrorWord(g, before, src, k))
  }

  /** 640x480: the 9600 words are copied unchanged. */
  lemma FullScreenIsCopy(before: seq<bv32>, src: seq<bv32>)
    requires |before| == MIRROR_WORDS && |src| >= MIRROR_WORDS
    ensures Mirrored(Full640x480, before, src) == src[..MIRROR_WORDS]
  {
  }

  /** 512x342: row i, column j of the Mac screen lands inverted at mirror
      word (69 * 20 + 2) + 20 * i + j... */
  lemma MacScreenPlacement(before: seq<bv32>, src: seq<bv32>, i: nat, j: nat)
    requires |before| == MIRROR_WORDS && |src| >= InputWords(Mac512x342)
    requires i < MAC_ROWS && j < LONGS_PER_INPUT_ROW
    ensures MirrorPos(i, j) < MIRROR_WORDS
    ensures Mirrored(Mac512x342, before, src)[MirrorPos(i, j)] == !src[LONGS_PER_INPUT_ROW * i + j]
  {
    RowColumn(i, j);
  }

  /** ...and every other mirror word keeps its value: a word that changes
      is the placement of some row i < 342 and column j < 16. */
  lemma MacScreenLeavesBorder(before: seq<bv32>, src: seq<bv32>, k: nat)
    requires |before| == MIRROR_WORDS && |src| >= InputWords(Mac512x342) && k < MIRROR_WORDS
    ensures Mirrored(Mac512x342, before, src)[k] != before[k] ==>
      var i, j := (k - WINDOW_BASE) / LONGS_PER_OUTPUT_ROW, (k - WINDOW_BASE) % LONGS_PER_OUTPUT_ROW;
      0 <= i < MAC_ROWS && 0 <= j < LONGS_PER_INPUT_ROW && k == MirrorPos(i, j)
  {
  }

  /** copy_framebuffer(): `mirror` becomes the mirrored copy of `src`. */
  method CopyFramebuffer(g: Geometry, mirror: array<bv32>, src: seq<bv32>)
    requires mirror.Length == MIRROR_WORDS && |src| >= InputWords(g)
    modifies mirror
    ensures mirror[..] == Mirrored(g, old(mirror[..]), src)
  {
    ghost var before := mirror[..];
    match g
    case Full640x480 =>
      for i := 0 to MIRROR_WORDS
        invariant forall k :: 0 <= k < i ==> mirror[k] == src[k]
      {
        mirror[i] := src[i];
      }
    case Mac512x342 =>
      for i := 0 to MAC_ROWS
        invariant forall k :: 0 <= k < MIRROR_WORDS ==>
          mirror[k] == if InWindow(k) && (k - WINDOW_BASE) / LONGS_PER_OUTPUT_ROW < i
                       then MirrorWord(g, before, src, k) else before[k]
      {
        var dest := WINDOW_BASE + LONGS_PER_OUTPUT_ROW * i;
        var s := LONGS_PER_INPUT_ROW * i;
        for j := 0 to LONGS_PER_INPUT_ROW
          invariant forall k :: 0 <= k < MIRROR_WORDS ==>
            mirror[k] == if InWindow(k) && ((k - WINDOW_BASE) / LONGS_PER_OUTPUT_ROW < i
                            || ((k - WINDOW_BASE) / LONGS_PER_OUTPUT_ROW == i
                                && (k - WINDOW_BASE) % LONGS_PER_OUTPUT_ROW < j))
                         then MirrorWord(g, before, src, k) else before[k]
        {
          RowColumn(i, j);
          mirror[dest + j] := src[s + j] ^ 0xffff_ffff;
        }
      }
  }
}
