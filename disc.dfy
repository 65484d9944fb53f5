/** Disc selection (`disc_setup`) and the status rule of the SD-backed block
    operations (`disc_do_read`, `disc_do_write`). The FatFS calls are not
    modelled: their results are inputs. */
module Disc {

  /** A FatFS result code: FR_OK, FR_EXIST, or any other failure. */
  datatype FResult = FrOk | FrExist | FrFailed(code: nat)

  /** The one image name that is opened read-only. */
  const READ_ONLY_NAME: string := "umac0ro.img"

  /** Where drive 0's data lives: the opened SD-card file, or the disc image
      linked into flash. */
  datatype Backing = SdFile | FlashImage

  /** `discs[0]`: the backing, the read-only flag and the size in bytes. */
  datatype DiscDescr = DiscDescr(backing: Backing, readOnly: bool, size: nat)

  /** disc_setup(): with SD support built in (`useSd`), the card is mounted,
      the first `umac0*.img` found is opened and, when all of that succeeds
      (an open reporting FR_EXIST counts as success), it backs the drive,
      read-only exactly when it is `umac0ro.img`, with the file's size. On
      any failure, or without SD support, the flash image is used,
      read-only and of the flash image's size. */
  function DiscSetup(useSd: bool, mount: FResult, find: FResult, name: string, open: FResult,
                     fileSize: nat, flashSize: nat): (d: DiscDescr)
    ensures d.backing == SdFile <==>
      useSd && mount == FrOk && find == FrOk && (open == FrOk || open == FrExist)
    ensures d.backing == SdFile ==> d.readOnly == (name == READ_ONLY_NAME) && d.size == fileSize
    ensures d.backing == FlashImage ==> d.readOnly && d.size == flashSize
  {
    var flash := DiscDescr(FlashImage, true, flashSize);
    if !useSd then flash
    else if mount != FrOk then flash
    else if find != FrOk then flash
    else
      var readOnly := name == READ_ONLY_NAME;
      if open != FrOk && open != FrExist then flash
      else DiscDescr(SdFile, readOnly, fileSize)
  }

  /** disc_do_read / disc_do_write: after the FatFS transfer that returned
      `fr` and moved `done` of the `len` bytes asked for, the result is 0 when
      the whole transfer succeeded, and -1 otherwise (a short transfer is
      an error even when FatFS reports success). */
  function TransferStatus(fr: FResult, len: nat, done: nat): (r: int)
    ensures r == 0 || r == -1
    ensures r == 0 <==> fr == FrOk && done == len
  {
    if fr != FrOk || len != done then -1 else 0
  }
}
