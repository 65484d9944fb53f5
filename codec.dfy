/** The audio codec as the firmware sees it over I2C: a paged file of 8-bit
    registers, where a write to register 0 selects the page, and the
    read-modify-write `modifyRegister`. The I2C transfers themselves (and
    their panics on failure) are not modelled; every register write the
    firmware issues is recorded in order. */
module Codec {

  /** Register 0 of every page selects the page. */
  const PAGE_REG: bv8 := 0x00

  /** `(current & ~mask) | (value & mask)`. */
  function Merge(current: bv8, mask: bv8, value: bv8): (r: bv8)
    ensures r & mask == value & mask
    ensures r & !mask == current & !mask
  {
    (current & !mask) | (value & mask)
  }

  /** The merge is the only byte that takes the masked bits from `value`
      and the others from `current`. */
  lemma MergeUnique(current: bv8, mask: bv8, value: bv8, x: bv8)
    requires x & mask == value & mask && x & !mask == current & !mask
    ensures x == Merge(current, mask, value)
  {
    assert x == (x & !mask) | (x & mask);
  }

  /** Merging the same value twice changes nothing more. */
  lemma MergeIdempotent(current: bv8, mask: bv8, value: bv8)
    ensures Merge(Merge(current, mask, value), mask, value) == Merge(current, mask, value)
  {
  }

  /** A one-bit merge sets or clears just that bit. */
  lemma MergeOneBit(current: bv8, bit: bv8, on: bool)
    requires bit == 0x01 || bit == 0x02 || bit == 0x04 || bit == 0x08
          || bit == 0x10 || bit == 0x20 || bit == 0x40 || bit == 0x80
    ensures Merge(current, bit, if on then bit else 0) == if on then current | bit else current & !bit
  {
  }

  /** A register address: page and register number. */
  datatype Addr = Addr(page: bv8, reg: bv8)

  class CodecRegisters {
    /** The page last selected through register 0. */
    var page: bv8
    /** Register contents by (page, register). */
    var regs: map<Addr, bv8>
    /** Every (register, value) written, in order. */
    var writes: seq<(bv8, bv8)>

    /** Every register of every page has a value. */
    ghost predicate Valid()
      reads this
    {
      forall k: Addr :: k in regs
    }

    /** readRegister(reg): the register on the current page. */
    function Read(reg: bv8): (v: bv8)
      requires Valid()
      reads this
      ensures v == regs[Addr(page, reg)]
    {
      regs[Addr(page, reg)]
    }

    constructor (initial: map<Addr, bv8>)
      requires forall k: Addr :: k in initial
      ensures Valid() && regs == initial && page == 0 && writes == []
    {
      page := 0;
      regs := initial;
      writes := [];
    }

    /** writeRegister(reg, value); register 0 also selects the page. */
    method Write(reg: bv8, value: bv8)
      requires Valid()
      modifies this
      ensures Valid()
      ensures regs == old(regs)[Addr(old(page), reg) := value]
      ensures page == if reg == PAGE_REG then value else old(page)
      ensures writes == old(writes) + [(reg, value)]
    {
      regs := regs[Addr(page, reg) := value];
      if reg == PAGE_REG {
        page := value;
      }
      writes := writes + [(reg, value)];
    }

    /** setPage(page). */
    method SetPage(p: bv8)
      requires Valid()
      modifies this
      ensures Valid()
      ensures page == p && regs == old(regs)[Addr(old(page), PAGE_REG) := p]
      ensures writes == old(writes) + [(PAGE_REG, p)]
    {
      Write(PAGE_REG, p);
    }

    /** modifyRegister(reg, mask, value): the bits under `mask` take their
        values from `value`, the others keep theirs. */
    method Modify(reg: bv8, mask: bv8, value: bv8)
      requires Valid() && reg != PAGE_REG
      modifies this
      ensures Valid() && page == old(page)
      ensures regs == old(regs)[Addr(page, reg) := Merge(old(Read(reg)), mask, value)]
      ensures Read(reg) & mask == value & mask
      ensures Read(reg) & !mask == old(Read(reg)) & !mask
      ensures writes == old(writes) + [(reg, Merge(old(Read(reg)), mask, value))]
    {
      var current := Read(reg);
      Write(reg, Merge(current, mask, value));
    }
  }
}
