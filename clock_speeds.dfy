/** The system-clock operating points of `enum clk_sys_speed`: each value is
    the integer divider applied to the 528 MHz USB PLL. */
module ClockSpeeds {

  /** The USB PLL frequency that clk_sys is divided from. */
  const USB_PLL_HZ: nat := 528_000_000

  datatype ClkSysSpeed = Sys264MHz | Sys176MHz | Sys132MHz

  /** The enum constant, which `clock_init` uses as the clk_sys divider. */
  function Divider(s: ClkSysSpeed): (d: nat)
    ensures 2 <= d <= 4
  {
    match s
    case Sys264MHz => 2
    case Sys176MHz => 3
    case Sys132MHz => 4
  }

  /** The frequency in MHz that the enum constant's name announces. */
  function NamedMHz(s: ClkSysSpeed): nat {
    match s
    case Sys264MHz => 264
    case Sys176MHz => 176
    case Sys132MHz => 132
  }

  /** clk_sys after `clock_init`: the USB PLL divided by the constant. */
  function SysClockHz(s: ClkSysSpeed): (hz: nat)
    ensures hz * Divider(s) == USB_PLL_HZ
    ensures hz == NamedMHz(s) * 1_000_000
  {
    USB_PLL_HZ / Divider(s)
  }

  /** No two operating points share a divider. */
  lemma DividersDistinct(s: ClkSysSpeed, t: ClkSysSpeed)
    ensures s != t <==> Divider(s) != Divider(t)
  {
  }

  /** A larger divider gives a strictly lower system clock. */
  lemma LargerDividerIsSlower(s: ClkSysSpeed, t: ClkSysSpeed)
    ensures Divider(s) < Divider(t) <==> SysClockHz(s) > SysClockHz(t)
  {
  }
}
