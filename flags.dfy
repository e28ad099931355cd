/**
 * The flag register F of the CPU (src/cpu.rs): the four flags live in the
 * high nibble, Zero in bit 7 down to Carry in bit 4.
 */
module Flags {
  import opened Types
  import opened Bits

  datatype Flag = Zero | Subtract | HalfCarry | Carry

  /** The declaration index of a flag, `flag as u8`. */
  function Ordinal(flag: Flag): nat
  {
    match flag
    case Zero => 0
    case Subtract => 1
    case HalfCarry => 2
    case Carry => 3
  }

  /** The bit of F that holds `flag`. */
  function Position(flag: Flag): nat
  {
    7 - Ordinal(flag)
  }

  /** `Flag::to_u8`: the mask `1 << (7 - index)`. */
  function Mask(flag: Flag): (m: u8)
    ensures m == Pow2(Position(flag))
    ensures m == match flag
      case Zero => 0x80
      case Subtract => 0x40
      case HalfCarry => 0x20
      case Carry => 0x10
  {
    SmallPowers();
    Shl8(1, 7 - Ordinal(flag))
  }

  /** `Cpu::get`: whether `flag` is set in `f`, `f & mask != 0`. */
  function Get(f: u8, flag: Flag): (r: bool)
    ensures r == Bit(f, Position(flag))
  {
    BitTest(f, Position(flag));
    And(f, Mask(flag)) != 0
  }

  /**
   * `Cpu::set`: `f | mask` to raise the flag, `f & !mask` to clear it.
   * Exactly that flag changes; the other flags and the low nibble keep
   * their bits.
   */
  function Set(f: u8, flag: Flag, v: bool): (g: u8)
    ensures Get(g, flag) == v
    ensures forall other :: other != flag ==> Get(g, other) == Get(f, other)
    ensures g % 16 == f % 16
  {
    var m := Mask(flag);
    var g: u8 := if v then Or8(f, m) else And(f, Not8(m));
    assert forall k: nat :: k < 8 ==> Bit(g, k) == (if k == Position(flag) then v else Bit(f, k)) by {
      forall k: nat | k < 8
        ensures Bit(g, k) == (if k == Position(flag) then v else Bit(f, k))
      {
        BitPow2(Position(flag), k);
        if !v {
          BitAnd(f, Not8(m), k);
        }
      }
    }
    assert forall other: Flag :: Position(other) == Position(flag) ==> other == flag;
    LowNibble(g, f);
    g
  }
}
