/**
 * `Memory` of src/memory.rs as a mutable object: fixed-size arrays for the
 * RAMs and the boot ROM, the cartridge bytes, the two one-byte registers and
 * the countdown used by the iterator.  Its contents are abstracted by
 * `Model()` into a `Bus.State`, against which every operation is specified.
 */
module Memory {
  import opened Types
  import Bus

  class Memory {
    var count: u16
    const boot: array<u8>
    var cart: seq<u8>
    const wram: array<u8>
    const vram: array<u8>
    const xram: array<u8>
    var input: u8
    const io: array<u8>
    const hram: array<u8>
    var interrupt: u8

    ghost function Repr(): set<object>
    {
      {this, boot, wram, vram, xram, io, hram}
    }

    ghost predicate Valid()
      reads Repr()
    {
      boot.Length == Bus.BOOT_SIZE && Bus.CART_WINDOW <= |cart| &&
      wram.Length == Bus.WRAM_SIZE && vram.Length == Bus.VRAM_SIZE &&
      xram.Length == Bus.XRAM_SIZE && io.Length == Bus.IO_SIZE && hram.Length == Bus.HRAM_SIZE &&
      wram != vram && wram != xram && vram != xram && io != hram
    }

    /** The stores as one value. */
    ghost function Model(): (s: Bus.State)
      reads Repr()
      requires Valid()
      ensures Bus.Wf(s)
    {
      Bus.State(boot[..], cart, wram[..], vram[..], xram[..], input, io[..], hram[..], interrupt)
    }

    /** The bytes the iterator has still to yield. */
    ghost function Remaining(): seq<u8>
      reads Repr()
      requires Valid()
    {
      Bus.Countdown(Model(), count)
    }

    /** `Memory::new`: the countdown starts at 0xFFFF; work and video RAM hold 127. */
    constructor (bootRom: seq<u8>, cartBytes: seq<u8>)
      requires |bootRom| == Bus.BOOT_SIZE && Bus.CART_WINDOW <= |cartBytes|
      ensures Valid() && fresh(Repr())
      ensures Model() == Bus.Fresh(bootRom, cartBytes)
      ensures count == 0xFFFF
    {
      count := 0xFFFF;
      boot := new u8[Bus.BOOT_SIZE](i requires 0 <= i < Bus.BOOT_SIZE reads {} => bootRom[i]);
      cart := cartBytes;
      wram := new u8[Bus.WRAM_SIZE](_ => 127);
      vram := new u8[Bus.VRAM_SIZE](_ => 127);
      xram := new u8[Bus.XRAM_SIZE](_ => 0);
      input := 0;
      io := new u8[Bus.IO_SIZE](_ => 0);
      hram := new u8[Bus.HRAM_SIZE](_ => 0);
      interrupt := 0;
    }

    /** One byte of one store, read straight from the arrays. */
    function At(cell: Bus.Cell): (r: u8)
      reads Repr()
      requires Valid() && cell.offset < Bus.Extent(cell.region)
      ensures r == Bus.Load(Model(), cell)
    {
      var o := cell.offset;
      match cell.region
      case BootRom => boot[o]
      case CartRom => cart[o]
      case VideoRam => vram[o]
      case ExternalRam => xram[o]
      case WorkRam => wram[o]
      case InputReg => input
      case IoRegs => io[o]
      case HighRam => hram[o]
      case InterruptReg => interrupt
    }

    /** `Index<u16>`: the routed byte, which the one-byte range lookup also returns (`Bus.IndexU16`). */
    method Index(index: u16) returns (r: u8)
      requires Valid()
      ensures r == Bus.Read(Model(), index)
    {
      if index == 0xFF00 {
        r := input;
      } else if index == 0xFFFF {
        r := interrupt;
      } else {
        match Bus.Route(index) {
          case Some(cell) => r := At(cell);
          case None => r := 0;
        }
      }
    }

    /**
     * `IndexMut<usize>` (and `IndexMut<u16>`, which widens the address):
     * replace the byte an address is routed to.
     */
    method Store(index: usize, value: u8)
      requires Valid() && Bus.Writable(index)
      modifies Repr()
      ensures Valid()
      ensures Model() == Bus.Write(old(Model()), index, value)
      ensures count == old(count)
    {
      var o := Bus.Route(index).value.offset;
      match Bus.Route(index).value.region {
        case BootRom => boot[o] := value;
        case CartRom => cart := cart[o := value];
        case VideoRam => vram[o] := value;
        case ExternalRam => xram[o] := value;
        case WorkRam => wram[o] := value;
        case InputReg => input := value;
        case IoRegs => io[o] := value;
        case HighRam => hram[o] := value;
        case InterruptReg => interrupt := value;
      }
    }

    /**
     * `Iterator::next`: count down first (0 would underflow), then yield the
     * byte at the new count unless it reached 0.
     */
    method Next() returns (r: Option<u8>)
      requires Valid() && 0 < count
      modifies this
      ensures Valid() && Model() == old(Model())
      ensures count == old(count) - 1
      ensures r == if count > 0 then Some(Bus.Read(Model(), count)) else None
      ensures old(Remaining()) == if r.Some? then [r.value] + Remaining() else []
    {
      count := count - 1;
      if count > 0 {
        var value := Index(count);
        r := Some(value);
      } else {
        r := None;
      }
    }
  }
}
