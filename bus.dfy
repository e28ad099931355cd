/**
 * The memory map of src/memory.rs as pure functions over a snapshot of the
 * backing stores.  Writes go through the address routing of `IndexMut`;
 * single-byte reads go through the range lookup of `Index<Range<usize>>`,
 * exactly as the Rust code does, and the lemmas below show how the two
 * paths agree.
 */
module Bus {
  import opened Types

  const BOOT_SIZE: nat := 0x100
  /** The part of the cartridge the map can reach: 0x0100..=0x7FFF. */
  const CART_WINDOW: nat := 0x7FFF - 0x0100 + 1
  const WRAM_SIZE: nat := 0xDFFF - 0xC000 + 1
  const VRAM_SIZE: nat := 0x9FFF - 0x8000 + 1
  const XRAM_SIZE: nat := 0xBFFF - 0xA000 + 1
  const HRAM_SIZE: nat := 0xFFFE - 0xFF80 + 1
  const IO_SIZE: nat := 0xFF7F - 0xFF01 + 1

  datatype Region = BootRom | CartRom | VideoRam | ExternalRam | WorkRam
                  | InputReg | IoRegs | HighRam | InterruptReg

  /** One byte of one backing store. */
  datatype Cell = Cell(region: Region, offset: nat)

  datatype State = State(
    boot: seq<u8>,
    cart: seq<u8>,
    wram: seq<u8>,
    vram: seq<u8>,
    xram: seq<u8>,
    input: u8,
    io: seq<u8>,
    hram: seq<u8>,
    interrupt: u8)

  /** The stores have the sizes of the Rust arrays; the cartridge covers its window. */
  predicate Wf(s: State)
  {
    |s.boot| == BOOT_SIZE && CART_WINDOW <= |s.cart| &&
    |s.wram| == WRAM_SIZE && |s.vram| == VRAM_SIZE && |s.xram| == XRAM_SIZE &&
    |s.io| == IO_SIZE && |s.hram| == HRAM_SIZE
  }

  /** The bytes of a region, the one-byte registers as one-element arrays. */
  function Contents(s: State, region: Region): seq<u8>
  {
    match region
    case BootRom => s.boot
    case CartRom => s.cart
    case VideoRam => s.vram
    case ExternalRam => s.xram
    case WorkRam => s.wram
    case InputReg => [s.input]
    case IoRegs => s.io
    case HighRam => s.hram
    case InterruptReg => [s.interrupt]
  }

  /** How many bytes of a region the address map reaches. */
  function Extent(region: Region): (n: nat)
    ensures forall s :: Wf(s) ==> n <= |Contents(s, region)|
  {
    match region
    case BootRom => BOOT_SIZE
    case CartRom => CART_WINDOW
    case VideoRam => VRAM_SIZE
    case ExternalRam => XRAM_SIZE
    case WorkRam => WRAM_SIZE
    case InputReg => 1
    case IoRegs => IO_SIZE
    case HighRam => HRAM_SIZE
    case InterruptReg => 1
  }

  /**
   * `IndexMut<usize>`: the cell an address is written through.  `None` is the
   * panic for an address with no mapping.
   */
  function Route(index: usize): (r: Option<Cell>)
    ensures r.None? <==> (0xFE00 <= index <= 0xFEFF || 0xFFFF < index)
    ensures r.Some? ==> r.value.offset < Extent(r.value.region)
  {
    if index <= 0x00FF then Some(Cell(BootRom, index - 0x0000))
    else if 0x0100 <= index <= 0x7FFF then Some(Cell(CartRom, index - 0x0100))
    else if 0x8000 <= index <= 0x9FFF then Some(Cell(VideoRam, index - 0x8000))
    else if 0xA000 <= index <= 0xBFFF then Some(Cell(ExternalRam, index - 0xA000))
    else if 0xC000 <= index <= 0xDFFF then Some(Cell(WorkRam, index - 0xC000))
    else if 0xE000 <= index <= 0xFDFF then Some(Cell(WorkRam, index - 0xE000))
    else if index == 0xFF00 then Some(Cell(InputReg, index - 0xFF00))
    else if 0xFF01 <= index <= 0xFF7F then Some(Cell(IoRegs, index - 0xFF01))
    else if 0xFF80 <= index <= 0xFFFE then Some(Cell(HighRam, index - 0xFF80))
    else if index == 0xFFFF then Some(Cell(InterruptReg, index - 0xFFFF))
    else None
  }

  predicate Writable(index: usize)
  {
    Route(index).Some?
  }

  /** `b` is the echo-RAM mirror of `a` (or the other way round). */
  predicate Alias(a: int, b: int)
  {
    (0xC000 <= a <= 0xDDFF && b == a + 0x2000) || (0xE000 <= a <= 0xFDFF && b == a - 0x2000)
  }

  /** Two addresses share a cell exactly when they are equal or echo aliases. */
  lemma RouteShared(i: usize, j: usize)
    requires Writable(i) && Writable(j)
    ensures Route(i) == Route(j) <==> (i == j || Alias(i, j))
  {
  }

  function Load(s: State, cell: Cell): u8
    requires cell.offset < |Contents(s, cell.region)|
  {
    Contents(s, cell.region)[cell.offset]
  }

  /** Replace one byte of one store; every other store is untouched. */
  function Store(s: State, cell: Cell, v: u8): (t: State)
    requires cell.offset < |Contents(s, cell.region)|
    ensures Contents(t, cell.region) == Contents(s, cell.region)[cell.offset := v]
    ensures forall r :: r != cell.region ==> Contents(t, r) == Contents(s, r)
  {
    var o := cell.offset;
    match cell.region
    case BootRom => s.(boot := s.boot[o := v])
    case CartRom => s.(cart := s.cart[o := v])
    case VideoRam => s.(vram := s.vram[o := v])
    case ExternalRam => s.(xram := s.xram[o := v])
    case WorkRam => s.(wram := s.wram[o := v])
    case InputReg => s.(input := v)
    case IoRegs => s.(io := s.io[o := v])
    case HighRam => s.(hram := s.hram[o := v])
    case InterruptReg => s.(interrupt := v)
  }

  /** `memory[index] = v` through `IndexMut<usize>`. */
  function Write(s: State, index: usize, v: u8): (t: State)
    requires Wf(s) && Writable(index)
    ensures Wf(t)
    ensures Read(t, index) == v
  {
    Store(s, Route(index).value, v)
  }

  /**
   * What an address holds: the cell the write routing maps it to, or 0 for
   * the unmapped page 0xFE00..=0xFEFF.  `IndexU16` below shows that the
   * range-based lookup of the source reads exactly this.
   */
  function Read(s: State, index: u16): u8
    requires Wf(s)
  {
    match Route(index)
    case Some(cell) => Load(s, cell)
    case None => 0
  }

  /** Which store a range read slices, and from which base address. */
  datatype Backing = Slice(region: Region, base: nat) | Whole(region: Region) | Blank

  /** The arm of the match in `Index<Range<usize>>` that `(start, end)` selects. */
  function Arm(start: usize, end: usize): (r: Option<Backing>)
    ensures r.Some? && r.value.Slice? ==> r.value.base <= start && r.value.base <= end
  {
    if start <= 0x00FF && end <= 0x00FF then Some(Slice(BootRom, 0x0000))
    else if 0x0100 <= start <= 0x7FFF && 0x0100 <= end <= 0x7FFF then Some(Slice(CartRom, 0x0100))
    else if 0x8000 <= start <= 0x9FFF && 0x8000 <= end <= 0x9FFF then Some(Slice(VideoRam, 0x8000))
    else if 0xA000 <= start <= 0xBFFF && 0xA000 <= end <= 0xBFFF then Some(Slice(ExternalRam, 0xA000))
    else if 0xC000 <= start <= 0xDFFF && 0xC000 <= end <= 0xDFFF then Some(Slice(WorkRam, 0xC000))
    else if 0xE000 <= start <= 0xFDFF && 0xE000 <= end <= 0xFDFF then Some(Slice(WorkRam, 0xE000))
    else if 0xFE00 <= start <= 0xFEFF && 0xFE00 <= end <= 0xFEFF then Some(Blank)
    else if start == 0xFF00 && end == 0xFF00 then Some(Whole(InputReg))
    else if 0xFF01 <= start <= 0xFF7F && 0xFF01 <= end <= 0xFF7F then Some(Slice(IoRegs, 0xFF01))
    else if 0xFF80 <= start <= 0xFFFF && 0xFF80 <= end <= 0xFFFE then Some(Slice(HighRam, 0xFF80))
    else if start == 0xFFFF && end == 0x0000 then Some(Whole(InterruptReg))
    else None
  }

  /** The region a single address falls in, as the range arms see it. */
  function Window(a: usize): Option<Backing>
  {
    Arm(a, a)
  }

  /**
   * `Index<Range<usize>>`: a range whose end is one past its start is looked
   * up by its start alone; the slice itself always uses the real end, and
   * slicing backwards or past the store panics.
   */
  function ReadRange(s: State, start: usize, end: usize): (r: Result<seq<u8>>)
    ensures 0xFFFF < start ==> r == Fatal
    ensures Wf(s) && start < 0xFFFF && end == start + 1 ==> r == Ok([Read(s, start)])
  {
    var last := if WrappingSubUsize(end, start) == 1 then start else end;
    OneByteSlice(s, start, end);
    match Arm(start, last)
    case None => Fatal
    case Some(Blank) => Ok([0])
    case Some(Whole(region)) => Ok(Contents(s, region))
    case Some(Slice(region, base)) =>
      var data := Contents(s, region);
      if start <= end && end - base <= |data| then Ok(data[start - base .. end - base]) else Fatal
  }

  /**
   * For a one-byte range below 0xFFFF the lookup goes by the start alone,
   * and a sliced window holds, at the start, the byte the write routing
   * maps it to.
   */
  lemma OneByteSlice(s: State, start: usize, end: usize)
    ensures Wf(s) && start < 0xFFFF && end == start + 1 ==>
      WrappingSubUsize(end, start) == 1 && Window(start).Some? &&
      (Window(start).value.Slice? ==>
        var data, o := Contents(s, Window(start).value.region), start - Window(start).value.base;
        o + 1 <= |data| && data[o .. o + 1] == [Read(s, start)])
  {
    if Wf(s) && start < 0xFFFF && end == start + 1 && Window(start).Some? && Window(start).value.Slice? {
      var data, o := Contents(s, Window(start).value.region), start - Window(start).value.base;
      WindowRoute(start);
      assert data[o .. o + 1] == [data[o]];
    }
  }

  /** A single address's window slices the store its write route names, at the same offset. */
  lemma WindowRoute(a: u16)
    requires Window(a).Some? && Window(a).value.Slice?
    ensures Route(a) == Some(Cell(Window(a).value.region, a - Window(a).value.base))
  {
  }

  /**
   * `Index<u16>`: the input and interrupt registers directly, every other
   * address through a one-byte range.  Every address reads the cell the
   * write routing maps it to, and the unmapped page reads as 0.
   */
  function IndexU16(s: State, index: u16): (r: u8)
    requires Wf(s)
    ensures r == Read(s, index)
  {
    if index == 0xFF00 then s.input
    else if index == 0xFFFF then s.interrupt
    else ReadRange(s, index, index + 1).value[0]
  }

  /** `Index<usize>`: always through a one-byte range, so 0xFFFF has no mapping. */
  function ReadUsize(s: State, index: usize): (r: Result<u8>)
    requires Wf(s)
    ensures index < 0xFFFF ==> r == Ok(Read(s, index))
    ensures 0xFFFF <= index ==> r == Fatal
  {
    if index == USIZE_LIMIT - 1 then Fatal
    else match ReadRange(s, index, index + 1)
      case Ok(bytes) => if |bytes| > 0 then Ok(bytes[0]) else Fatal
      case Fatal => Fatal
  }

  /** Writing an address and reading it back yields the byte written. */
  lemma ReadAfterWrite(s: State, a: u16, v: u8)
    requires Wf(s) && Writable(a)
    ensures Read(Write(s, a, v), a) == v
  {
  }

  /** A write leaves every address alone except itself and its echo alias. */
  lemma ReadOtherAfterWrite(s: State, a: u16, b: u16, v: u8)
    requires Wf(s) && Writable(a) && b != a && !Alias(a, b)
    ensures Read(Write(s, a, v), b) == Read(s, b)
  {
    if Writable(b) {
      RouteShared(a, b);
    }
  }

  /** Work RAM and its echo at 0xE000..=0xFDFF are the same bytes. */
  lemma EchoMirrors(s: State, a: u16, v: u8)
    requires Wf(s) && 0xC000 <= a <= 0xDDFF
    ensures Read(Write(s, a, v), a + 0x2000) == v
    ensures Read(Write(s, a + 0x2000, v), a) == v
  {
  }

  /** The unmapped page reads as 0 whatever was written elsewhere, and cannot be written. */
  lemma UnmappedPage(s: State, a: u16)
    requires Wf(s) && 0xFE00 <= a <= 0xFEFF
    ensures Read(s, a) == 0 && !Writable(a)
  {
  }

  /**
   * A forward range of two or more bytes is served only when its start and
   * its (exclusive) end fall in the same region; a served slice holds the
   * bytes that single reads of its addresses return.
   */
  lemma LongRange(s: State, start: usize, end: usize)
    requires Wf(s) && start + 1 < end
    ensures ReadRange(s, start, end).Ok? <==> (Window(start).Some? && Window(start) == Window(end))
    ensures ReadRange(s, start, end).Ok? && Window(start).value.Slice? ==>
      end <= 0xFFFF &&
      |ReadRange(s, start, end).value| == end - start &&
      forall i :: 0 <= i < end - start ==> ReadRange(s, start, end).value[i] == Read(s, start + i)
    ensures ReadRange(s, start, end).Ok? && Window(start).value.Blank? ==>
      ReadRange(s, start, end).value == [0]
  {
    if ReadRange(s, start, end).Ok? && Window(start).value.Slice? {
      var data := ReadRange(s, start, end).value;
      forall i | 0 <= i < end - start
        ensures data[i] == Read(s, start + i)
      {
        assert Route(start + i).Some?;
      }
    }
  }

  /**
   * A backward range is served only by the two arms that never slice: the
   * unmapped page and the interrupt register's `0xFFFF..0x0000`.
   */
  lemma BackwardRange(s: State, start: usize, end: usize)
    requires Wf(s) && end < start
    ensures ReadRange(s, start, end).Ok? <==>
      (Window(start) == Window(end) == Some(Blank)) || (start == 0xFFFF && end == 0)
  {
  }

  /**
   * The bytes `Iterator::next` yields from `count == n` on: the addresses
   * n - 1 down to 1, highest first.
   */
  function Countdown(s: State, n: u16): (r: seq<u8>)
    requires Wf(s)
    ensures |r| == if n == 0 then 0 else n - 1
  {
    if n == 0 then [] else seq(n - 1, i requires 0 <= i < n - 1 => Read(s, n - 1 - i))
  }

  /**
   * `Memory::new`: work and video RAM filled with 127, the rest zeroed.
   * Each address then reads the boot ROM, the image, 127 or 0.
   */
  function Fresh(boot: seq<u8>, cart: seq<u8>): (s: State)
    requires |boot| == BOOT_SIZE && CART_WINDOW <= |cart|
    ensures Wf(s)
    ensures forall a: u16 :: Read(s, a) ==
              if a <= 0x00FF then boot[a]
              else if a <= 0x7FFF then cart[a - 0x0100]
              else if 0x8000 <= a <= 0x9FFF || 0xC000 <= a <= 0xFDFF then 127
              else 0
  {
    State(boot, cart,
      seq(WRAM_SIZE, _ => 127), seq(VRAM_SIZE, _ => 127), seq(XRAM_SIZE, _ => 0),
      0, seq(IO_SIZE, _ => 0), seq(HRAM_SIZE, _ => 0), 0)
  }
}
