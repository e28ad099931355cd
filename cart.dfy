/**
 * `Cart` of src/cart.rs: a cartridge image with its header table, the two
 * checksums and byte access.  `Header::new`, which this file calls, is not
 * in src/header.rs; it is taken to behave as `make_header` does.
 */
module Cart {
  import opened Types
  import Header
  import Checksums

  datatype Cart = Cart(mem: seq<u8>, headers: seq<Header.Header>)

  /** `Cart::new`: the image is kept as given, beside the 17-field table. */
  function New(mem: seq<u8>): (c: Cart)
    ensures c.mem == mem && |c.headers| == 17 && Header.WellFormed(c.headers)
    ensures exists h <- c.headers :: h.name == "global checksum" && h.range == Header.Range(0x14E, 0x150)
    ensures exists h <- c.headers :: h.name == "title" && h.format == "string" && h.range == Header.Range(0x134, 0x144)
  {
    Header.TableShape(0x150);
    Cart(mem, Header.Table(0x150))
  }

  /**
   * `checksum`: the byte that brings the 25 header bytes, plus 25, to a
   * multiple of 256; fatal on an image shorter than 0x14D bytes.
   */
  function Checksum(c: Cart): (r: Result<u8>)
    ensures r.Ok? <==> Checksums.HEADER_END <= |c.mem|
    ensures r.Ok? ==> (Checksums.Sum(c.mem[Checksums.HEADER_START..Checksums.HEADER_END]) + 25 + r.value) % U8_LIMIT == 0
  {
    Checksums.HeaderChecksum(c.mem)
  }

  /**
   * `global_checksum`: the sum modulo 2^16 of every byte except the two at
   * 0x14D and 0x14E; fatal on an image of at most 0x14E bytes.
   */
  function GlobalChecksum(c: Cart): (r: Result<u16>)
    ensures r.Ok? <==> Checksums.GLOBAL_AT < |c.mem|
    ensures r.Ok? ==> r.value == Checksums.Sum(c.mem[..Checksums.HEADER_END] + c.mem[Checksums.GLOBAL_AT + 1..]) % U16_LIMIT
  {
    Checksums.GlobalChecksum(c.mem)
  }

  /** `is_valid`: the checksum equals the byte at 0x14D, which must exist. */
  function IsValid(c: Cart): (r: Result<bool>)
    ensures r.Ok? <==> Checksums.HEADER_END < |c.mem|
    ensures r.Ok? ==> (r.value <==> Checksum(c) == Ok(c.mem[Checksums.HEADER_END]))
  {
    Checksums.IsValid(c.mem)
  }

  /** `Index<usize>`: the byte at an offset; fatal past the end of the image. */
  function IndexUsize(c: Cart, index: usize): (r: Result<u8>)
    ensures r.Ok? <==> index < |c.mem|
    ensures r.Ok? ==> r.value == c.mem[index]
  {
    if index < |c.mem| then Ok(c.mem[index]) else Fatal
  }

  /** `Index<u16>`: widens the address and agrees with `Index<usize>`. */
  function IndexU16(c: Cart, index: u16): (r: Result<u8>)
    ensures r == IndexUsize(c, index)
  {
    var wide: usize := index as int;
    if wide < |c.mem| then Ok(c.mem[wide]) else Fatal
  }
}
