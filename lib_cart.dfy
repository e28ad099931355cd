/**
 * `Cart` of src/lib/cart.rs: the same image and checksums as src/cart.rs,
 * with a `Default` that holds a one-byte image.
 */
module LibCart {
  import opened Types
  import Header
  import Checksums

  datatype Cart = Cart(mem: seq<u8>, headers: seq<Header.Header>)

  /**
   * `Cart::default()`: the image `[0]` and the 17-field table, whose global
   * checksum covers 0x14E..0x150.
   */
  function Default(): (c: Cart)
    ensures c.mem == [0] && |c.headers| == 17 && Header.WellFormed(c.headers)
    ensures exists h <- c.headers :: h.name == "global checksum" && h.range == Header.Range(0x14E, 0x150)
    ensures exists h <- c.headers :: h.name == "title" && h.format == "string" && h.range == Header.Range(0x134, 0x144)
  {
    Header.TableShape(0x150);
    Cart([0], Header.Table(0x150))
  }

  /** `checksum`: fatal on an image shorter than 0x14D bytes. */
  function Checksum(c: Cart): (r: Result<u8>)
    ensures r.Ok? <==> Checksums.HEADER_END <= |c.mem|
    ensures r.Ok? ==> r.value == (-(Checksums.Sum(c.mem[Checksums.HEADER_START..Checksums.HEADER_END]) as int) - 25) % U8_LIMIT
  {
    Checksums.HeaderChecksum(c.mem)
  }

  /** `global_checksum`: the wrapping sum, less the two bytes at 0x14D and 0x14E. */
  function GlobalChecksum(c: Cart): (r: Result<u16>)
    ensures r.Ok? <==> Checksums.GLOBAL_AT < |c.mem|
    ensures r.Ok? ==> r.value == (Checksums.Sum(c.mem) - c.mem[Checksums.HEADER_END] - c.mem[Checksums.GLOBAL_AT]) % U16_LIMIT
  {
    if Checksums.GLOBAL_AT < |c.mem| then
      Checksums.SumWithout(c.mem);
      Checksums.GlobalChecksum(c.mem)
    else
      Fatal
  }

  /** `is_valid`: the checksum equals the byte at 0x14D, which must exist. */
  function IsValid(c: Cart): (r: Result<bool>)
    ensures r.Ok? <==> Checksums.HEADER_END < |c.mem|
    ensures r.Ok? ==> (r.value <==> Checksum(c).value == c.mem[Checksums.HEADER_END])
  {
    Checksums.IsValid(c.mem)
  }

  /** On the default cart, the checksum's range read and `is_valid` are both fatal. */
  lemma DefaultInvalid()
    ensures Checksum(Default()) == Fatal && IsValid(Default()) == Fatal
  {
  }
}
