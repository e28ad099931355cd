/**
 * `Rom` of src/lib/rom.rs: an image with the header checksum only, whose
 * `Default` table ends the global checksum at 0x14F.
 */
module LibRom {
  import opened Types
  import Header
  import Checksums

  datatype Rom = Rom(mem: seq<u8>, headers: seq<Header.Header>)

  /**
   * `Rom::default()`: the image `[0]` and the 17-field table, whose global
   * checksum covers 0x14E..0x14F only.
   */
  function Default(): (r: Rom)
    ensures r.mem == [0] && |r.headers| == 17 && Header.WellFormed(r.headers)
    ensures exists h <- r.headers :: h.name == "global checksum" && h.range == Header.Range(0x14E, 0x14F)
    ensures exists h <- r.headers :: h.name == "title" && h.format == "string" && h.range == Header.Range(0x134, 0x144)
  {
    Header.TableShape(0x14F);
    Rom([0], Header.Table(0x14F))
  }

  /** `checksum`: fatal on an image shorter than 0x14D bytes. */
  function Checksum(rom: Rom): (r: Result<u8>)
    ensures r.Ok? <==> Checksums.HEADER_END <= |rom.mem|
    ensures r.Ok? ==> (Checksums.Sum(rom.mem[Checksums.HEADER_START..Checksums.HEADER_END]) + 25 + r.value) % U8_LIMIT == 0
  {
    Checksums.HeaderChecksum(rom.mem)
  }

  /** `is_valid`: the header bytes, 25 and the byte at 0x14D add up to a multiple of 256. */
  function IsValid(rom: Rom): (r: Result<bool>)
    ensures r.Ok? <==> Checksums.HEADER_END < |rom.mem|
    ensures r.Ok? ==> (r.value <==>
      (Checksums.Sum(rom.mem[Checksums.HEADER_START..Checksums.HEADER_END]) + 25 + rom.mem[Checksums.HEADER_END]) % U8_LIMIT == 0)
  {
    Checksums.IsValid(rom.mem)
  }

  /** Changing a byte outside 0x134..0x14D leaves `is_valid` as it was. */
  lemma IsValidFrame(rom: Rom, i: nat, v: u8)
    requires i < |rom.mem| && !(Checksums.HEADER_START <= i <= Checksums.HEADER_END)
    ensures IsValid(rom.(mem := rom.mem[i := v])) == IsValid(rom)
  {
    Checksums.IsValidFrame(rom.mem, i, v);
  }

  /** On the default ROM, `is_valid` is fatal: the image has one byte. */
  lemma DefaultInvalid()
    ensures IsValid(Default()) == Fatal
  {
  }
}
