/**
 * The header descriptions of src/header.rs and src/lib/range.rs, and the
 * table of header fields the three cartridge types carry.
 */
module Header {
  import opened Types

  /** `range::Range`: a half-open run of image offsets. */
  datatype Range = Range(start: usize, end: usize)

  /** `Header`: a field's name, how it is shown, and where it lies. */
  datatype Header = Header(name: string, format: string, range: Range)

  /** `Range::default()` */
  const DEFAULT_RANGE := Range(0, 1)

  /** `Header::default()` */
  const DEFAULT := Header("default", "", DEFAULT_RANGE)

  /**
   * `make_header` (src/lib/cart.rs and, identically, src/lib/rom.rs): the
   * name and range given, everything else from `Header::default()`.
   */
  function Make(name: string, start: usize, end: usize): (h: Header)
    ensures h.name == name && h.range.start == start && h.range.end == end
    ensures h.format == DEFAULT.format == ""
  {
    DEFAULT.(name := name, range := Range(start, end))
  }

  /** The one field shown as text. */
  const TITLE := Header("title", "string", Range(0x134, 0x144))

  /**
   * The 17 header fields, in source order.  The three tables differ only
   * in where the global checksum ends.
   */
  function Table(globalEnd: usize): seq<Header>
  {
    [ Make("entry point", 0x100, 0x104),
      Make("logo", 0x104, 0x134),
      TITLE,
      Make("manufacturer", 0x13F, 0x142),
      Make("color game boy", 0x143, 0x144),
      Make("new licensee", 0x144, 0x146),
      Make("super game boy", 0x146, 0x147),
      Make("cart type", 0x147, 0x148),
      Make("rom size", 0x148, 0x149),
      Make("ram size", 0x149, 0x14A),
      Make("destination", 0x14A, 0x14B),
      Make("old licensee", 0x14B, 0x14C),
      Make("make rom version", 0x14C, 0x14D),
      Make("header checksum", 0x14D, 0x14E),
      Make("global checksum", 0x14E, globalEnd),
      Make("short header", 0x134, 0x14D),
      Make("full header", 0x100, 0x14F) ]
  }

  /**
   * Every field is a non-empty range inside the header area
   * [0x100, 0x150), and only the title is shown as text.
   */
  ghost predicate WellFormed(table: seq<Header>)
  {
    forall h <- table :: Field(h)
  }

  /** One header field: a non-empty range in [0x100, 0x150), text only for the title. */
  ghost predicate Field(h: Header)
  {
    0x100 <= h.range.start < h.range.end <= 0x150 &&
    (h.format == "string" <==> h.name == "title")
  }

  /**
   * The table has 17 well-formed entries and the global checksum covers
   * 0x14E up to the end given.
   */
  lemma TableShape(globalEnd: usize)
    requires 0x14E < globalEnd <= 0x150
    ensures |Table(globalEnd)| == 17
    ensures WellFormed(Table(globalEnd))
    ensures exists h <- Table(globalEnd) :: h.name == "global checksum" && h.range == Range(0x14E, globalEnd)
    ensures exists h <- Table(globalEnd) :: h.name == "title" && h.format == "string" && h.range == Range(0x134, 0x144)
  {
    TableFields(globalEnd);
    var table := Table(globalEnd);
    assert table[14].name == "global checksum";
    assert table[2] == TITLE;
  }

  /** Every entry of the table is a well-formed field. */
  lemma TableFields(globalEnd: usize)
    requires 0x14E < globalEnd <= 0x150
    ensures WellFormed(Table(globalEnd))
  {
    var table := Table(globalEnd);
    forall i | 0 <= i < |table| ensures Field(table[i]) {
      assert table[i].format == "string" ==> i == 2;
    }
  }
}
