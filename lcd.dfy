/**
 * The LCD controller of src/lcd.rs: a mode, a scroll value and the control
 * register (0xFF40), whose bits select tile maps, tile data, sprite size
 * and the enable switches.  Every decoder tests one bit of `control` with
 * a mask, as the source does; each contract names that bit.
 */
module Lcd {
  import opened Types
  import opened Bits

  datatype Mode = Hblank | Vblank | Oam | Vram

  /** The fields of `LCD` that hold state; the pixel buffer and the window are not modelled. */
  datatype Lcd = Lcd(mode: Mode, scroll: u16, control: u8)

  /** `Range<u16>`: a half-open run of addresses. */
  datatype Span = Span(start: u16, end: u16)

  /** `LCD::new`: horizontal blank, scroll 0, every control bit clear. */
  function New(): (l: Lcd)
    ensures l.mode == Hblank && l.scroll == 0
    ensures forall k: nat :: !Bit(l.control, k)
  {
    forall k: nat ensures !Bit(0, k) {
      BitZero(k);
    }
    Lcd(Hblank, 0x0000, 0)
  }

  /**
   * `step`: when the display is on, every mode returns at once; when it is
   * off nothing happens either.  No field changes.
   */
  function Step(l: Lcd): (r: Lcd)
    ensures r == l
  {
    if Enable(l) then
      match l.mode
      case Hblank => l
      case Vblank => l
      case Oam => l
      case Vram => l
    else l
  }

  /** `enable`: bit 7. */
  function Enable(l: Lcd): (r: bool)
    ensures r == Bit(l.control, 7)
  {
    SmallPowers();
    BitTest(l.control, 7);
    And(l.control, 0x80) != 0
  }

  /** `window_tile_map_display_select`: bit 6 picks the second tile map. */
  function WindowTileMap(l: Lcd): (r: Span)
    ensures r == if Bit(l.control, 6) then Span(0x9C00, 0x9FFF) else Span(0x9800, 0x9BFF)
  {
    SmallPowers();
    BitTest(l.control, 6);
    if And(l.control, 0x40) == 0 then Span(0x9800, 0x9BFF) else Span(0x9C00, 0x9FFF)
  }

  /** `window_display_enable`: bit 5. */
  function WindowDisplayEnable(l: Lcd): (r: bool)
    ensures r == Bit(l.control, 5)
  {
    SmallPowers();
    BitTest(l.control, 5);
    And(l.control, 0x20) != 0
  }

  /** `bg_and_window_tile_data_select`: bit 4 picks the tile data at 0x8000. */
  function TileData(l: Lcd): (r: Span)
    ensures r == if Bit(l.control, 4) then Span(0x8000, 0x8FFF) else Span(0x8800, 0x97FF)
  {
    SmallPowers();
    BitTest(l.control, 4);
    if And(l.control, 0x10) == 0 then Span(0x8800, 0x97FF) else Span(0x8000, 0x8FFF)
  }

  /** `bg_tile_map_display_select`: bit 3 picks the second tile map. */
  function BgTileMap(l: Lcd): (r: Span)
    ensures r == if Bit(l.control, 3) then Span(0x9C00, 0x9FFF) else Span(0x9800, 0x9BFF)
  {
    SmallPowers();
    BitTest(l.control, 3);
    if And(l.control, 0x08) == 0 then Span(0x9800, 0x9BFF) else Span(0x9C00, 0x9FFF)
  }

  /** `obj_size`: bit 2 makes sprites 8 by 16 instead of 8 by 8. */
  function ObjSize(l: Lcd): (r: (u8, u8))
    ensures r == if Bit(l.control, 2) then (8, 16) else (8, 8)
  {
    SmallPowers();
    BitTest(l.control, 2);
    if And(l.control, 0x04) == 0 then (8, 8) else (8, 16)
  }

  /** `obj_display_enable`: bit 1. */
  function ObjDisplayEnable(l: Lcd): (r: bool)
    ensures r == Bit(l.control, 1)
  {
    SmallPowers();
    BitTest(l.control, 1);
    And(l.control, 0x02) != 0
  }

  /** `bg_display`: bit 0. */
  function BgDisplay(l: Lcd): (r: bool)
    ensures r == Bit(l.control, 0)
  {
    SmallPowers();
    BitTest(l.control, 0);
    And(l.control, 0x01) != 0
  }

  /** A fresh LCD is switched off. */
  lemma NewIsOff()
    ensures !Enable(New()) && New().mode == Hblank
  {
  }

  /** `control` with bit `j` flipped. */
  function Flip(control: u8, j: nat): (r: u8)
    requires j < 8
    ensures forall k: nat :: Bit(r, k) == (Bit(control, k) != (k == j))
  {
    PowMonotone(j, 8);
    SmallPowers();
    forall k: nat ensures Bit(Pow2(j), k) == (k == j) {
      BitPow2(j, k);
    }
    Xor8(control, Pow2(j))
  }

  /**
   * Each decoder reads only its own bit: flipping bit `j` changes the one
   * decoder that tests `j` and leaves every other decoder as it was.
   */
  lemma {:induction false} OwnBit(l: Lcd, j: nat)
    requires j < 8
    ensures var m := l.(control := Flip(l.control, j));
      (Enable(m) == Enable(l) <==> j != 7) &&
      (WindowTileMap(m) == WindowTileMap(l) <==> j != 6) &&
      (WindowDisplayEnable(m) == WindowDisplayEnable(l) <==> j != 5) &&
      (TileData(m) == TileData(l) <==> j != 4) &&
      (BgTileMap(m) == BgTileMap(l) <==> j != 3) &&
      (ObjSize(m) == ObjSize(l) <==> j != 2) &&
      (ObjDisplayEnable(m) == ObjDisplayEnable(l) <==> j != 1) &&
      (BgDisplay(m) == BgDisplay(l) <==> j != 0)
  {
  }
}
