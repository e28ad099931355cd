/**
 * The two cartridge checksums shared by src/cart.rs, src/lib/cart.rs and
 * src/lib/rom.rs.
 *
 * The header checksum folds `acc := acc - b - 1` (mod 256) from 0 over the
 * 25 bytes 0x134..0x14C and is compared with the byte at 0x14D.  The global
 * checksum adds every byte of the image modulo 2^16 and then takes away the
 * two bytes at 0x14D and 0x14E.
 *
 * Both folds are modelled twice: as written, where the plain `b + 1` on a
 * `u8` and the plain `-` on the `u16` sum panic, and corrected, with the
 * wrapping arithmetic the rest of each fold already uses.  The cartridge
 * modules use the corrected forms.
 */
module Checksums {
  import opened Types

  /** First address the header checksum covers. */
  const HEADER_START: nat := 0x134
  /** One past the last address it covers; also where the expected checksum is stored. */
  const HEADER_END: nat := 0x14D
  /** Where the 16-bit global checksum is stored (two bytes). */
  const GLOBAL_AT: nat := 0x14E

  /** The plain sum of some bytes. */
  function Sum(bytes: seq<u8>): nat
  {
    if |bytes| == 0 then 0 else bytes[0] + Sum(bytes[1..])
  }

  lemma {:induction false} SumAppend(s: seq<u8>, t: seq<u8>)
    ensures Sum(s + t) == Sum(s) + Sum(t)
    decreases |s|
  {
    if |s| == 0 {
      assert s + t == t;
    } else {
      assert (s + t)[1..] == s[1..] + t;
      SumAppend(s[1..], t);
    }
  }

  lemma {:induction false} SumConstant(n: nat, v: u8)
    ensures Sum(seq(n, _ => v)) == n * v
  {
    if n > 0 {
      assert seq(n, _ => v)[1..] == seq(n - 1, _ => v);
      SumConstant(n - 1, v);
    }
  }

  // ---------------------------------------------------------------- header

  /**
   * The header fold as written: `acc.wrapping_sub(b + 1)`, where `b + 1`
   * panics when `b` is 0xFF.
   */
  function FoldAsWritten(acc: u8, bytes: seq<u8>): (r: Result<u8>)
    ensures r.Ok? <==> 0xFF !in bytes
    decreases |bytes|
  {
    if |bytes| == 0 then Ok(acc)
    else if bytes[0] == 0xFF then Fatal
    else
      assert bytes == [bytes[0]] + bytes[1..];
      FoldAsWritten((acc - (bytes[0] + 1)) % U8_LIMIT, bytes[1..])
  }

  /** The header fold with `b + 1` wrapping as well: `acc := acc - b - 1 (mod 256)`. */
  function Fold(acc: u8, bytes: seq<u8>): (r: u8)
    ensures r == (acc - Sum(bytes) - |bytes|) % U8_LIMIT
    decreases |bytes|
  {
    if |bytes| == 0 then acc
    else
      var next := (acc - (bytes[0] + 1) % U8_LIMIT) % U8_LIMIT;
      FoldShift(acc, next, bytes);
      Fold(next, bytes[1..])
  }

  /** One step of `Fold` moves the accumulator by the first byte plus one. */
  lemma FoldShift(acc: u8, next: u8, bytes: seq<u8>)
    requires |bytes| > 0 && next == (acc - (bytes[0] + 1) % U8_LIMIT) % U8_LIMIT
    ensures (next - Sum(bytes[1..]) - |bytes[1..]|) % U8_LIMIT == (acc - Sum(bytes) - |bytes|) % U8_LIMIT
  {
    var x := acc - (bytes[0] + 1) % U8_LIMIT;
    var rest := Sum(bytes[1..]) + |bytes[1..]|;
    SameMod8(x % U8_LIMIT - rest, x - rest, -(x / U8_LIMIT));
    SameMod8(x - rest, acc - Sum(bytes) - |bytes|, if bytes[0] == 0xFF then 1 else 0);
  }

  /** Numbers 256 * k apart leave the same remainder modulo 256. */
  lemma SameMod8(x: int, y: int, k: int)
    requires x == y + 256 * k
    ensures x % U8_LIMIT == y % U8_LIMIT
  {
  }

  /** Numbers 65536 * k apart leave the same remainder modulo 65536. */
  lemma SameMod16(x: int, y: int, k: int)
    requires x == y + 65536 * k
    ensures x % U16_LIMIT == y % U16_LIMIT
  {
  }

  /**
   * The fold as written panics exactly when it meets a 0xFF byte, and
   * otherwise agrees with the wrapping fold.
   */
  lemma {:induction false} FoldAsWrittenAgrees(acc: u8, bytes: seq<u8>)
    ensures FoldAsWritten(acc, bytes) == if 0xFF in bytes then Fatal else Ok(Fold(acc, bytes))
    decreases |bytes|
  {
    if |bytes| > 0 && bytes[0] != 0xFF {
      var first, rest := bytes[0], bytes[1..];
      assert 0xFF in bytes <==> 0xFF in rest by {
        assert bytes == [first] + rest;
      }
      var next: u8 := (acc - (first + 1)) % U8_LIMIT;
      assert (first + 1) % U8_LIMIT == first + 1;
      assert Fold(acc, bytes) == Fold(next, rest);
      assert FoldAsWritten(acc, bytes) == FoldAsWritten(next, rest);
      FoldAsWrittenAgrees(next, rest);
    }
  }

  /**
   * `checksum` as written: the range read needs 0x14D bytes, then the fold
   * panics on the first 0xFF header byte; when it completes, it is the
   * wrapping checksum.
   */
  function HeaderChecksumAsWritten(mem: seq<u8>): (r: Result<u8>)
    ensures r.Ok? <==> HEADER_END <= |mem| && forall i | HEADER_START <= i < HEADER_END :: mem[i] != 0xFF
    ensures r.Ok? ==> r == HeaderChecksum(mem)
  {
    if |mem| < HEADER_END then Fatal
    else
      var header := mem[HEADER_START..HEADER_END];
      FoldAsWrittenAgrees(0, header);
      assert 0xFF in header <==> exists i | HEADER_START <= i < HEADER_END :: mem[i] == 0xFF by {
        if 0xFF in header {
          var j :| 0 <= j < |header| && header[j] == 0xFF;
          assert mem[HEADER_START + j] == 0xFF;
        }
      }
      FoldAsWritten(0, header)
  }

  /**
   * `checksum`: defined once the image reaches 0x14D bytes; it is the byte
   * that, added to the 25 header bytes and 25, gives 0 modulo 256.
   */
  function HeaderChecksum(mem: seq<u8>): (r: Result<u8>)
    ensures r.Ok? <==> HEADER_END <= |mem|
    ensures r.Ok? ==> r.value == (-(Sum(mem[HEADER_START..HEADER_END]) as int) - 25) % U8_LIMIT
    ensures r.Ok? ==> (Sum(mem[HEADER_START..HEADER_END]) + 25 + r.value) % U8_LIMIT == 0
  {
    if |mem| < HEADER_END then Fatal
    else
      var v := Fold(0, mem[HEADER_START..HEADER_END]);
      ComplementSum(Sum(mem[HEADER_START..HEADER_END]) + 25, v);
      Ok(v)
  }

  /** A byte equal to `-s mod 256` adds up with `s` to a multiple of 256. */
  lemma ComplementSum(s: int, v: int)
    requires v == (-s) % U8_LIMIT
    ensures (s + v) % U8_LIMIT == 0
  {
    assert s + v == U8_LIMIT * ((-s) / U8_LIMIT + 1) + s - U8_LIMIT - U8_LIMIT * ((-s) / U8_LIMIT) + v;
  }

  /**
   * `is_valid`: the index at 0x14D needs more than 0x14D bytes.  The image
   * is valid exactly when the header bytes, 25 and the stored checksum
   * add up to a multiple of 256.
   */
  function IsValid(mem: seq<u8>): (r: Result<bool>)
    ensures r.Ok? <==> HEADER_END < |mem|
    ensures r.Ok? ==> (r.value <==> (Sum(mem[HEADER_START..HEADER_END]) + 25 + mem[HEADER_END]) % U8_LIMIT == 0)
  {
    if |mem| <= HEADER_END then Fatal
    else
      var sum := HeaderChecksum(mem).value;
      SameResidue(Sum(mem[HEADER_START..HEADER_END]) + 25, sum, mem[HEADER_END]);
      Ok(sum == mem[HEADER_END])
  }

  /** Two bytes that complete the same sum to a multiple of 256 are equal, and only then. */
  lemma SameResidue(s: int, v: u8, w: u8)
    requires (s + v) % U8_LIMIT == 0
    ensures (v == w) <==> (s + w) % U8_LIMIT == 0
  {
    if (s + w) % U8_LIMIT == 0 {
      assert (v - w) % U8_LIMIT == 0 by {
        assert v - w == (s + v) - (s + w);
      }
    }
  }

  /** Validity reads only the bytes 0x134..0x14D: any other byte may change. */
  lemma IsValidFrame(mem: seq<u8>, i: nat, v: u8)
    requires i < |mem| && !(HEADER_START <= i <= HEADER_END)
    ensures IsValid(mem[i := v]) == IsValid(mem)
  {
    if HEADER_END < |mem| {
      assert mem[i := v][HEADER_START..HEADER_END] == mem[HEADER_START..HEADER_END];
      assert mem[i := v][HEADER_END] == mem[HEADER_END];
    }
  }

  /** Two images of the same length that agree on 0x134..0x14D agree on validity. */
  lemma IsValidLocal(mem: seq<u8>, other: seq<u8>)
    requires |mem| == |other| && HEADER_END < |mem|
    requires mem[HEADER_START..HEADER_END + 1] == other[HEADER_START..HEADER_END + 1]
    ensures IsValid(mem) == IsValid(other)
  {
    assert mem[HEADER_START..HEADER_END] == mem[HEADER_START..HEADER_END + 1][..25];
    assert other[HEADER_START..HEADER_END] == other[HEADER_START..HEADER_END + 1][..25];
    assert mem[HEADER_END] == mem[HEADER_START..HEADER_END + 1][25];
    assert other[HEADER_END] == other[HEADER_START..HEADER_END + 1][25];
  }

  /** An image whose title starts with 0xFF. */
  function TitleFf(): (mem: seq<u8>)
    ensures |mem| == HEADER_END + 1 && mem[HEADER_START] == 0xFF
  {
    seq(HEADER_END + 1, i => if i == HEADER_START then 0xFF else 0)
  }

  /** On it, `checksum` as written panics, while the wrapping fold gives a checksum. */
  lemma TitleFfPanics()
    ensures HeaderChecksumAsWritten(TitleFf()) == Fatal
    ensures HeaderChecksum(TitleFf()).Ok?
  {
    var header := TitleFf()[HEADER_START..HEADER_END];
    assert header[0] == 0xFF;
    FoldAsWrittenAgrees(0, header);
  }

  // ---------------------------------------------------------------- global

  /** The global fold: `acc.wrapping_add(b as u16)`. */
  function GlobalFold(acc: u16, bytes: seq<u8>): (r: u16)
    ensures r == (acc + Sum(bytes)) % U16_LIMIT
    decreases |bytes|
  {
    if |bytes| == 0 then acc
    else
      AddWrapped(acc + bytes[0], Sum(bytes[1..]));
      GlobalFold((acc + bytes[0]) % U16_LIMIT, bytes[1..])
  }

  /** Wrapping an intermediate sum does not change the final remainder. */
  lemma AddWrapped(x: int, rest: int)
    ensures (x % U16_LIMIT + rest) % U16_LIMIT == (x + rest) % U16_LIMIT
  {
    SameMod16(x % U16_LIMIT + rest, x + rest, -(x / U16_LIMIT));
  }

  /**
   * `global_checksum` as written: the sum wraps, but the two subtractions
   * that follow it are plain `-` on `u16` and panic when they would go
   * below 0.
   */
  function GlobalChecksumAsWritten(mem: seq<u8>): (r: Result<u16>)
    ensures r.Ok? <==> GLOBAL_AT < |mem| && mem[HEADER_END] as int + mem[GLOBAL_AT] <= Sum(mem) % U16_LIMIT
    ensures r.Ok? ==> r.value == Sum(mem) % U16_LIMIT - mem[HEADER_END] - mem[GLOBAL_AT]
  {
    if |mem| <= GLOBAL_AT then Fatal
    else
      var sum := GlobalFold(0, mem);
      if sum < mem[HEADER_END] || sum - mem[HEADER_END] < mem[GLOBAL_AT] then Fatal
      else Ok(sum - mem[HEADER_END] - mem[GLOBAL_AT])
  }

  /**
   * `global_checksum` with wrapping subtractions: the sum, modulo 2^16, of
   * every byte except the two at 0x14D and 0x14E.
   */
  function GlobalChecksum(mem: seq<u8>): (r: Result<u16>)
    ensures r.Ok? <==> GLOBAL_AT < |mem|
    ensures r.Ok? ==> r.value == Sum(mem[..HEADER_END] + mem[GLOBAL_AT + 1..]) % U16_LIMIT
  {
    if |mem| <= GLOBAL_AT then Fatal
    else
      var sum := GlobalFold(0, mem);
      SumWithout(mem);
      WrapThenSubtract(Sum(mem), mem[HEADER_END] as int + mem[GLOBAL_AT]);
      Ok((sum - mem[HEADER_END] - mem[GLOBAL_AT]) % U16_LIMIT)
  }

  /** Leaving out the bytes at 0x14D and 0x14E takes exactly them off the sum. */
  lemma SumWithout(mem: seq<u8>)
    requires GLOBAL_AT < |mem|
    ensures Sum(mem[..HEADER_END] + mem[GLOBAL_AT + 1..]) == Sum(mem) - mem[HEADER_END] - mem[GLOBAL_AT]
  {
    var front, pair, rest := mem[..HEADER_END], [mem[HEADER_END], mem[GLOBAL_AT]], mem[GLOBAL_AT + 1..];
    assert mem == front + pair + rest;
    SumAppend(front + pair, rest);
    SumAppend(front, pair);
    SumAppend(front, rest);
  }

  /** Wrapping before a subtraction that is wrapped again changes nothing. */
  lemma WrapThenSubtract(s: int, cut: int)
    ensures (s % U16_LIMIT - cut) % U16_LIMIT == (s - cut) % U16_LIMIT
  {
    SameMod16(s % U16_LIMIT - cut, s - cut, -(s / U16_LIMIT));
  }

  /** Whenever the global checksum as written does not panic, it is the wrapping one. */
  lemma GlobalAsWrittenAgrees(mem: seq<u8>)
    requires GlobalChecksumAsWritten(mem).Ok?
    ensures GlobalChecksumAsWritten(mem) == GlobalChecksum(mem)
  {
    var sum := GlobalFold(0, mem);
    assert 0 <= sum - mem[HEADER_END] - mem[GLOBAL_AT] < U16_LIMIT;
  }

  /**
   * 257 bytes of 0xFF, zeros up to 0x14D, then 0xFF at 0x14D and 0 at
   * 0x14E: 258 bytes of 0xFF sum to 65790, which wraps to 254.
   */
  function WrappedSum(): (mem: seq<u8>)
    ensures |mem| == GLOBAL_AT + 1 && mem[HEADER_END] == 0xFF && mem[GLOBAL_AT] == 0
  {
    seq(257, _ => 0xFF) + seq(76, _ => 0) + [0xFF, 0]
  }

  /** On it, `global_checksum` as written panics, while the wrapping form is defined. */
  lemma WrappedSumPanics()
    ensures GlobalChecksumAsWritten(WrappedSum()) == Fatal
    ensures GlobalChecksum(WrappedSum()).Ok?
  {
    var ones, zeros: seq<u8> := seq(257, _ => 0xFF), seq(76, _ => 0);
    SumConstant(257, 0xFF);
    SumConstant(76, 0);
    SumAppend(ones, zeros);
    SumAppend(ones + zeros, [0xFF, 0]);
    assert Sum([0xFF, 0]) == 0xFF;
    assert Sum(WrappedSum()) == 65790;
    assert GlobalFold(0, WrappedSum()) == 254;
  }
}
