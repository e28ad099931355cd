# rustboy core in Dafny

This project models the core of rustboy, a Game Boy emulator written in Rust, and proves properties of that model:

- **CPU** (`cpu.dfy`, `instructions.dfy`, `flags.dfy`). The register file, the flag byte, opcode decoding and every instruction handler `Cpu` implements. `Cpu` is a class whose fields are the registers and the memory bus. Each handler method is proved against a per-instruction effect relation on machine snapshots (`Instructions.*Effect`). `Execute` dispatches on `Instructions.Decode`, like the opcode `match` in `execute`. Plain Rust `+`/`-` on registers panics on overflow, so those panics become preconditions (`Instructions.Pre`). `crash` becomes the `Crash` outcome. `wrapping_*` arithmetic is written out modulo 2^8 or 2^16.
- **Memory bus** (`bus.dfy`, `memory.dfy`). `Memory` is a class holding the boot ROM, the cartridge image, the work, video, external and high RAMs, the I/O registers, the input and interrupt registers, and the iterator's countdown. The RAMs are arrays. Its state is abstracted into `Bus.State`, and the pure module `Bus` states the address decoding:
  - reads go through the range lookup (`Index<Range<usize>>`);
  - writes go through `IndexMut<usize>`.
- **Cartridge checksums** (`checksum.dfy`, `header.dfy`, `cart.dfy`, `lib_cart.dfy`, `lib_rom.dfy`). The header checksum, the global checksum, `is_valid` and the header-field tables of the three cartridge types. The shared arithmetic lives in `Checksums`. Each source file gets a thin module of its own.
- **LCD** (`lcd.dfy`). The LCD control register decoders, `new` and `step`.
- **Support** (`types.dfy`, `bits.dfy`). Rust's integer types are integer subset types. `&`, `|`, `^`, `!` and `<<` on bytes are defined bit by bit, with lemmas.

## Model

| member | source | states |
|---|---|---|
| Flags.Mask | src/cpu.rs:9-13 | the mask of a flag is the single bit at position 7 minus its index: Z 0x80, N 0x40, H 0x20, C 0x10 |
| Flags.Get | src/cpu.rs:279 | reading a flag is testing that flag's bit of F |
| Flags.Set | src/cpu.rs:281-287 | after setting, the flag reads back as the value given; the other three flags and the low nibble of F are unchanged |
| Cpu.Cpu.constructor | src/cpu.rs:54-78 | every register, pc and sp start at 0 and the memory is the one passed in |
| Cpu.Cpu.Reset | src/cpu.rs:86-97 | pc 0, sp 0xFFFE, A 0x01, F 0xB0, B 0, C 0x13, D 0, E 0xD8, H 0x01, L 0x4D; memory untouched |
| Instructions.ResetFlags | src/cpu.rs:90 | the reset flag byte 0xB0 has Z, H and C set, N clear and a zero low nibble |
| Cpu.Cpu.Set | src/cpu.rs:281-287 | on the machine: F becomes `Flags.Set` of its old value; no other register and no memory changes |
| Cpu.Cpu.ReadWord | src/cpu.rs:81-84 | the little-endian word at an address, the byte at address+1 being the high byte; the address+1 overflow is a precondition |
| Cpu.Cpu.StoreDe | src/cpu.rs:617-620 | D gets the high byte and E the low byte of the word; nothing else changes |
| Cpu.Cpu.StoreHl | src/cpu.rs:612-615 | H gets the high byte and L the low byte of the word; nothing else changes |
| Cpu.Cpu.De | src/cpu.rs:595-597 | the word lies in D * 256 .. D * 256 + 255 and E is what it exceeds D * 256 by: D is its high byte and E its low byte |
| Cpu.Cpu.Hl | src/cpu.rs:599-601 | the word lies in H * 256 .. H * 256 + 255 and L is what it exceeds H * 256 by: H is its high byte and L its low byte |
| Cpu.Cpu.Fetch | src/cpu.rs:121-129 | returns prefix 0 and the byte at pc; when that byte is 0xCB, pc moves on by one and the prefix comes back with the byte there; no other register changes |
| Instructions.Decode | src/cpu.rs:131-277 | a prefixed opcode other than 0x7C and 0x11 is the unknown-prefixed case that crashes; the only BIT handler tests bit 7 |
| Cpu.Cpu.Execute | src/cpu.rs:131-277 | running the handler `Decode` selects has that instruction's effect: a crash for an unknown prefixed opcode, and no change with advance 0 for an unknown plain opcode |
| Cpu.Cpu.Nop | src/cpu.rs:633-637 | no register or memory changes; advance 1 |
| Cpu.Cpu.Inc | src/cpu.rs:477-524 | the register goes up by one modulo 256; no flag, other register or memory cell changes; advance 1 |
| Cpu.Cpu.IncDe | src/cpu.rs:827-833 | the pair DE goes up by one modulo 2^16; nothing else changes |
| Cpu.Cpu.IncHl | src/cpu.rs:835-841 | the pair HL goes up by one modulo 2^16; nothing else changes |
| Cpu.Cpu.Dec | src/cpu.rs:729-825 | the register goes down by one modulo 256; Z iff the result is 0, N set, H iff the old value was 0; C and the low nibble of F unchanged |
| Instructions.IncThenDec | src/cpu.rs:729-825 | INC r then DEC r restores every register except F and leaves memory alone |
| Cpu.Cpu.XorA | src/cpu.rs:674-679 | A becomes 0; no flag is written |
| Cpu.Cpu.Rla | src/cpu.rs:289-298 | A is shifted left by the byte after the opcode, modulo 256 (a shift of 8 or more panics, so it is a precondition); C is raised when bit 7 of A was set and kept otherwise |
| Cpu.Cpu.RlC | src/cpu.rs:300-306 | the rotated C is discarded, so no register or memory cell changes; advance 1 |
| Cpu.Cpu.BitH | src/cpu.rs:662-671 | Z iff the tested bit of H is clear, N clear, H set; C, the registers and memory unchanged; advance 1 |
| Cpu.Cpu.CpD8 | src/cpu.rs:843-856 | against the immediate: Z iff equal, N set, H iff the low nibble of A is below the immediate's, C iff A is below it; crash on 0x90, otherwise advance 2 |
| Cpu.Cpu.JrR8 | src/cpu.rs:639-647 | pc becomes pc plus the signed byte after the opcode, modulo 2^16; advance 2 |
| Instructions.JumpTarget | src/cpu.rs:641-642 | the jump target is pc plus the offset read as a signed byte, modulo 2^16 |
| Cpu.Cpu.Jr | src/cpu.rs:649-660 | pc moves by the signed offset iff the flag equals the condition given; advance 2 in both cases |
| Cpu.Cpu.JmpA16 | src/cpu.rs:572-577 | pc becomes the little-endian word after the opcode; advance 0 |
| Cpu.Cpu.Call | src/cpu.rs:431-451 | pushes the low then the high byte of pc+3 at sp and sp-1; sp drops by 2; pc becomes the word operand; advance 0 |
| Instructions.PushedAddress | src/cpu.rs:444-447 | the two bytes CALL pushes, read back high then low, are the return address |
| Cpu.Cpu.Ret | src/cpu.rs:552-567 | pc is assembled from the byte at sp+1 (high) and sp+2 (low); sp becomes 0; memory unchanged; advance 0 |
| Instructions.CallThenRet | src/cpu.rs:552-567 | CALL then RET returns to the instruction after the CALL and leaves sp at 0 |
| Cpu.Cpu.PushBc | src/cpu.rs:308-316 | B is written at sp-1 and C at sp-2, sp drops by 2; advance 1 |
| Cpu.Cpu.PopBc | src/cpu.rs:704-715 | B gets the byte at sp+1 and C the byte at sp+2; both cells are zeroed and sp rises by 2 |
| Instructions.PushThenPop | src/cpu.rs:704-715 | PUSH BC then POP BC restores sp and B, but C receives the byte at the old sp, and both popped cells hold 0 |
| Cpu.Cpu.PopHl | src/cpu.rs:717-727 | H gets the byte at sp+1 and L the byte at sp+2; both cells are zeroed and sp rises by 2 |
| Cpu.Cpu.Ld | src/cpu.rs:382-429 | the destination register gets the source register's value; nothing else changes; advance 1 |
| Cpu.Cpu.LdD8 | src/cpu.rs:318-372 | the register gets the byte after the opcode; advance 2 |
| Cpu.Cpu.LdADe | src/cpu.rs:453-459 | A gets the byte at DE |
| Cpu.Cpu.LdHlA | src/cpu.rs:469-475 | the byte at HL becomes A (an unmapped HL is a precondition); registers unchanged |
| Cpu.Cpu.LdDeD16 | src/cpu.rs:461-467 | DE gets the word operand; advance 3 |
| Cpu.Cpu.LdHlD16 | src/cpu.rs:579-585 | HL gets the word operand; advance 3 |
| Cpu.Cpu.LdSpD16 | src/cpu.rs:587-593 | sp gets the word operand; advance 3 |
| Cpu.Cpu.LdiHlA | src/cpu.rs:603-610 | the byte at HL becomes A, then HL goes up by one modulo 2^16 |
| Cpu.Cpu.LddHlA | src/cpu.rs:622-631 | the byte at HL becomes A, then HL goes down by one modulo 2^16 |
| Cpu.Cpu.LdhA8A | src/cpu.rs:692-702 | opcode 0xE0: A gets the byte at 0xFF00 plus the immediate; memory unchanged; advance 2 |
| Cpu.Cpu.LdhAA8 | src/cpu.rs:681-690 | opcode 0xF0: the byte at 0xFF00 plus the immediate becomes A; registers unchanged; advance 2 |
| Instructions.LdhSwapped | src/cpu.rs:681-702 | from the same state, the 0xE0 handler (`LdhA8A`) loads A from the high page and leaves memory alone, while the 0xF0 handler (`LdhAA8`) stores A there and leaves the registers alone |
| Cpu.Cpu.LdrCA | src/cpu.rs:526-532 | the byte at 0xFF00 plus C becomes A |
| Cpu.Cpu.LdA16A | src/cpu.rs:534-540 | the byte at the word operand becomes A; advance 3 |
| Bus.Route | src/memory.rs:69-85 | an address has no cell iff it lies in 0xFE00..0xFEFF or above 0xFFFF; a cell's offset lies inside its store |
| Bus.RouteShared | src/memory.rs:69-85 | two addresses reach the same cell iff they are equal or echo-RAM aliases |
| Bus.Write | src/memory.rs:69-85 | a write to a writable address keeps the state well-formed, and reading that address afterwards returns the byte written |
| Bus.Store | src/memory.rs:69-85 | the store holding the cell gets the new byte at that offset; every other store is untouched |
| Bus.ReadAfterWrite | src/memory.rs:69-85 | after a write to a writable address, reading it returns the byte written |
| Bus.ReadOtherAfterWrite | src/memory.rs:69-85 | a write leaves the byte at every address that does not share its cell unchanged |
| Bus.EchoMirrors | src/memory.rs:76-77 | 0xE000..0xFDFF reads the same bytes as 0xC000..0xDDFF |
| Bus.UnmappedPage | src/memory.rs:82 | 0xFE00..0xFEFF is not writable and reads 0 |
| Bus.IndexU16 | src/memory.rs:43-53 | the 16-bit index agrees with the routed read for every address, including 0xFF00 and 0xFFFF |
| Bus.ReadUsize | src/memory.rs:55-61 | a wide index below 0xFFFF reads the routed byte; from 0xFFFF on it is fatal |
| Bus.ReadRange | src/memory.rs:95-139 | a start beyond 0xFFFF is fatal; a one-byte range below 0xFFFF yields exactly the byte a single read of its start returns |
| Bus.LongRange | src/memory.rs:104-137 | a forward range of two or more bytes is served iff its start and end fall in the same arm; a served slice holds the bytes single reads return, and a blank arm yields `[0]` |
| Bus.BackwardRange | src/memory.rs:95-139 | a range whose end is below its start is served only by the unmapped page and by `0xFFFF..0x0000` |
| Bus.Fresh | src/memory.rs:26-40 | after `new` the state is well-formed; 0x0000..0x00FF reads the boot ROM, 0x0100..0x7FFF the image from offset 0, video RAM and work RAM with its echo read 127, every other address 0 |
| Bus.Countdown | src/memory.rs:146-156 | from count n the iterator still yields n-1 bytes, those at n-1 down to 1 |
| Memory.Memory.constructor | src/memory.rs:26-40 | the fresh memory's model is `Bus.Fresh` of the boot ROM and image, and the countdown is 0xFFFF |
| Memory.Memory.Index | src/memory.rs:43-53 | returns the routed byte for every 16-bit address |
| Memory.Memory.Store | src/memory.rs:63-85 | the model becomes `Bus.Write` of the old one, and the countdown is unchanged |
| Memory.Memory.Next | src/memory.rs:141-157 | the countdown drops by one and yields the byte there unless it reached 0; what was left is the yielded byte followed by what is left now |
| Checksums.Fold | src/cart.rs:43 | the wrapping fold of `a - (b + 1)` equals the start value minus the sum of the bytes minus their count, modulo 256 |
| Checksums.FoldAsWritten | src/cart.rs:43 | the fold as written, with its plain `b + 1`, is fatal iff some byte is 0xFF |
| Checksums.FoldAsWrittenAgrees | src/cart.rs:43 | the fold as written is fatal iff a byte is 0xFF, and otherwise equals the wrapping fold |
| Checksums.HeaderChecksum | src/cart.rs:42-44 | defined iff the image reaches 0x14D; the header bytes 0x134..0x14C plus 25 plus the result add up to a multiple of 256 |
| Checksums.TitleFfPanics | src/cart.rs:43 | an image with 0xFF in the title makes the checksum as written fatal while the wrapping one is defined |
| Checksums.HeaderChecksumAsWritten | src/cart.rs:42-44 | `checksum` as written: defined iff the image reaches 0x14D and no byte in 0x134..0x14C is 0xFF; when defined, it equals the wrapping checksum |
| Checksums.IsValid | src/cart.rs:52-54 | defined iff byte 0x14D exists; true iff the header bytes, 25 and that byte add up to a multiple of 256 |
| Checksums.IsValidFrame | src/cart.rs:52-54 | changing a byte outside 0x134..0x14D leaves the verdict unchanged |
| Checksums.IsValidLocal | src/cart.rs:52-54 | two images that agree on 0x134..0x14D get the same verdict |
| Checksums.GlobalFold | src/cart.rs:47 | the wrapping u16 fold is the start value plus the sum of the bytes, modulo 2^16 |
| Checksums.GlobalChecksum | src/cart.rs:46-50 | defined iff byte 0x14E exists; the sum of every byte except those at 0x14D and 0x14E, modulo 2^16 |
| Checksums.GlobalAsWrittenAgrees | src/cart.rs:46-50 | whenever the subtraction as written does not underflow, it gives the corrected value |
| Checksums.GlobalChecksumAsWritten | src/cart.rs:46-50 | `global_checksum` as written: defined iff byte 0x14E exists and the bytes at 0x14D and 0x14E together do not exceed the wrapped sum; then the wrapped sum less those two bytes |
| Checksums.WrappedSumPanics | src/cart.rs:48 | an image whose sum wraps past 2^16 makes the checksum as written fatal, while the corrected one is defined |
| Header.Make | src/lib/cart.rs:11-20 | keeps the name and range given and takes the empty format of `Header::default()` |
| Header.TableShape | src/cart.rs:16-38 | 17 fields, each a non-empty range inside 0x100..0x150; only the title, at 0x134..0x144, is shown as a string; the global checksum starts at 0x14E |
| Cart.New | src/cart.rs:13-40 | keeps the image as given; the table is well-formed with the global checksum at 0x14E..0x150 and holds the title as a string at 0x134..0x144 |
| Cart.Checksum | src/cart.rs:42-44 | fatal iff the image is shorter than 0x14D; otherwise it completes the header sum to a multiple of 256 |
| Cart.GlobalChecksum | src/cart.rs:46-50 | fatal iff the image has no byte 0x14E; otherwise the sum of all other bytes, modulo 2^16 |
| Cart.IsValid | src/cart.rs:52-54 | true iff the checksum equals the byte at 0x14D; fatal when that byte is missing |
| Cart.IndexUsize | src/cart.rs:91-97 | the byte at the index; fatal past the end |
| Cart.IndexU16 | src/cart.rs:83-89 | agrees with the usize index at every address |
| LibCart.Default | src/lib/cart.rs:22-55 | the image `[0]` and a well-formed 17-field table whose global checksum covers 0x14E..0x150 and whose title is a string at 0x134..0x144 |
| LibCart.Checksum | src/lib/cart.rs:58-60 | fatal iff the image is shorter than 0x14D; otherwise minus the header sum minus 25, modulo 256 |
| LibCart.GlobalChecksum | src/lib/cart.rs:62-66 | fatal iff there is no byte 0x14E; otherwise the wrapping sum less the bytes at 0x14D and 0x14E |
| LibCart.IsValid | src/lib/cart.rs:68-70 | true iff the checksum equals the byte at 0x14D; fatal when that byte is missing |
| LibCart.DefaultInvalid | src/lib/cart.rs:25 | on the default one-byte image, checksum and validity are both fatal |
| LibRom.Default | src/lib/rom.rs:22-55 | the image `[0]` and a well-formed 17-field table whose global checksum covers only 0x14E..0x14F and whose title is a string at 0x134..0x144 |
| LibRom.Checksum | src/lib/rom.rs:58-60 | fatal iff the image is shorter than 0x14D; otherwise it completes the header sum to a multiple of 256 |
| LibRom.IsValid | src/lib/rom.rs:62-64 | true iff the header bytes, 25 and the byte at 0x14D add up to a multiple of 256 |
| LibRom.IsValidFrame | src/lib/rom.rs:62-64 | a byte changed outside 0x134..0x14D does not change the verdict |
| LibRom.DefaultInvalid | src/lib/rom.rs:25 | validity of the default one-byte image is fatal |
| Lcd.New | src/lcd.rs:21-38 | horizontal blank, scroll 0, every control bit clear |
| Lcd.NewIsOff | src/lcd.rs:21-38 | a fresh LCD reports the display disabled |
| Lcd.Step | src/lcd.rs:40-49 | stepping changes nothing, whether the display is on or off |
| Lcd.Enable | src/lcd.rs:51-53 | bit 7 of the control register |
| Lcd.WindowTileMap | src/lcd.rs:55-62 | 0x9C00..0x9FFF iff bit 6 is set, else 0x9800..0x9BFF |
| Lcd.WindowDisplayEnable | src/lcd.rs:64-66 | bit 5 |
| Lcd.TileData | src/lcd.rs:68-74 | 0x8000..0x8FFF iff bit 4 is set, else 0x8800..0x97FF |
| Lcd.BgTileMap | src/lcd.rs:76-82 | 0x9C00..0x9FFF iff bit 3 is set, else 0x9800..0x9BFF |
| Lcd.ObjSize | src/lcd.rs:84-90 | 8x16 iff bit 2 is set, else 8x8 |
| Lcd.ObjDisplayEnable | src/lcd.rs:92-94 | bit 1 |
| Lcd.BgDisplay | src/lcd.rs:96-98 | bit 0 |
| Lcd.OwnBit | src/lcd.rs:51-98 | flipping one control bit changes exactly the one decoder that reads it |

## Left out

- `Cpu::run` (src/cpu.rs:99-119) is not modelled. It is the endless fetch/execute loop with the `DEBUG` switch, the operation counter and `pc += advance`. The model stops at one `Fetch` and one `Execute`, whose outcome carries the advance.
- Text output is not modelled: `print_disassembly`, `print_stack_and_vram`, the text `crash` prints before panicking, and every `Display` implementation. A panic inside this printing code is not modelled either, e.g. the `address + 1` in the arguments `jr` prints.
- The debug screen, the minifb window and pixel buffer of `LCD`, environment variables, timing, interrupts and concurrency are not modelled. They are I/O or foreign code.
- `Header::new`, which src/cart.rs calls, does not exist in src/header.rs. `Cart.New` assumes it behaves as `make_header` does.
- `Cart` has no `IndexMut`, yet `IndexMut<usize>` of `Memory` writes the cartridge (src/memory.rs:73). The model treats the image as a writable byte sequence.
- Memory.Memory.Store: requires the address to be routable. In the source an unmapped write panics, so the panic is a precondition, not an outcome.
- Memory.Memory.constructor: requires an image of at least 0x7F00 bytes, the size of the cartridge window 0x0100..0x7FFF (src/memory.rs:73). The source also accepts a shorter image and panics only when an address past its end is read or written; the model does not capture that panic. Loading the image from a file is I/O.
- Checksums.IsValid: uses the corrected header fold of the src/cart.rs:43 finding. As written, an image whose bytes 0x134..0x14C include 0xFF panics; `Checksums.HeaderChecksumAsWritten` states when.
- Cart.Checksum: models the corrected fold of the src/cart.rs:43 finding. As written, a 0xFF byte in 0x134..0x14C is also fatal (`Checksums.HeaderChecksumAsWritten`).
- Cart.IsValid: rests on the corrected fold of the src/cart.rs:43 finding. As written, a 0xFF byte in 0x134..0x14C is also fatal.
- Cart.GlobalChecksum: models the corrected, wrapping subtraction of the src/cart.rs:48 finding. As written, the plain `-` is fatal when the bytes at 0x14D and 0x14E exceed the wrapped sum (`Checksums.GlobalChecksumAsWritten`).
- LibCart.Checksum: models the corrected fold of the src/cart.rs:43 finding, which src/lib/cart.rs:59 repeats. As written, a 0xFF byte in 0x134..0x14C is also fatal.
- LibCart.IsValid: rests on the corrected fold. As written (src/lib/cart.rs:59), a 0xFF byte in 0x134..0x14C is also fatal.
- LibCart.GlobalChecksum: models the corrected, wrapping subtraction of the src/cart.rs:48 finding, which src/lib/cart.rs:64 repeats. As written, the plain `-` is fatal when the bytes at 0x14D and 0x14E exceed the wrapped sum.
- LibRom.Checksum: models the corrected fold of the src/cart.rs:43 finding, which src/lib/rom.rs:59 repeats. As written, a 0xFF byte in 0x134..0x14C is also fatal.
- LibRom.IsValid: rests on the corrected fold. As written (src/lib/rom.rs:59), a 0xFF byte in 0x134..0x14C is also fatal.
- Lcd.Step: the source's per-mode arms all return at once, so the model has no timing or mode changes to capture.

## Findings

| source | as written | input that shows it | evidently intended | confidence | as-written member | corrected member |
|---|---|---|---|---|---|---|
| src/cart.rs:43 (also src/lib/cart.rs:59, src/lib/rom.rs:59) | `a.wrapping_sub(b+1)` adds 1 to a `u8` with a plain `+`, which panics with overflow checks on whenever a header byte is 0xFF | `Checksums.TitleFf`: an image of 0x14E bytes, 0 everywhere except 0xFF at 0x134 | the header checksum wraps throughout: minus the sum of the header bytes minus 25, modulo 256 | high; not executed | Checksums.TitleFfPanics | Checksums.HeaderChecksum |
| src/cart.rs:48 (also src/lib/cart.rs:64) | after a wrapping sum, the bytes at 0x14D and 0x14E are taken away with a plain `-`, which underflows once the sum has wrapped below them | `Checksums.WrappedSum`: 257 bytes of 0xFF, 76 zero bytes, then 0xFF at 0x14D and 0 at 0x14E (sum 65790, wrapped 254) | the sum of every byte except the two at 0x14D and 0x14E, modulo 2^16 | medium; not executed | Checksums.WrappedSumPanics | Checksums.GlobalChecksum |
