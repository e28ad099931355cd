/**
 * What each instruction of src/cpu.rs does, stated over snapshots of the
 * machine: the registers and the memory map.  `Decode` is the dispatch table
 * of `Cpu::execute`, `Pre` collects what must hold for a handler not to
 * panic, and `Effect` relates the state before and after a handler together
 * with the advance it returns.  The class in cpu.dfy implements each handler
 * and is proved to have exactly this effect.
 */
module Instructions {
  import opened Types
  import opened Bits
  import opened Flags
  import Bus

  datatype Reg8 = A | B | C | D | E | H | L

  datatype Registers = Registers(
    pc: u16, sp: u16,
    a: u8, f: u8, b: u8, c: u8, d: u8, e: u8, h: u8, l: u8)
  {
    function Get(r: Reg8): u8
    {
      match r
      case A => a
      case B => b
      case C => c
      case D => d
      case E => e
      case H => h
      case L => l
    }

    /** The registers with `r` replaced by `v` (`PutOther`: nothing else differs). */
    function Put(r: Reg8, v: u8): (t: Registers)
      ensures t.Get(r) == v
      ensures t.pc == pc && t.sp == sp && t.f == f
    {
      match r
      case A => this.(a := v)
      case B => this.(b := v)
      case C => this.(c := v)
      case D => this.(d := v)
      case E => this.(e := v)
      case H => this.(h := v)
      case L => this.(l := v)
    }
  }

  /** `Put` leaves every other register alone. */
  lemma PutOther(R: Registers, r: Reg8, v: u8, other: Reg8)
    requires other != r
    ensures R.Put(r, v).Get(other) == R.Get(other)
  {
  }

  /** Writing back what a register holds changes nothing. */
  lemma PutSame(R: Registers, r: Reg8)
    ensures R.Put(r, R.Get(r)) == R
  {
  }

  /** A second write to a register replaces the first. */
  lemma PutTwice(R: Registers, r: Reg8, v: u8, w: u8)
    ensures R.Put(r, v).Put(r, w) == R.Put(r, w)
  {
  }

  datatype Machine = Machine(regs: Registers, bus: Bus.State)

  /** What `execute` returns: the pc advance, or the `crash` that ends the run. */
  datatype Outcome = Advance(size: u16) | Crash

  /** `((hi as u16) << 8) + ((lo as u16) << 0)`, as `de()` and `hl()` compute it. */
  function Pair(hi: u8, lo: u8): u16
  {
    hi * 256 + lo
  }

  /** `(w >> 8) as u8` */
  function High(w: u16): u8
  {
    Trunc8(w / 256)
  }

  /** `(w >> 0) as u8` */
  function Low(w: u16): u8
  {
    Trunc8(w)
  }

  /** Splitting a word and joining the halves gives the word back. */
  lemma PairSplit(w: u16)
    ensures Pair(High(w), Low(w)) == w
  {
  }

  /** Joining two bytes and splitting the word gives the bytes back. */
  lemma SplitPair(hi: u8, lo: u8)
    ensures High(Pair(hi, lo)) == hi && Low(Pair(hi, lo)) == lo
  {
  }

  /**
   * The little-endian word at `address`: the byte at `address + 1` is the
   * high byte, as `read_word` assembles it.
   */
  function Word(m: Bus.State, address: u16): u16
    requires Bus.Wf(m) && address + 1 <= 0xFFFF
  {
    Pair(Bus.Read(m, address + 1), Bus.Read(m, address))
  }

  /** `x as i8`: the two's-complement value of a byte. */
  function Signed(x: u8): int
  {
    if x < 0x80 then x else x - 0x100
  }

  /** `pc.wrapping_add(offset as i8 as u16)`: a relative jump target. */
  function JumpTarget(pc: u16, offset: u8): (t: u16)
    ensures t == (pc + Signed(offset)) % U16_LIMIT
  {
    WrappingAdd16(pc, if offset < 0x80 then offset else 0xFF00 + offset)
  }

  /** `g` agrees with `f` on every flag outside `changed`, and on the low nibble. */
  predicate SameFlagsBut(g: u8, f: u8, changed: set<Flag>)
  {
    (forall flag :: flag !in changed ==> Get(g, flag) == Get(f, flag)) && g % 16 == f % 16
  }

  /** The handlers `execute` can reach, named after them. */
  datatype Instr =
    | Nop
    | Inc(r: Reg8) | IncDe | IncHl | Dec(r: Reg8)
    | XorA | Rla | RlC | BitH(bit: u8) | CpD8
    | JrR8 | Jr(flag: Flag, zero: bool) | JmpA16 | Call | Ret
    | PushBc | PopBc | PopHl
    | Ld(r: Reg8, src: Reg8) | LdD8(r: Reg8) | LdADe | LdHlA
    | LdDeD16 | LdHlD16 | LdSpD16 | LdiHlA | LddHlA
    | LdhA8A | LdhAA8 | LdrCA | LdA16A
    | Unknown | UnknownPrefixed

  /**
   * The match of `execute` on the key `(prefix, opcode)`: the CB table when
   * the prefix is 0xCB, the plain table otherwise.  Only an unknown
   * CB-prefixed opcode crashes.
   */
  function Decode(prefix: u8, opcode: u8): (i: Instr)
    ensures i == UnknownPrefixed <==> (prefix == 0xCB && opcode != 0x7C && opcode != 0x11)
    ensures i.BitH? ==> i.bit == 7
  {
    if prefix == 0xCB then
      match opcode
      case 0x7C => BitH(7)
      case 0x11 => RlC
      case _ => UnknownPrefixed
    else
      match opcode
      case 0x00 => Nop
      case 0x0C => Inc(C)
      case 0x1C => Inc(E)
      case 0x2C => Inc(L)
      case 0x3C => Inc(A)
      case 0x04 => Inc(B)
      case 0x14 => Inc(D)
      case 0x24 => Inc(H)
      case 0x13 => IncDe
      case 0x23 => IncHl
      case 0x0D => Dec(C)
      case 0x1D => Dec(E)
      case 0x2D => Dec(L)
      case 0x3D => Dec(A)
      case 0x05 => Dec(B)
      case 0x15 => Dec(D)
      case 0x25 => Dec(H)
      case 0xAF => XorA
      case 0x17 => Rla
      case 0x18 => JrR8
      case 0x28 => Jr(Zero, true)
      case 0x20 => Jr(Zero, false)
      case 0xC3 => JmpA16
      case 0xCD => Call
      case 0xC9 => Ret
      case 0xFE => CpD8
      case 0xC5 => PushBc
      case 0xC1 => PopBc
      case 0xE1 => PopHl
      case 0x7F => Ld(A, A)
      case 0x78 => Ld(A, B)
      case 0x79 => Ld(A, C)
      case 0x7A => Ld(A, D)
      case 0x7B => Ld(A, E)
      case 0x7C => Ld(A, H)
      case 0x7D => Ld(A, L)
      case 0x47 => Ld(B, A)
      case 0x40 => Ld(B, B)
      case 0x41 => Ld(B, C)
      case 0x42 => Ld(B, D)
      case 0x43 => Ld(B, E)
      case 0x44 => Ld(B, H)
      case 0x45 => Ld(B, L)
      case 0x4F => Ld(C, A)
      case 0x48 => Ld(C, B)
      case 0x49 => Ld(C, C)
      case 0x4A => Ld(C, D)
      case 0x4B => Ld(C, E)
      case 0x4C => Ld(C, H)
      case 0x4D => Ld(C, L)
      case 0x57 => Ld(D, A)
      case 0x50 => Ld(D, B)
      case 0x51 => Ld(D, C)
      case 0x52 => Ld(D, D)
      case 0x53 => Ld(D, E)
      case 0x54 => Ld(D, H)
      case 0x55 => Ld(D, L)
      case 0x5F => Ld(E, A)
      case 0x58 => Ld(E, B)
      case 0x59 => Ld(E, C)
      case 0x5A => Ld(E, D)
      case 0x5B => Ld(E, E)
      case 0x5C => Ld(E, H)
      case 0x5D => Ld(E, L)
      case 0x67 => Ld(H, A)
      case 0x60 => Ld(H, B)
      case 0x61 => Ld(H, C)
      case 0x62 => Ld(H, D)
      case 0x63 => Ld(H, E)
      case 0x64 => Ld(H, H)
      case 0x65 => Ld(H, L)
      case 0x6F => Ld(L, A)
      case 0x68 => Ld(L, B)
      case 0x69 => Ld(L, C)
      case 0x6A => Ld(L, D)
      case 0x6B => Ld(L, E)
      case 0x6C => Ld(L, H)
      case 0x6D => Ld(L, L)
      case 0x1A => LdADe
      case 0x3E => LdD8(A)
      case 0x06 => LdD8(B)
      case 0x0E => LdD8(C)
      case 0x16 => LdD8(D)
      case 0x1E => LdD8(E)
      case 0x26 => LdD8(H)
      case 0x2E => LdD8(L)
      case 0x77 => LdHlA
      case 0x11 => LdDeD16
      case 0x21 => LdHlD16
      case 0x31 => LdSpD16
      case 0x22 => LdiHlA
      case 0x32 => LddHlA
      case 0xE0 => LdhA8A
      case 0xF0 => LdhAA8
      case 0xE2 => LdrCA
      case 0xEA => LdA16A
      case _ => Unknown
  }

  /** The machine is well formed and the one-byte operand after the opcode is addressable. */
  ghost predicate Operand8(m: Machine)
  {
    Bus.Wf(m.bus) && m.regs.pc + 1 <= 0xFFFF
  }

  /** The machine is well formed and the two-byte operand after the opcode is addressable. */
  ghost predicate Operand16(m: Machine)
  {
    Bus.Wf(m.bus) && m.regs.pc + 2 <= 0xFFFF
  }

  /** RLA shifts by its operand, which must be below 8. */
  ghost predicate RlaPre(m: Machine)
  {
    Operand8(m) && Bus.Read(m.bus, m.regs.pc + 1) < 8
  }

  /** CALL computes `pc + 3` and writes at sp and sp - 1 before lowering sp by 2. */
  ghost predicate CallPre(m: Machine)
  {
    Bus.Wf(m.bus) && m.regs.pc + 3 <= 0xFFFF && 2 <= m.regs.sp &&
    Bus.Writable(m.regs.sp) && Bus.Writable(m.regs.sp - 1)
  }

  /** RET reads at sp + 1 and sp + 2. */
  ghost predicate RetPre(m: Machine)
  {
    Bus.Wf(m.bus) && m.regs.sp + 2 <= 0xFFFF
  }

  /** PUSH writes at sp - 1 and sp - 2. */
  ghost predicate PushPre(m: Machine)
  {
    Bus.Wf(m.bus) && 2 <= m.regs.sp && Bus.Writable(m.regs.sp - 1) && Bus.Writable(m.regs.sp - 2)
  }

  /** POP reads and clears sp + 1 and sp + 2. */
  ghost predicate PopPre(m: Machine)
  {
    Bus.Wf(m.bus) && m.regs.sp + 2 <= 0xFFFF && Bus.Writable(m.regs.sp + 1) && Bus.Writable(m.regs.sp + 2)
  }

  /** The address in HL can be written. */
  ghost predicate HlWritable(m: Machine)
  {
    Bus.Wf(m.bus) && Bus.Writable(Pair(m.regs.h, m.regs.l))
  }

  /** The address given by the two-byte operand can be written. */
  ghost predicate A16Writable(m: Machine)
  {
    Operand16(m) && Bus.Writable(Word(m.bus, m.regs.pc + 1))
  }

  /**
   * What a handler needs in order not to panic: every plain `+`/`-` on pc
   * and sp stays within u16, every store hits a mapped address, and the
   * shift in RLA is by less than 8.
   */
  ghost predicate Pre(instr: Instr, m: Machine)
  {
    match instr
    case Rla => RlaPre(m)
    case RlC | CpD8 | JrR8 | Jr(_, _) | LdD8(_) | LdhA8A | LdhAA8 => Operand8(m)
    case JmpA16 | LdDeD16 | LdHlD16 | LdSpD16 => Operand16(m)
    case BitH(bit) => Bus.Wf(m.bus) && bit < 8
    case Call => CallPre(m)
    case Ret => RetPre(m)
    case PushBc => PushPre(m)
    case PopBc | PopHl => PopPre(m)
    case LdHlA | LdiHlA | LddHlA => HlWritable(m)
    case LdA16A => A16Writable(m)
    case _ => Bus.Wf(m.bus)
  }

  /** NOP changes nothing. */
  ghost predicate NopEffect(m: Machine, n: Machine, o: Outcome)
  {
    Bus.Wf(m.bus) &&
    var R, M, T, N := m.regs, m.bus, n.regs, n.bus;
    T == R && N == M && o == Advance(1)
  }

  /** INC r: r wraps around upward; no flag is written. */
  ghost predicate IncEffect(r: Reg8, m: Machine, n: Machine, o: Outcome)
  {
    Bus.Wf(m.bus) &&
    var R, M, T, N := m.regs, m.bus, n.regs, n.bus;
    T == R.Put(r, (R.Get(r) + 1) % U8_LIMIT) && N == M && o == Advance(1)
  }

  /** INC DE: the 16-bit pair wraps around upward. */
  ghost predicate IncDeEffect(m: Machine, n: Machine, o: Outcome)
  {
    Bus.Wf(m.bus) &&
    var R, M, T, N := m.regs, m.bus, n.regs, n.bus;
    Pair(T.d, T.e) == (Pair(R.d, R.e) + 1) % U16_LIMIT && T == R.(d := T.d, e := T.e) &&
    N == M && o == Advance(1)
  }

  /** INC HL: the 16-bit pair wraps around upward. */
  ghost predicate IncHlEffect(m: Machine, n: Machine, o: Outcome)
  {
    Bus.Wf(m.bus) &&
    var R, M, T, N := m.regs, m.bus, n.regs, n.bus;
    Pair(T.h, T.l) == (Pair(R.h, R.l) + 1) % U16_LIMIT && T == R.(h := T.h, l := T.l) &&
    N == M && o == Advance(1)
  }

  /** DEC r: r wraps around downward; Z tells whether it reached 0, N is raised, H tells whether it was 0. */
  ghost predicate DecEffect(r: Reg8, m: Machine, n: Machine, o: Outcome)
  {
    Bus.Wf(m.bus) &&
    var R, M, T, N := m.regs, m.bus, n.regs, n.bus;
    var v := (R.Get(r) - 1) % U8_LIMIT;
    T == R.Put(r, v).(f := T.f) &&
    Get(T.f, Zero) == (v == 0) && Get(T.f, Subtract) &&
    Get(T.f, HalfCarry) == (R.Get(r) == 0) && SameFlagsBut(T.f, R.f, {Zero, Subtract, HalfCarry}) &&
    N == M && o == Advance(1)
  }

  /** XOR A: A becomes 0; no flag is written. */
  ghost predicate XorAEffect(m: Machine, n: Machine, o: Outcome)
  {
    Bus.Wf(m.bus) &&
    var R, M, T, N := m.regs, m.bus, n.regs, n.bus;
    T == R.(a := 0) && N == M && o == Advance(1)
  }

  /** RLA as written: A is shifted left by the byte after the opcode, and C is raised when bit 7 of A was set. */
  ghost predicate RlaEffect(m: Machine, n: Machine, o: Outcome)
  {
    RlaPre(m) &&
    var R, M, T, N := m.regs, m.bus, n.regs, n.bus;
    var amount := Bus.Read(M, R.pc + 1);
    T == R.(a := (R.a * Pow2(amount)) % U8_LIMIT, f := T.f) &&
    Get(T.f, Carry) == (Get(R.f, Carry) || 0x80 <= R.a) && SameFlagsBut(T.f, R.f, {Carry}) &&
    N == M && o == Advance(1)
  }

  /** RL C as written: the operand byte is read and the rotated value thrown away. */
  ghost predicate RlCEffect(m: Machine, n: Machine, o: Outcome)
  {
    Operand8(m) &&
    var R, M, T, N := m.regs, m.bus, n.regs, n.bus;
    T == R && N == M && o == Advance(1)
  }

  /** BIT b,H: Z is set when bit b of H is clear, N is cleared and H raised. */
  ghost predicate BitHEffect(bit: u8, m: Machine, n: Machine, o: Outcome)
  {
    Bus.Wf(m.bus) && bit < 8 &&
    var R, M, T, N := m.regs, m.bus, n.regs, n.bus;
    T == R.(f := T.f) &&
    Get(T.f, Zero) == !Bit(R.h, bit) && !Get(T.f, Subtract) && Get(T.f, HalfCarry) &&
    SameFlagsBut(T.f, R.f, {Zero, Subtract, HalfCarry}) &&
    N == M && o == Advance(1)
  }

  /** CP d8: compares A with the immediate; an immediate of 0x90 crashes after the flags are set. */
  ghost predicate CpD8Effect(m: Machine, n: Machine, o: Outcome)
  {
    Operand8(m) &&
    var R, M, T, N := m.regs, m.bus, n.regs, n.bus;
    var v := Bus.Read(M, R.pc + 1);
    T == R.(f := T.f) &&
    Get(T.f, Zero) == (R.a == v) && Get(T.f, Subtract) &&
    Get(T.f, HalfCarry) == (R.a % 16 < v % 16) && Get(T.f, Carry) == (R.a < v) &&
    T.f % 16 == R.f % 16 &&
    N == M && o == (if v == 0x90 then Crash else Advance(2))
  }

  /** JR r8: a relative jump by the signed immediate. */
  ghost predicate JrR8Effect(m: Machine, n: Machine, o: Outcome)
  {
    Operand8(m) &&
    var R, M, T, N := m.regs, m.bus, n.regs, n.bus;
    T == R.(pc := JumpTarget(R.pc, Bus.Read(M, R.pc + 1))) && N == M && o == Advance(2)
  }

  /** JR cc,r8: jumps only when the flag equals `zero`. */
  ghost predicate JrEffect(flag: Flag, zero: bool, m: Machine, n: Machine, o: Outcome)
  {
    Operand8(m) &&
    var R, M, T, N := m.regs, m.bus, n.regs, n.bus;
    T == (if Get(R.f, flag) == zero then R.(pc := JumpTarget(R.pc, Bus.Read(M, R.pc + 1))) else R) &&
    N == M && o == Advance(2)
  }

  /** JP a16: pc becomes the immediate word. */
  ghost predicate JmpA16Effect(m: Machine, n: Machine, o: Outcome)
  {
    Operand16(m) &&
    var R, M, T, N := m.regs, m.bus, n.regs, n.bus;
    T == R.(pc := Word(M, R.pc + 1)) && N == M && o == Advance(0)
  }

  /** CALL a16: the low byte of the return address goes to sp, the high byte just below, and pc becomes the immediate word. */
  ghost predicate CallEffect(m: Machine, n: Machine, o: Outcome)
  {
    CallPre(m) &&
    var R, M, T, N := m.regs, m.bus, n.regs, n.bus;
    var back := R.pc + 3;
    T == R.(pc := Word(M, R.pc + 1), sp := R.sp - 2) &&
    N == Bus.Write(Bus.Write(M, R.sp, Low(back)), R.sp - 1, High(back)) && o == Advance(0)
  }

  /** RET as written: pc is assembled from the bytes at sp + 1 (high) and sp + 2 (low), and sp is zeroed. */
  ghost predicate RetEffect(m: Machine, n: Machine, o: Outcome)
  {
    RetPre(m) &&
    var R, M, T, N := m.regs, m.bus, n.regs, n.bus;
    T == R.(pc := Pair(Bus.Read(M, R.sp + 1), Bus.Read(M, R.sp + 2)), sp := 0) &&
    N == M && o == Advance(0)
  }

  /** PUSH BC: b goes to sp - 1 and c to sp - 2. */
  ghost predicate PushBcEffect(m: Machine, n: Machine, o: Outcome)
  {
    PushPre(m) &&
    var R, M, T, N := m.regs, m.bus, n.regs, n.bus;
    T == R.(sp := R.sp - 2) &&
    N == Bus.Write(Bus.Write(M, R.sp - 1, R.b), R.sp - 2, R.c) && o == Advance(1)
  }

  /** POP BC: b and c come from sp + 1 and sp + 2, and both cells are cleared. */
  ghost predicate PopBcEffect(m: Machine, n: Machine, o: Outcome)
  {
    PopPre(m) &&
    var R, M, T, N := m.regs, m.bus, n.regs, n.bus;
    T == R.(sp := R.sp + 2, b := Bus.Read(M, R.sp + 1), c := Bus.Read(M, R.sp + 2)) &&
    N == Bus.Write(Bus.Write(M, R.sp + 1, 0), R.sp + 2, 0) && o == Advance(1)
  }

  /** POP HL: h and l come from sp + 1 and sp + 2, and both cells are cleared. */
  ghost predicate PopHlEffect(m: Machine, n: Machine, o: Outcome)
  {
    PopPre(m) &&
    var R, M, T, N := m.regs, m.bus, n.regs, n.bus;
    T == R.(sp := R.sp + 2, h := Bus.Read(M, R.sp + 1), l := Bus.Read(M, R.sp + 2)) &&
    N == Bus.Write(Bus.Write(M, R.sp + 1, 0), R.sp + 2, 0) && o == Advance(1)
  }

  /** LD r,r': a register copy. */
  ghost predicate LdEffect(r: Reg8, src: Reg8, m: Machine, n: Machine, o: Outcome)
  {
    Bus.Wf(m.bus) &&
    var R, M, T, N := m.regs, m.bus, n.regs, n.bus;
    T == R.Put(r, R.Get(src)) && N == M && o == Advance(1)
  }

  /** LD r,d8: the byte after the opcode goes to r. */
  ghost predicate LdD8Effect(r: Reg8, m: Machine, n: Machine, o: Outcome)
  {
    Operand8(m) &&
    var R, M, T, N := m.regs, m.bus, n.regs, n.bus;
    T == R.Put(r, Bus.Read(M, R.pc + 1)) && N == M && o == Advance(2)
  }

  /** LD A,(DE) */
  ghost predicate LdADeEffect(m: Machine, n: Machine, o: Outcome)
  {
    Bus.Wf(m.bus) &&
    var R, M, T, N := m.regs, m.bus, n.regs, n.bus;
    T == R.(a := Bus.Read(M, Pair(R.d, R.e))) && N == M && o == Advance(1)
  }

  /** LD (HL),A */
  ghost predicate LdHlAEffect(m: Machine, n: Machine, o: Outcome)
  {
    HlWritable(m) &&
    var R, M, T, N := m.regs, m.bus, n.regs, n.bus;
    T == R && N == Bus.Write(M, Pair(R.h, R.l), R.a) && o == Advance(1)
  }

  /** LD DE,d16 */
  ghost predicate LdDeD16Effect(m: Machine, n: Machine, o: Outcome)
  {
    Operand16(m) &&
    var R, M, T, N := m.regs, m.bus, n.regs, n.bus;
    Pair(T.d, T.e) == Word(M, R.pc + 1) && T == R.(d := T.d, e := T.e) &&
    N == M && o == Advance(3)
  }

  /** LD HL,d16 */
  ghost predicate LdHlD16Effect(m: Machine, n: Machine, o: Outcome)
  {
    Operand16(m) &&
    var R, M, T, N := m.regs, m.bus, n.regs, n.bus;
    Pair(T.h, T.l) == Word(M, R.pc + 1) && T == R.(h := T.h, l := T.l) &&
    N == M && o == Advance(3)
  }

  /** LD SP,d16 */
  ghost predicate LdSpD16Effect(m: Machine, n: Machine, o: Outcome)
  {
    Operand16(m) &&
    var R, M, T, N := m.regs, m.bus, n.regs, n.bus;
    T == R.(sp := Word(M, R.pc + 1)) && N == M && o == Advance(3)
  }

  /** LD (HL+),A: store A at HL, then HL wraps around upward. */
  ghost predicate LdiHlAEffect(m: Machine, n: Machine, o: Outcome)
  {
    HlWritable(m) &&
    var R, M, T, N := m.regs, m.bus, n.regs, n.bus;
    N == Bus.Write(M, Pair(R.h, R.l), R.a) &&
    Pair(T.h, T.l) == (Pair(R.h, R.l) + 1) % U16_LIMIT && T == R.(h := T.h, l := T.l) &&
    o == Advance(1)
  }

  /** LD (HL-),A: store A at HL, then HL wraps around downward. */
  ghost predicate LddHlAEffect(m: Machine, n: Machine, o: Outcome)
  {
    HlWritable(m) &&
    var R, M, T, N := m.regs, m.bus, n.regs, n.bus;
    N == Bus.Write(M, Pair(R.h, R.l), R.a) &&
    Pair(T.h, T.l) == (Pair(R.h, R.l) - 1) % U16_LIMIT && T == R.(h := T.h, l := T.l) &&
    o == Advance(1)
  }

  /** Opcode 0xE0 as written: A is loaded from 0xFF00 + the immediate. */
  ghost predicate LdhA8AEffect(m: Machine, n: Machine, o: Outcome)
  {
    Operand8(m) &&
    var R, M, T, N := m.regs, m.bus, n.regs, n.bus;
    T == R.(a := Bus.Read(M, 0xFF00 + Bus.Read(M, R.pc + 1))) && N == M && o == Advance(2)
  }

  /** Opcode 0xF0 as written: A is stored at 0xFF00 + the immediate. */
  ghost predicate LdhAA8Effect(m: Machine, n: Machine, o: Outcome)
  {
    Operand8(m) &&
    var R, M, T, N := m.regs, m.bus, n.regs, n.bus;
    T == R && N == Bus.Write(M, 0xFF00 + Bus.Read(M, R.pc + 1), R.a) && o == Advance(2)
  }

  /** LD (C),A: A is stored at 0xFF00 + C. */
  ghost predicate LdrCAEffect(m: Machine, n: Machine, o: Outcome)
  {
    Bus.Wf(m.bus) &&
    var R, M, T, N := m.regs, m.bus, n.regs, n.bus;
    T == R && N == Bus.Write(M, 0xFF00 + R.c, R.a) && o == Advance(1)
  }

  /** LD (a16),A: A is stored at the immediate address. */
  ghost predicate LdA16AEffect(m: Machine, n: Machine, o: Outcome)
  {
    A16Writable(m) &&
    var R, M, T, N := m.regs, m.bus, n.regs, n.bus;
    T == R && N == Bus.Write(M, Word(M, R.pc + 1), R.a) && o == Advance(3)
  }

  /**
   * One handler runs from `m` without panicking, ends in `n` and returns
   * `o`.  Every register, flag and memory cell not mentioned keeps its value.
   * Each arm includes the handler's part of `Pre`, so an effect that holds
   * implies that the handler did not panic.
   */
  ghost predicate Effect(instr: Instr, m: Machine, n: Machine, o: Outcome)
  {
    match instr
    case Nop => NopEffect(m, n, o)
    case Inc(r) => IncEffect(r, m, n, o)
    case IncDe => IncDeEffect(m, n, o)
    case IncHl => IncHlEffect(m, n, o)
    case Dec(r) => DecEffect(r, m, n, o)
    case XorA => XorAEffect(m, n, o)
    case Rla => RlaEffect(m, n, o)
    case RlC => RlCEffect(m, n, o)
    case BitH(bit) => BitHEffect(bit, m, n, o)
    case CpD8 => CpD8Effect(m, n, o)
    case JrR8 => JrR8Effect(m, n, o)
    case Jr(flag, zero) => JrEffect(flag, zero, m, n, o)
    case JmpA16 => JmpA16Effect(m, n, o)
    case Call => CallEffect(m, n, o)
    case Ret => RetEffect(m, n, o)
    case PushBc => PushBcEffect(m, n, o)
    case PopBc => PopBcEffect(m, n, o)
    case PopHl => PopHlEffect(m, n, o)
    case Ld(r, src) => LdEffect(r, src, m, n, o)
    case LdD8(r) => LdD8Effect(r, m, n, o)
    case LdADe => LdADeEffect(m, n, o)
    case LdHlA => LdHlAEffect(m, n, o)
    case LdDeD16 => LdDeD16Effect(m, n, o)
    case LdHlD16 => LdHlD16Effect(m, n, o)
    case LdSpD16 => LdSpD16Effect(m, n, o)
    case LdiHlA => LdiHlAEffect(m, n, o)
    case LddHlA => LddHlAEffect(m, n, o)
    case LdhA8A => LdhA8AEffect(m, n, o)
    case LdhAA8 => LdhAA8Effect(m, n, o)
    case LdrCA => LdrCAEffect(m, n, o)
    case LdA16A => LdA16AEffect(m, n, o)
    case Unknown => Bus.Wf(m.bus) && n == m && o == Advance(0)
    case UnknownPrefixed => Bus.Wf(m.bus) && o == Crash
  }

  /** The two bytes CALL pushes read back, high then low, as the address pushed. */
  lemma PushedAddress(M: Bus.State, sp: u16, back: u16)
    requires Bus.Wf(M) && 2 <= sp && Bus.Writable(sp) && Bus.Writable(sp - 1)
    ensures var N := Bus.Write(Bus.Write(M, sp, Low(back)), sp - 1, High(back));
      Pair(Bus.Read(N, sp - 1), Bus.Read(N, sp)) == back
  {
    var inner := Bus.Write(M, sp, Low(back));
    Bus.ReadAfterWrite(inner, sp - 1, High(back));
    Bus.ReadOtherAfterWrite(inner, sp - 1, sp, High(back));
    Bus.ReadAfterWrite(M, sp, Low(back));
    PairSplit(back);
  }

  /**
   * CALL followed by RET comes back to the instruction after the CALL, but
   * RET leaves sp at 0 instead of where CALL found it.
   */
  lemma CallThenRet(m0: Machine, m1: Machine, m2: Machine, o1: Outcome, o2: Outcome)
    requires CallEffect(m0, m1, o1)
    requires RetEffect(m1, m2, o2)
    ensures m2.regs.pc == m0.regs.pc + 3
    ensures m2.regs.sp == 0
    ensures o1 == o2 == Advance(0)
  {
    var sp := m0.regs.sp;
    PushedAddress(m0.bus, sp, m0.regs.pc + 3);
    assert m1.regs.sp == sp - 2;
    assert m1.regs.sp + 1 == sp - 1 && m1.regs.sp + 2 == sp;
    assert m2.regs.pc == Pair(Bus.Read(m1.bus, sp - 1), Bus.Read(m1.bus, sp));
  }

  /** What PUSH BC followed by POP BC leaves in the two stack cells and in B and C. */
  lemma PushedPopped(M: Bus.State, sp: u16, b: u8, c: u8)
    requires Bus.Wf(M) && 2 <= sp && Bus.Writable(sp - 1) && Bus.Writable(sp - 2) && Bus.Writable(sp)
    ensures var N := Bus.Write(Bus.Write(M, sp - 1, b), sp - 2, c);
      var K := Bus.Write(Bus.Write(N, sp - 1, 0), sp, 0);
      Bus.Read(N, sp - 1) == b && Bus.Read(N, sp) == Bus.Read(M, sp) &&
      Bus.Read(K, sp - 1) == 0 && Bus.Read(K, sp) == 0
  {
    var pushedB := Bus.Write(M, sp - 1, b);
    var N := Bus.Write(pushedB, sp - 2, c);
    Bus.ReadAfterWrite(M, sp - 1, b);
    Bus.ReadOtherAfterWrite(pushedB, sp - 2, sp - 1, c);
    Bus.ReadOtherAfterWrite(M, sp - 1, sp, b);
    Bus.ReadOtherAfterWrite(pushedB, sp - 2, sp, c);
    var poppedB := Bus.Write(N, sp - 1, 0);
    Bus.ReadAfterWrite(poppedB, sp, 0);
    Bus.ReadAfterWrite(N, sp - 1, 0);
    Bus.ReadOtherAfterWrite(poppedB, sp, sp - 1, 0);
  }

  /**
   * PUSH BC followed by POP BC restores sp and b, but c receives the byte
   * that was at the old sp, and both popped cells are left holding 0.
   */
  lemma PushThenPop(m0: Machine, m1: Machine, m2: Machine, o1: Outcome, o2: Outcome)
    requires PushBcEffect(m0, m1, o1)
    requires PopBcEffect(m1, m2, o2)
    ensures m2.regs == m0.regs.(c := Bus.Read(m0.bus, m0.regs.sp))
    ensures Bus.Read(m2.bus, m0.regs.sp - 1) == 0 && Bus.Read(m2.bus, m0.regs.sp) == 0
  {
    var sp := m0.regs.sp;
    PushedPopped(m0.bus, sp, m0.regs.b, m0.regs.c);
    assert m1.regs.sp == sp - 2;
    assert m1.regs.sp + 1 == sp - 1 && m1.regs.sp + 2 == sp;
  }

  /** INC r followed by DEC r restores every register but F and leaves memory alone. */
  lemma IncThenDec(r: Reg8, m0: Machine, m1: Machine, m2: Machine, o1: Outcome, o2: Outcome)
    requires IncEffect(r, m0, m1, o1)
    requires DecEffect(r, m1, m2, o2)
    ensures m2.regs == m0.regs.(f := m2.regs.f) && m2.bus == m0.bus
  {
    var x := m0.regs.Get(r);
    assert ((x + 1) % U8_LIMIT - 1) % U8_LIMIT == x;
    PutTwice(m0.regs, r, (x + 1) % U8_LIMIT, x);
    PutSame(m0.regs, r);
  }

  /**
   * `Decode` sends 0xE0 (`LDH (a8),A` in the Game Boy opcode table) to
   * `LdhA8A` and 0xF0 (`LDH A,(a8)`) to `LdhAA8`. The first loads A and
   * leaves memory alone, the second stores A: the two are swapped relative
   * to their mnemonics.
   */
  lemma LdhSwapped(m: Machine, n0: Machine, n1: Machine, o0: Outcome, o1: Outcome)
    requires LdhA8AEffect(m, n0, o0)
    requires LdhAA8Effect(m, n1, o1)
    ensures n0.bus == m.bus && n0.regs.a == Bus.Read(m.bus, 0xFF00 + Bus.Read(m.bus, m.regs.pc + 1))
    ensures n1.regs == m.regs && Bus.Read(n1.bus, 0xFF00 + Bus.Read(m.bus, m.regs.pc + 1)) == m.regs.a
  {
    Bus.ReadAfterWrite(m.bus, 0xFF00 + Bus.Read(m.bus, m.regs.pc + 1), m.regs.a);
  }

  /** The flag byte 0xB0 that `reset` loads: Z, H and C set, N clear. */
  lemma ResetFlags()
    ensures Get(0xB0, Zero) && !Get(0xB0, Subtract) && Get(0xB0, HalfCarry) && Get(0xB0, Carry)
    ensures 0xB0 % 16 == 0
  {
    assert Position(Zero) == 7 && Position(Subtract) == 6;
    assert Position(HalfCarry) == 5 && Position(Carry) == 4;
    assert Bit(0xB0, 4) by {
      assert Bit(0xB0, 4) == Bit(0x58, 3) == Bit(0x2C, 2) == Bit(0x16, 1) == Bit(0x0B, 0);
    }
    assert Bit(0xB0, 5) && !Bit(0xB0, 6) && Bit(0xB0, 7) by {
      assert Bit(0xB0, 5) == Bit(0x0B, 1) == Bit(0x05, 0);
      assert Bit(0xB0, 6) == Bit(0x05, 1) == Bit(0x02, 0);
      assert Bit(0xB0, 7) == Bit(0x02, 1) == Bit(0x01, 0);
    }
  }
}
