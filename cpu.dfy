/**
 * `Cpu` of src/cpu.rs: the ten registers are mutable fields beside the
 * memory the processor owns.  Every handler is a method proved to have
 * exactly the effect its predicate in `Instructions` describes; `Fetch`
 * reads the next opcode and `Execute` dispatches on it.
 */
module Cpu {
  import opened Types
  import opened Bits
  import Flags
  import Bus
  import Memory
  import opened Instructions

  class Cpu {
    var pc: u16
    var sp: u16
    var a: u8
    var f: u8
    var b: u8
    var c: u8
    var d: u8
    var e: u8
    var h: u8
    var l: u8
    const memory: Memory.Memory

    ghost function Repr(): set<object>
    {
      {this} + memory.Repr()
    }

    ghost predicate Valid()
      reads Repr()
    {
      memory.Valid() && this !in memory.Repr()
    }

    /** The registers as one value. */
    function Regs(): Registers
      reads this
    {
      Registers(pc, sp, a, f, b, c, d, e, h, l)
    }

    /** Registers and memory together. */
    ghost function State(): Machine
      reads Repr()
      requires Valid()
    {
      Machine(Regs(), memory.Model())
    }

    /** `Cpu::new`: every register starts at 0 and the memory is taken over as it is. */
    constructor (mem: Memory.Memory)
      requires mem.Valid()
      ensures Valid() && memory == mem
      ensures Regs() == Registers(0, 0, 0, 0, 0, 0, 0, 0, 0, 0)
    {
      pc, sp := 0, 0;
      a, f, b, c, d, e, h, l := 0, 0, 0, 0, 0, 0, 0, 0;
      memory := mem;
    }

    /**
     * `Cpu::reset`: the register values the boot ROM leaves behind
     * (`ResetFlags` reads the flags in 0xB0).
     */
    method Reset()
      modifies this
      ensures Regs() == Registers(0x0000, 0xFFFE, 0x01, 0xB0, 0x00, 0x13, 0x00, 0xD8, 0x01, 0x4D)
    {
      pc := 0x0000;
      sp := 0xFFFE;
      a := 0x01;
      f := 0xB0;
      b := 0x00;
      c := 0x13;
      d := 0x00;
      e := 0xD8;
      h := 0x01;
      l := 0x4D;
    }

    /** `Cpu::set`: raise or clear one flag in F; nothing else changes. */
    method Set(flag: Flags.Flag, v: bool)
      modifies this
      ensures Flags.Get(f, flag) == v
      ensures forall other :: other != flag ==> Flags.Get(f, other) == Flags.Get(old(f), other)
      ensures f % 16 == old(f) % 16
      ensures Regs() == old(Regs()).(f := f)
    {
      f := Flags.Set(f, flag, v);
    }

    /** Assign one of the seven byte registers. */
    method Put(r: Reg8, v: u8)
      modifies this
      ensures Regs() == old(Regs()).Put(r, v)
    {
      match r {
        case A => a := v;
        case B => b := v;
        case C => c := v;
        case D => d := v;
        case E => e := v;
        case H => h := v;
        case L => l := v;
      }
    }

    /** `Cpu::de`: D is the high byte and E what lies above D * 256. */
    function De(): (r: u16)
      reads this
      ensures d * 256 <= r < d * 256 + 256 && r - d * 256 == e
    {
      Pair(d, e)
    }

    /** `Cpu::hl`: H is the high byte and L what lies above H * 256. */
    function Hl(): (r: u16)
      reads this
      ensures h * 256 <= r < h * 256 + 256 && r - h * 256 == l
    {
      Pair(h, l)
    }

    /** `Cpu::store_de`: split a word into D (high) and E (low). */
    method StoreDe(w: u16)
      modifies this
      ensures Pair(d, e) == w
      ensures Regs() == old(Regs()).(d := d, e := e)
    {
      e := Low(w);
      d := High(w);
      PairSplit(w);
    }

    /** `Cpu::store_hl`: split a word into H (high) and L (low). */
    method StoreHl(w: u16)
      modifies this
      ensures Pair(h, l) == w
      ensures Regs() == old(Regs()).(h := h, l := l)
    {
      l := Low(w);
      h := High(w);
      PairSplit(w);
    }

    /**
     * `Cpu::read_word`: `mem[address + 1] << 8 | mem[address]`, the
     * little-endian word at `address`.
     */
    method ReadWord(address: u16) returns (w: u16)
      requires Valid() && address + 1 <= 0xFFFF
      ensures w == Word(memory.Model(), address)
    {
      var hi := memory.Index(address + 1);
      var lo := memory.Index(address);
      var shifted: u16 := (hi as int) * 256;
      SmallPowers();
      OrDisjoint(hi, lo, 8);
      w := Or(shifted, lo);
    }

    /**
     * `Cpu::fetch`: the byte at pc; after a 0xCB prefix pc moves onto the
     * second byte, which is returned with the prefix.
     */
    method Fetch() returns (prefix: u8, opcode: u8)
      requires Valid()
      requires Bus.Read(memory.Model(), pc) == 0xCB ==> pc + 1 <= 0xFFFF
      modifies this
      ensures Valid()
      ensures var m, p := memory.Model(), old(pc);
        if Bus.Read(m, p) == 0xCB then
          prefix == 0xCB && pc == p + 1 && opcode == Bus.Read(m, p + 1)
        else
          prefix == 0 && pc == p && opcode == Bus.Read(m, p)
      ensures Regs() == old(Regs()).(pc := pc)
    {
      var first := memory.Index(pc);
      if first == 0xCB {
        pc := pc + 1;
        var second := memory.Index(pc);
        return first, second;
      }
      return 0, first;
    }

    method Nop() returns (size: u16)
      requires Valid()
      ensures NopEffect(State(), State(), Advance(size))
    {
      size := 1;
    }

    /** `inc_a` to `inc_l` */
    method Inc(r: Reg8) returns (size: u16)
      requires Valid()
      modifies this
      ensures Valid() && IncEffect(r, old(State()), State(), Advance(size))
    {
      Put(r, (Regs().Get(r) + 1) % U8_LIMIT);
      size := 1;
    }

    method IncDe() returns (size: u16)
      requires Valid()
      modifies this
      ensures Valid() && IncDeEffect(old(State()), State(), Advance(size))
    {
      var value := De();
      StoreDe(WrappingAdd16(value, 1));
      size := 1;
    }

    method IncHl() returns (size: u16)
      requires Valid()
      modifies this
      ensures Valid() && IncHlEffect(old(State()), State(), Advance(size))
    {
      var value := Hl();
      StoreHl(WrappingAdd16(value, 1));
      size := 1;
    }

    /** `dec_a` to `dec_l`: H from the old value, then the wrapping decrement, then Z and N. */
    method Dec(r: Reg8) returns (size: u16)
      requires Valid()
      modifies this
      ensures Valid() && DecEffect(r, old(State()), State(), Advance(size))
    {
      var value := Regs().Get(r);
      Set(Flags.HalfCarry, value == 0);
      var result := (value - 1) % U8_LIMIT;
      Put(r, result);
      Set(Flags.Zero, result == 0);
      Set(Flags.Subtract, true);
      size := 1;
    }

    /** `xor_a`: `a ^= a`. */
    method XorA() returns (size: u16)
      requires Valid()
      modifies this
      ensures Valid() && XorAEffect(old(State()), State(), Advance(size))
    {
      XorSelf(a);
      a := Xor8(a, a);
      size := 1;
    }

    method Rla() returns (size: u16)
      requires Valid() && RlaPre(State())
      modifies this
      ensures Valid() && RlaEffect(old(State()), State(), Advance(size))
    {
      var amount := memory.Index(pc + 1);
      SmallPowers();
      BitTest(a, 7);
      TopBit(a);
      if And(a, 0x80) != 0 {
        Set(Flags.Carry, true);
      }
      a := Shl8(a, amount);
      size := 1;
    }

    /** `rl_c`: the rotated value is computed and dropped. */
    method RlC() returns (size: u16)
      requires Valid() && Operand8(State())
      ensures RlCEffect(State(), State(), Advance(size))
    {
      var amount := memory.Index(pc + 1);
      size := 1;
    }

    method BitH(bit: u8) returns (size: u16)
      requires Valid() && bit < 8
      modifies this
      ensures Valid() && BitHEffect(bit, old(State()), State(), Advance(size))
    {
      ShiftOne(bit);
      BitTest(h, bit);
      Set(Flags.Zero, And(h, Shl8(1, bit)) == 0);
      Set(Flags.Subtract, false);
      Set(Flags.HalfCarry, true);
      size := 1;
    }

    /** `cp_d8`: the flags are set first, then an immediate of 0x90 crashes. */
    method CpD8() returns (o: Outcome)
      requires Valid() && Operand8(State())
      modifies this
      ensures Valid() && CpD8Effect(old(State()), State(), o)
    {
      var value := memory.Index(pc + 1);
      ShiftNibble(a);
      ShiftNibble(value);
      Set(Flags.Zero, a == value);
      Set(Flags.Subtract, true);
      Set(Flags.HalfCarry, Shl8(a, 4) < Shl8(value, 4));
      Set(Flags.Carry, a < value);
      if value == 0x90 {
        return Crash;
      }
      o := Advance(2);
    }

    method JrR8() returns (size: u16)
      requires Valid() && Operand8(State())
      modifies this
      ensures Valid() && JrR8Effect(old(State()), State(), Advance(size))
    {
      var offset := memory.Index(pc + 1);
      pc := JumpTarget(pc, offset);
      size := 2;
    }

    /** `jr`: jump only when `flag` reads as `zero`. */
    method Jr(flag: Flags.Flag, zero: bool) returns (size: u16)
      requires Valid() && Operand8(State())
      modifies this
      ensures Valid() && JrEffect(flag, zero, old(State()), State(), Advance(size))
    {
      var offset := memory.Index(pc + 1);
      var address := JumpTarget(pc, offset);
      if Flags.Get(f, flag) == zero {
        pc := address;
      }
      size := 2;
    }

    method JmpA16() returns (size: u16)
      requires Valid() && Operand16(State())
      modifies this
      ensures Valid() && JmpA16Effect(old(State()), State(), Advance(size))
    {
      var address := ReadWord(pc + 1);
      pc := address;
      size := 0;
    }

    /**
     * `call`: the return address pc + 3 goes low byte at sp, high byte at
     * sp - 1; sp drops by 2 and pc takes the word after the opcode.
     */
    method Call() returns (size: u16)
      requires Valid() && CallPre(State())
      modifies Repr()
      ensures Valid() && CallEffect(old(State()), State(), Advance(size))
    {
      ghost var R, M := Regs(), memory.Model();
      var address := ReadWord(pc + 1);
      var back := pc + 3;
      var high := And(Trunc8(back / 256), 0xFF);
      var low := And(Trunc8(back), 0xFF);
      AndLowByte(Trunc8(back / 256));
      AndLowByte(Trunc8(back));
      memory.Store(sp, low);
      assert memory.Model() == Bus.Write(M, R.sp, Low(back));
      sp := sp - 1;
      memory.Store(sp, high);
      assert memory.Model() == Bus.Write(Bus.Write(M, R.sp, Low(back)), R.sp - 1, High(back));
      sp := sp - 1;
      pc := address;
      assert Regs() == R.(pc := Word(M, R.pc + 1), sp := R.sp - 2);
      size := 0;
    }

    /** `ret` as written: high byte from sp + 1, low byte from sp + 2, then sp ends at 0. */
    method Ret() returns (size: u16)
      requires Valid() && RetPre(State())
      modifies this
      ensures Valid() && RetEffect(old(State()), State(), Advance(size))
    {
      var hi := memory.Index(sp + 1);
      var lo := memory.Index(sp + 2);
      var shifted: u16 := (hi as int) * 256;
      SmallPowers();
      OrDisjoint(hi, lo, 8);
      pc := Or(shifted, lo);
      sp := sp + 1;
      sp := 0;
      sp := sp + 1;
      sp := 0;
      size := 0;
    }

    method PushBc() returns (size: u16)
      requires Valid() && PushPre(State())
      modifies Repr()
      ensures Valid() && PushBcEffect(old(State()), State(), Advance(size))
    {
      sp := sp - 1;
      memory.Store(sp, b);
      sp := sp - 1;
      memory.Store(sp, c);
      size := 1;
    }

    method PopBc() returns (size: u16)
      requires Valid() && PopPre(State())
      modifies Repr()
      ensures Valid() && PopBcEffect(old(State()), State(), Advance(size))
    {
      ghost var R, M := Regs(), memory.Model();
      var top := sp + 1;
      var high := memory.Index(top);
      memory.Store(top, 0);
      var next := top + 1;
      Bus.ReadOtherAfterWrite(M, top, next, 0);
      var low := memory.Index(next);
      memory.Store(next, 0);
      assert memory.Model() == Bus.Write(Bus.Write(M, R.sp + 1, 0), R.sp + 2, 0);
      sp, b, c := next, high, low;
      assert Regs() == R.(sp := R.sp + 2, b := Bus.Read(M, R.sp + 1), c := Bus.Read(M, R.sp + 2));
      size := 1;
    }

    method PopHl() returns (size: u16)
      requires Valid() && PopPre(State())
      modifies Repr()
      ensures Valid() && PopHlEffect(old(State()), State(), Advance(size))
    {
      ghost var R, M := Regs(), memory.Model();
      var top := sp + 1;
      var high := memory.Index(top);
      memory.Store(top, 0);
      var next := top + 1;
      Bus.ReadOtherAfterWrite(M, top, next, 0);
      var low := memory.Index(next);
      memory.Store(next, 0);
      assert memory.Model() == Bus.Write(Bus.Write(M, R.sp + 1, 0), R.sp + 2, 0);
      sp, h, l := next, high, low;
      assert Regs() == R.(sp := R.sp + 2, h := Bus.Read(M, R.sp + 1), l := Bus.Read(M, R.sp + 2));
      size := 1;
    }

    /** `ld_a` to `ld_l`: the register takes the value passed in. */
    method Ld(r: Reg8, value: u8) returns (size: u16)
      modifies this
      ensures Regs() == old(Regs()).Put(r, value) && size == 1
    {
      Put(r, value);
      size := 1;
    }

    /** `ld_a_d8` to `ld_l_d8` */
    method LdD8(r: Reg8) returns (size: u16)
      requires Valid() && Operand8(State())
      modifies this
      ensures Valid() && LdD8Effect(r, old(State()), State(), Advance(size))
    {
      var value := memory.Index(pc + 1);
      Put(r, value);
      size := 2;
    }

    method LdADe() returns (size: u16)
      requires Valid()
      modifies this
      ensures Valid() && LdADeEffect(old(State()), State(), Advance(size))
    {
      var address := De();
      var value := memory.Index(address);
      a := value;
      size := 1;
    }

    method LdHlA() returns (size: u16)
      requires Valid() && HlWritable(State())
      modifies Repr()
      ensures Valid() && LdHlAEffect(old(State()), State(), Advance(size))
    {
      var address := Hl();
      memory.Store(address, a);
      size := 1;
    }

    /** `ld_de_d16`: D from pc + 2, E from pc + 1. */
    method LdDeD16() returns (size: u16)
      requires Valid() && Operand16(State())
      modifies this
      ensures Valid() && LdDeD16Effect(old(State()), State(), Advance(size))
    {
      var high := memory.Index(pc + 2);
      d := high;
      var low := memory.Index(pc + 1);
      e := low;
      size := 3;
    }

    /** `ld_hl_d16`: L from pc + 1, H from pc + 2. */
    method LdHlD16() returns (size: u16)
      requires Valid() && Operand16(State())
      modifies this
      ensures Valid() && LdHlD16Effect(old(State()), State(), Advance(size))
    {
      var low := memory.Index(pc + 1);
      l := low;
      var high := memory.Index(pc + 2);
      h := high;
      size := 3;
    }

    method LdSpD16() returns (size: u16)
      requires Valid() && Operand16(State())
      modifies this
      ensures Valid() && LdSpD16Effect(old(State()), State(), Advance(size))
    {
      var address := ReadWord(pc + 1);
      sp := address;
      size := 3;
    }

    method LdiHlA() returns (size: u16)
      requires Valid() && HlWritable(State())
      modifies Repr()
      ensures Valid() && LdiHlAEffect(old(State()), State(), Advance(size))
    {
      ghost var R, M := Regs(), memory.Model();
      var address := Hl();
      assert address == Pair(R.h, R.l);
      memory.Store(address, a);
      assert memory.Model() == Bus.Write(M, address, R.a);
      var next := WrappingAdd16(address, 1);
      assert next == (address + 1) % U16_LIMIT;
      StoreHl(next);
      assert Regs() == R.(h := h, l := l) && Pair(h, l) == next;
      size := 1;
    }

    method LddHlA() returns (size: u16)
      requires Valid() && HlWritable(State())
      modifies Repr()
      ensures Valid() && LddHlAEffect(old(State()), State(), Advance(size))
    {
      ghost var R, M := Regs(), memory.Model();
      var address := Hl();
      assert address == Pair(R.h, R.l);
      memory.Store(address, a);
      assert memory.Model() == Bus.Write(M, address, R.a);
      var next := WrappingAdd16(address, -1);
      assert next == (address - 1) % U16_LIMIT;
      StoreHl(next);
      assert Regs() == R.(h := h, l := l) && Pair(h, l) == next;
      size := 1;
    }

    /** `ldh_a8_a` (opcode 0xE0) as written: A is loaded from 0xFF00 + the immediate. */
    method LdhA8A() returns (size: u16)
      requires Valid() && Operand8(State())
      modifies this
      ensures Valid() && LdhA8AEffect(old(State()), State(), Advance(size))
    {
      var offset := memory.Index(pc + 1);
      var address: u16 := 0xFF00 + offset as int;
      var value := memory.Index(address);
      a := value;
      size := 2;
    }

    /** `ldh_a_a8` (opcode 0xF0) as written: A is stored at 0xFF00 + the immediate. */
    method LdhAA8() returns (size: u16)
      requires Valid() && Operand8(State())
      modifies Repr()
      ensures Valid() && LdhAA8Effect(old(State()), State(), Advance(size))
    {
      var offset := memory.Index(pc + 1);
      var address: u16 := 0xFF00 + offset as int;
      memory.Store(address, a);
      size := 2;
    }

    method LdrCA() returns (size: u16)
      requires Valid()
      modifies Repr()
      ensures Valid() && LdrCAEffect(old(State()), State(), Advance(size))
    {
      var address: u16 := 0xFF00 + c;
      memory.Store(address, a);
      size := 1;
    }

    method LdA16A() returns (size: u16)
      requires Valid() && A16Writable(State())
      modifies Repr()
      ensures Valid() && LdA16AEffect(old(State()), State(), Advance(size))
    {
      var address := ReadWord(pc + 1);
      memory.Store(address, a);
      size := 3;
    }

    /**
     * `execute`: run the handler the key `(prefix, opcode)` selects and
     * return how far pc is to move.  An unknown plain opcode moves it by 0;
     * an unknown CB-prefixed opcode crashes.
     */
    method Execute(prefix: u8, opcode: u8) returns (o: Outcome)
      requires Valid() && Pre(Decode(prefix, opcode), State())
      modifies Repr()
      ensures Valid() && Effect(Decode(prefix, opcode), old(State()), State(), o)
    {
      var size: u16 := 0;
      match Decode(prefix, opcode) {
        case Nop => size := Nop();
        case Inc(r) => size := Inc(r);
        case IncDe => size := IncDe();
        case IncHl => size := IncHl();
        case Dec(r) => size := Dec(r);
        case XorA => size := XorA();
        case Rla => size := Rla();
        case RlC => size := RlC();
        case BitH(bit) => size := BitH(bit);
        case CpD8 => o := CpD8(); return;
        case JrR8 => size := JrR8();
        case Jr(flag, zero) => size := Jr(flag, zero);
        case JmpA16 => size := JmpA16();
        case Call => size := Call();
        case Ret => size := Ret();
        case PushBc => size := PushBc();
        case PopBc => size := PopBc();
        case PopHl => size := PopHl();
        case Ld(r, src) => size := Ld(r, Regs().Get(src));
        case LdD8(r) => size := LdD8(r);
        case LdADe => size := LdADe();
        case LdHlA => size := LdHlA();
        case LdDeD16 => size := LdDeD16();
        case LdHlD16 => size := LdHlD16();
        case LdSpD16 => size := LdSpD16();
        case LdiHlA => size := LdiHlA();
        case LddHlA => size := LddHlA();
        case LdhA8A => size := LdhA8A();
        case LdhAA8 => size := LdhAA8();
        case LdrCA => size := LdrCA();
        case LdA16A => size := LdA16A();
        case Unknown => size := 0;
        case UnknownPrefixed => o := Crash; return;
      }
      o := Advance(size);
    }
  }
}
