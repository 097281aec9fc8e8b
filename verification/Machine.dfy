/** A small x86 step machine with integer registers and word memory, in the two
    widths of the port: 4-byte words (nt32) and 8-byte words (nt64).

    Every instruction occupies one unit of code space, so the address following an
    instruction is `pc + 1`.  Memory holds whole words, and `mapped` is the set of
    (word-aligned) addresses the program may touch: an access to any other address
    clears `ok`, which is never set again. */
module Machine {

  datatype Width = W32 | W64

  datatype Reg = AX | BX | CX | DX | SI | DI | BP | SP
               | R8 | R9 | R10 | R12 | R13 | R14 | R15

  datatype Regs = Regs(ax: int, bx: int, cx: int, dx: int, si: int, di: int, bp: int, sp: int,
                       r8: int, r9: int, r10: int, r12: int, r13: int, r14: int, r15: int)
  {
    function Get(r: Reg): int {
      match r
      case AX => ax case BX => bx case CX => cx case DX => dx
      case SI => si case DI => di case BP => bp case SP => sp
      case R8 => r8 case R9 => r9 case R10 => r10
      case R12 => r12 case R13 => r13 case R14 => r14 case R15 => r15
    }

    function Set(r: Reg, v: int): Regs {
      match r
      case AX => this.(ax := v) case BX => this.(bx := v)
      case CX => this.(cx := v) case DX => this.(dx := v)
      case SI => this.(si := v) case DI => this.(di := v)
      case BP => this.(bp := v) case SP => this.(sp := v)
      case R8 => this.(r8 := v) case R9 => this.(r9 := v) case R10 => this.(r10 := v)
      case R12 => this.(r12 := v) case R13 => this.(r13 := v)
      case R14 => this.(r14 := v) case R15 => this.(r15 := v)
    }
  }

  datatype Instr =
    | Mov(dst: Reg, src: Reg)                // full-width register copy
    | MovL(dst: Reg, src: Reg)               // 32-bit copy, the upper half becomes zero
    | Lea(dst: Reg, base: Reg, disp: int)
    | Load(dst: Reg, base: Reg, disp: int)
    | Store(base: Reg, disp: int, src: Reg)
    | Push(base: Reg, disp: int)             // push a word of memory
    | Pop(base: Reg, disp: int)              // pop into a word of memory
    | TestL(src: Reg)                        // 32-bit test of a register with itself
    | ZeroL(dst: Reg)                        // 32-bit xor of a register with itself
    | FlipL(dst: Reg)                        // 32-bit xor with the constant one
    | Jnz(target: int)
    | Jmp(target: int)
    | JmpR(src: Reg)
    | Call(target: int)
    | Ret

  type Memory = map<int, int>

  datatype State = State(pc: int, regs: Regs, mem: Memory, zf: bool, ok: bool, mapped: set<int>)

  function Bytes(w: Width): int {
    if w.W32? then 4 else 8
  }

  function Modulus(w: Width): int {
    if w.W32? then 0x1_0000_0000 else 0x1_0000_0000_0000_0000
  }

  // Address arithmetic modulo the word size; one addition leaves the range at most once.
  function Wrap(w: Width, v: int): int {
    if v < 0 then v + Modulus(w) else if v < Modulus(w) then v else v - Modulus(w)
  }

  function Low32(v: int): int {
    v % 0x1_0000_0000
  }

  function Xor1(v: int): int {
    if v % 2 == 0 then v + 1 else v - 1
  }

  function At(m: Memory, a: int): int {
    if a in m then m[a] else 0
  }

  function Ea(w: Width, s: State, base: Reg, disp: int): int {
    Wrap(w, s.regs.Get(base) + disp)
  }

  predicate Straight(i: Instr) {
    !i.Jnz? && !i.Jmp? && !i.JmpR? && !i.Call? && !i.Ret?
  }

  function Exec(w: Width, i: Instr, s: State): State {
    match i
    case Mov(d, r) =>
      State(s.pc + 1, s.regs.Set(d, s.regs.Get(r)), s.mem, s.zf, s.ok, s.mapped)
    case MovL(d, r) =>
      State(s.pc + 1, s.regs.Set(d, Low32(s.regs.Get(r))), s.mem, s.zf, s.ok, s.mapped)
    case Lea(d, b, disp) =>
      State(s.pc + 1, s.regs.Set(d, Ea(w, s, b, disp)), s.mem, s.zf, s.ok, s.mapped)
    case Load(d, b, disp) =>
      var a := Ea(w, s, b, disp);
      State(s.pc + 1, s.regs.Set(d, At(s.mem, a)), s.mem, s.zf, s.ok && a in s.mapped, s.mapped)
    case Store(b, disp, r) =>
      var a := Ea(w, s, b, disp);
      State(s.pc + 1, s.regs, s.mem[a := s.regs.Get(r)], s.zf, s.ok && a in s.mapped, s.mapped)
    case Push(b, disp) =>
      var a := Ea(w, s, b, disp);
      var top := Wrap(w, s.regs.sp - Bytes(w));
      State(s.pc + 1, s.regs.(sp := top), s.mem[top := At(s.mem, a)], s.zf,
            s.ok && a in s.mapped && top in s.mapped, s.mapped)
    case Pop(b, disp) =>
      // the destination address is computed after the stack pointer moved
      var regs := s.regs.(sp := Wrap(w, s.regs.sp + Bytes(w)));
      var a := Wrap(w, regs.Get(b) + disp);
      State(s.pc + 1, regs, s.mem[a := At(s.mem, s.regs.sp)], s.zf,
            s.ok && a in s.mapped && s.regs.sp in s.mapped, s.mapped)
    case TestL(r) =>
      State(s.pc + 1, s.regs, s.mem, Low32(s.regs.Get(r)) == 0, s.ok, s.mapped)
    case ZeroL(d) =>
      State(s.pc + 1, s.regs.Set(d, 0), s.mem, true, s.ok, s.mapped)
    case FlipL(d) =>
      var v := Xor1(Low32(s.regs.Get(d)));
      State(s.pc + 1, s.regs.Set(d, v), s.mem, v == 0, s.ok, s.mapped)
    case Jnz(target) =>
      State(if s.zf then s.pc + 1 else target, s.regs, s.mem, s.zf, s.ok, s.mapped)
    case Jmp(target) =>
      State(target, s.regs, s.mem, s.zf, s.ok, s.mapped)
    case JmpR(r) =>
      State(s.regs.Get(r), s.regs, s.mem, s.zf, s.ok, s.mapped)
    case Call(target) =>
      var top := Wrap(w, s.regs.sp - Bytes(w));
      State(target, s.regs.(sp := top), s.mem[top := s.pc + 1], s.zf,
            s.ok && top in s.mapped, s.mapped)
    case Ret =>
      State(At(s.mem, s.regs.sp), s.regs.(sp := Wrap(w, s.regs.sp + Bytes(w))), s.mem, s.zf,
            s.ok && s.regs.sp in s.mapped, s.mapped)
  }
}
