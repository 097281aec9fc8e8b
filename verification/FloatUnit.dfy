/** The part of an x86-64 machine that the floating-point environment routines use: the
    x87 environment, MXCSR, four general registers and a memory of 32-bit cells.  Each
    instruction is a function from one machine state to the next.

    Addresses are integers; every access of the routines is to a multiple of four.
    `mapped` holds the cells the program may touch: an access elsewhere, or a load of a
    reserved bit into MXCSR, is a fault, which clears `ok` for good. */
module FloatUnit {
  import opened Bits

  // A 64-bit register or memory word as two halves.
  datatype Word = Word(hi: bv32, lo: bv32)

  datatype Reg = AX | CX | DX | R10

  /** The x87 environment.  `status` leaves out the two summary bits (7 and 15), which the
      unit derives from the exception flags and masks whenever the word is read. */
  datatype X87 = X87(control: bv16, status: bv16, tags: bv16, ip: bv32, cs: bv16, opcode: bv16,
                     dp: bv32, ds: bv16)

  datatype Hardware = Hardware(x87: X87, mxcsr: bv32)

  type Memory = map<int, bv32>

  datatype State = State(ax: Word, cx: Word, dx: Word, r10: Word, sp: int, zf: bool,
                         hw: Hardware, mem: Memory, ret: Word, ok: bool, mapped: set<int>)

  const SUMMARY: bv16 := 0x8080
  const FLAGS: bv16 := 0x3F

  function Get(s: State, r: Reg): Word {
    match r
    case AX => s.ax
    case CX => s.cx
    case DX => s.dx
    case R10 => s.r10
  }

  function Set(s: State, r: Reg, v: Word): State {
    match r
    case AX => s.(ax := v)
    case CX => s.(cx := v)
    case DX => s.(dx := v)
    case R10 => s.(r10 := v)
  }

  function Address(w: Word): int {
    w.hi as int * 0x1_0000_0000 + w.lo as int
  }

  function At(m: Memory, a: int): bv32 {
    if a in m then m[a] else 0
  }

  function Poke(s: State, a: int, v: bv32): State {
    s.(mem := s.mem[a := v], ok := s.ok && a in s.mapped)
  }

  // The status word as it is read.
  function StatusWord(x: X87): bv16 {
    if x.status & FLAGS & !x.control != 0 then x.status | SUMMARY else x.status
  }

  // ---- general instructions; 32-bit ones clear the upper half of their destination

  function Result(s: State, d: Reg, v: bv32): State {
    Set(s, d, Word(0, v)).(zf := v == 0)
  }

  function ResultQ(s: State, d: Reg, v: Word): State {
    Set(s, d, v).(zf := v == Word(0, 0))
  }

  function AndI(s: State, d: Reg, imm: bv32): State {
    Result(s, d, Band(Get(s, d).lo, imm))
  }

  // 64-bit, with an immediate that is sign-extended from 32 bits
  function AndQ(s: State, d: Reg, imm: bv32): State {
    var high: bv32 := if imm & 0x8000_0000 != 0 then 0xFFFF_FFFF else 0;
    ResultQ(s, d, Word(Get(s, d).hi & high, Get(s, d).lo & imm))
  }

  function And(s: State, d: Reg, r: Reg): State {
    Result(s, d, Band(Get(s, d).lo, Get(s, r).lo))
  }

  function Or(s: State, d: Reg, r: Reg): State {
    Result(s, d, Bor(Get(s, d).lo, Get(s, r).lo))
  }

  function Not(s: State, d: Reg): State {
    Set(s, d, Word(0, Bnot(Get(s, d).lo)))
  }

  function Clear(s: State, d: Reg): State {
    Result(s, d, 0)
  }

  function Test(s: State, a: Reg, b: Reg): State {
    s.(zf := Band(Get(s, a).lo, Get(s, b).lo) == 0)
  }

  function Shl(s: State, d: Reg): State {
    Result(s, d, Bshl3(Get(s, d).lo))
  }

  // 64-bit shift right by three
  function ShrQ(s: State, d: Reg): State {
    var w := Get(s, d);
    ResultQ(s, d, Word(w.hi >> 3, (w.lo >> 3) | (w.hi << 29)))
  }

  // 64-bit comparison with minus one
  function CmpQ(s: State, r: Reg): State {
    s.(zf := Get(s, r) == Word(0xFFFF_FFFF, 0xFFFF_FFFF))
  }

  // ---- stack and memory

  function Push(s: State, r: Reg): State {
    s.(sp := s.sp - 8, mem := s.mem[s.sp - 8 := Get(s, r).lo][s.sp - 4 := Get(s, r).hi],
       ok := s.ok && s.sp - 8 in s.mapped && s.sp - 4 in s.mapped)
  }

  function Pop(s: State, d: Reg): State {
    Set(s.(sp := s.sp + 8, ok := s.ok && s.sp in s.mapped && s.sp + 4 in s.mapped),
        d, Word(At(s.mem, s.sp + 4), At(s.mem, s.sp)))
  }

  function Ret(s: State): State {
    s.(sp := s.sp + 8, ret := Word(At(s.mem, s.sp + 4), At(s.mem, s.sp)),
       ok := s.ok && s.sp in s.mapped && s.sp + 4 in s.mapped)
  }

  function MoveSp(s: State, delta: int): State {
    s.(sp := s.sp + delta, zf := s.sp + delta == 0)
  }

  function OrM(s: State, a: int, r: Reg): State {
    Poke(s, a, Bor(At(s.mem, a), Get(s, r).lo)).(zf := Bor(At(s.mem, a), Get(s, r).lo) == 0)
  }

  // 16-bit, on the low half of a cell
  function AndWM(s: State, a: int, imm: bv16): State {
    Poke(s, a, WithLow(At(s.mem, a), Low16(At(s.mem, a)) & imm))
      .(zf := Low16(At(s.mem, a)) & imm == 0)
  }

  // 64-bit store of a non-negative immediate
  function MovQ(s: State, a: int, imm: bv32): State {
    Poke(Poke(s, a, imm), a + 4, 0)
  }

  // ---- control and status registers

  function Stmxcsr(s: State, a: int): State {
    Poke(s, a, s.hw.mxcsr)
  }

  function Ldmxcsr(s: State, a: int): State {
    s.(hw := s.hw.(mxcsr := At(s.mem, a)),
       ok := s.ok && a in s.mapped && NoReserved(At(s.mem, a)))
  }

  function FnstswAx(s: State): State {
    s.(ax := Word(s.ax.hi, WithLow(s.ax.lo, StatusWord(s.hw.x87))))
  }

  function Fnclex(s: State): State {
    s.(hw := s.hw.(x87 := s.hw.x87.(status := s.hw.x87.status & 0x7F00)))
  }

  function Fnstcw(s: State, a: int): State {
    Poke(s, a, WithLow(At(s.mem, a), s.hw.x87.control))
  }

  function Fldcw(s: State, a: int): State {
    s.(hw := s.hw.(x87 := s.hw.x87.(control := Low16(At(s.mem, a)))),
       ok := s.ok && a in s.mapped)
  }

  // The 28-byte environment image.
  function StoreEnv(m: Memory, a: int, x: X87): Memory {
    m[a := Reserved(x.control)][a + 4 := Reserved(StatusWord(x))][a + 8 := Reserved(x.tags)]
     [a + 12 := x.ip][a + 16 := Pair(x.cs, x.opcode)]
     [a + 20 := x.dp][a + 24 := Reserved(x.ds)]
  }

  function LoadEnv(m: Memory, a: int): X87 {
    X87(Low16(At(m, a)), Low16(At(m, a + 4)) & !SUMMARY, Low16(At(m, a + 8)),
        At(m, a + 12), Low16(At(m, a + 16)), High16(At(m, a + 16)) & 0x7FF,
        At(m, a + 20), Low16(At(m, a + 24)))
  }

  predicate EnvMapped(mapped: set<int>, a: int) {
    && a in mapped && a + 4 in mapped && a + 8 in mapped && a + 12 in mapped
    && a + 16 in mapped && a + 20 in mapped && a + 24 in mapped
  }

  // Stores the image, then masks all x87 exceptions.
  function Fnstenv(s: State, a: int): State {
    s.(hw := s.hw.(x87 := s.hw.x87.(control := s.hw.x87.control | FLAGS)),
       mem := StoreEnv(s.mem, a, s.hw.x87), ok := s.ok && EnvMapped(s.mapped, a))
  }

  function Fldenv(s: State, a: int): State {
    s.(hw := s.hw.(x87 := LoadEnv(s.mem, a)), ok := s.ok && EnvMapped(s.mapped, a))
  }
}
