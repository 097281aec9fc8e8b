/** The assembly routines as numbered lines of code, and the fetch-execute cycle over them. */
module JumpCode {
  import opened Machine

  datatype Routine = Setjmp | Longjmp | Sigsetjmp | SyscallCp | Syscall

  datatype Fetched = Nothing | Line(instr: Instr)

  /** Where the routines are loaded, and the foreign code they jump to: the tail of
      sigsetjmp, the syscall dispatcher and the cancellation handler. */
  datatype Image = Image(width: Width, setjmp: int, longjmp: int, sigsetjmp: int, syscallCp: int,
                         syscall: int, tail: int, dispatcher: int, cancel: int)

  function Base(img: Image, r: Routine): int {
    match r
    case Setjmp => img.setjmp
    case Longjmp => img.longjmp
    case Sigsetjmp => img.sigsetjmp
    case SyscallCp => img.syscallCp
    case Syscall => img.syscall
  }

  function Size(w: Width, r: Routine): int {
    match r
    case Setjmp => if w.W64? then 13 else 11
    case Longjmp => if w.W64? then 15 else 12
    case Sigsetjmp => if w.W64? then 12 else 14
    case SyscallCp => if w.W64? then 16 else 0   // the nt32 routine is not part of this model
    case Syscall => 1
  }

  predicate Within(img: Image, r: Routine, pc: int) {
    Base(img, r) <= pc < Base(img, r) + Size(img.width, r)
  }

  predicate Apart(img: Image, r: Routine, q: Routine) {
    || Base(img, r) + Size(img.width, r) <= Base(img, q)
    || Base(img, q) + Size(img.width, q) <= Base(img, r)
  }

  // The routines do not overlap one another.
  predicate Loaded(img: Image) {
    && Apart(img, Setjmp, Longjmp) && Apart(img, Setjmp, Sigsetjmp)
    && Apart(img, Setjmp, SyscallCp) && Apart(img, Setjmp, Syscall)
    && Apart(img, Longjmp, Sigsetjmp) && Apart(img, Longjmp, SyscallCp)
    && Apart(img, Longjmp, Syscall) && Apart(img, Sigsetjmp, SyscallCp)
    && Apart(img, Sigsetjmp, Syscall) && Apart(img, SyscallCp, Syscall)
  }

  function Setjmp64(k: int): Fetched {
    match k
    case 0 => Line(Pop(CX, 0))
    case 1 => Line(Store(CX, 0x08, SP))
    case 2 => Line(Push(CX, 0))
    case 3 => Line(Store(CX, 0x10, BX))
    case 4 => Line(Store(CX, 0x18, BP))
    case 5 => Line(Store(CX, 0x20, DI))
    case 6 => Line(Store(CX, 0x28, SI))
    case 7 => Line(Store(CX, 0x30, R12))
    case 8 => Line(Store(CX, 0x38, R13))
    case 9 => Line(Store(CX, 0x40, R14))
    case 10 => Line(Store(CX, 0x48, R15))
    case 11 => Line(ZeroL(AX))
    case 12 => Line(Ret)
    case _ => Nothing
  }

  function Longjmp64(at: int, k: int): Fetched {
    match k
    case 0 => Line(TestL(DX))
    case 1 => Line(Jnz(at + 3))
    case 2 => Line(FlipL(DX))
    case 3 => Line(MovL(AX, DX))
    case 4 => Line(Load(BX, CX, 0x10))
    case 5 => Line(Load(BP, CX, 0x18))
    case 6 => Line(Load(DI, CX, 0x20))
    case 7 => Line(Load(SI, CX, 0x28))
    case 8 => Line(Load(R12, CX, 0x30))
    case 9 => Line(Load(R13, CX, 0x38))
    case 10 => Line(Load(R14, CX, 0x40))
    case 11 => Line(Load(R15, CX, 0x48))
    case 12 => Line(Load(SP, CX, 0x08))
    case 13 => Line(Load(DX, CX, 0))
    case 14 => Line(JmpR(DX))
    case _ => Nothing
  }

  function Sigsetjmp64(at: int, setjmp: int, tail: int, k: int): Fetched {
    match k
    case 0 => Line(TestL(DX))
    case 1 => Line(Jnz(at + 3))
    case 2 => Line(Jmp(setjmp))
    case 3 => Line(Pop(CX, 0x68))
    case 4 => Line(Store(CX, 0x70, BX))
    case 5 => Line(Mov(BX, CX))
    case 6 => Line(Call(setjmp))
    case 7 => Line(Push(BX, 0x68))
    case 8 => Line(Mov(CX, BX))
    case 9 => Line(MovL(DX, AX))
    case 10 => Line(Load(BX, CX, 0x70))
    case 11 => Line(Jmp(tail))
    case _ => Nothing
  }

  function SyscallCp64(at: int, syscall: int, cancel: int, k: int): Fetched {
    match k
    case 0 => Line(Load(CX, CX, 0))
    case 1 => Line(TestL(CX))
    case 2 => Line(Jnz(at + 15))
    case 3 => Line(Mov(CX, DX))
    case 4 => Line(Mov(DX, R8))
    case 5 => Line(Mov(R8, R9))
    case 6 => Line(Load(R9, SP, 0x28))
    case 7 => Line(Load(AX, SP, 0x30))
    case 8 => Line(Store(SP, 0x28, AX))
    case 9 => Line(Load(R10, SP, 0x38))
    case 10 => Line(Store(SP, 0x30, R10))
    case 11 => Line(Load(R10, SP, 0x40))
    case 12 => Line(Store(SP, 0x38, R10))
    case 13 => Line(Jmp(syscall))
    case 14 => Line(Ret)
    case 15 => Line(Jmp(cancel))
    case _ => Nothing
  }

  function Setjmp32(k: int): Fetched {
    match k
    case 0 => Line(Load(DX, SP, 4))
    case 1 => Line(Load(AX, SP, 0))
    case 2 => Line(Store(DX, 0, AX))
    case 3 => Line(Lea(CX, SP, 4))
    case 4 => Line(Store(DX, 4, CX))
    case 5 => Line(Store(DX, 8, BX))
    case 6 => Line(Store(DX, 12, BP))
    case 7 => Line(Store(DX, 16, DI))
    case 8 => Line(Store(DX, 20, SI))
    case 9 => Line(ZeroL(AX))
    case 10 => Line(Ret)
    case _ => Nothing
  }

  function Longjmp32(at: int, k: int): Fetched {
    match k
    case 0 => Line(Load(CX, SP, 4))
    case 1 => Line(Load(AX, SP, 8))
    case 2 => Line(TestL(AX))
    case 3 => Line(Jnz(at + 5))
    case 4 => Line(FlipL(AX))
    case 5 => Line(Load(SI, CX, 20))
    case 6 => Line(Load(DI, CX, 16))
    case 7 => Line(Load(BP, CX, 12))
    case 8 => Line(Load(BX, CX, 8))
    case 9 => Line(Load(SP, CX, 4))
    case 10 => Line(Load(DX, CX, 0))
    case 11 => Line(JmpR(DX))
    case _ => Nothing
  }

  function Sigsetjmp32(at: int, setjmp: int, tail: int, k: int): Fetched {
    match k
    case 0 => Line(Load(DX, SP, 8))
    case 1 => Line(TestL(DX))
    case 2 => Line(Jnz(at + 4))
    case 3 => Line(Jmp(setjmp))
    case 4 => Line(Load(CX, SP, 4))
    case 5 => Line(Pop(CX, 36))
    case 6 => Line(Store(CX, 40, BX))
    case 7 => Line(Mov(BX, CX))
    case 8 => Line(Call(setjmp))
    case 9 => Line(Push(BX, 36))
    case 10 => Line(Store(SP, 4, BX))
    case 11 => Line(Store(SP, 8, AX))
    case 12 => Line(Load(BX, BX, 40))
    case 13 => Line(Jmp(tail))
    case _ => Nothing
  }

  function CodeLine(img: Image, r: Routine, k: int): Fetched {
    match r
    case Setjmp => if img.width.W64? then Setjmp64(k) else Setjmp32(k)
    case Longjmp => if img.width.W64? then Longjmp64(img.longjmp, k) else Longjmp32(img.longjmp, k)
    case Sigsetjmp =>
      if img.width.W64? then Sigsetjmp64(img.sigsetjmp, img.setjmp, img.tail, k)
      else Sigsetjmp32(img.sigsetjmp, img.setjmp, img.tail, k)
    case SyscallCp =>
      if img.width.W64? then SyscallCp64(img.syscallCp, img.syscall, img.cancel, k) else Nothing
    case Syscall => if k == 0 then Line(Jmp(img.dispatcher)) else Nothing
  }

  function Fetch(img: Image, pc: int): Fetched {
    if Within(img, Setjmp, pc) then CodeLine(img, Setjmp, pc - img.setjmp)
    else if Within(img, Longjmp, pc) then CodeLine(img, Longjmp, pc - img.longjmp)
    else if Within(img, Sigsetjmp, pc) then CodeLine(img, Sigsetjmp, pc - img.sigsetjmp)
    else if Within(img, SyscallCp, pc) then CodeLine(img, SyscallCp, pc - img.syscallCp)
    else if Within(img, Syscall, pc) then CodeLine(img, Syscall, pc - img.syscall)
    else Nothing
  }

  // Code outside the image is foreign, and the machine rests there.
  function ExecLine(w: Width, f: Fetched, s: State): State {
    match f
    case Nothing => s
    case Line(i) => Exec(w, i, s)
  }

  function Step(img: Image, s: State): State {
    ExecLine(img.width, Fetch(img, s.pc), s)
  }

  function Run(img: Image, s: State, n: nat): State
    decreases n
  {
    if n == 0 then s else Run(img, Step(img, s), n - 1)
  }

  lemma {:induction false} RunAdd(img: Image, s: State, m: nat, n: nat)
    ensures Run(img, s, m + n) == Run(img, Run(img, s, m), n)
    decreases m
  {
    hide Step;
    if m > 0 {
      RunAdd(img, Step(img, s), m - 1, n);
    }
  }

  lemma FetchLine(img: Image, r: Routine, k: int)
    requires Loaded(img) && 0 <= k < Size(img.width, r)
    ensures Fetch(img, Base(img, r) + k) == CodeLine(img, r, k)
  {
    hide CodeLine;
    match r {
      case Setjmp =>
      case Longjmp =>
      case Sigsetjmp =>
      case SyscallCp =>
      case Syscall =>
    }
  }

  predicate Reads(img: Image, r: Routine, k: int, i: Instr) {
    0 <= k < Size(img.width, r) && CodeLine(img, r, k) == Line(i)
  }

  predicate AtLine(img: Image, r: Routine, k: int, s: State) {
    Loaded(img) && s.pc == Base(img, r) + k
  }

  lemma StraightPc(w: Width, i: Instr, s: State)
    requires Straight(i)
    ensures Exec(w, i, s).pc == s.pc + 1
  {}

  lemma Then(img: Image, r: Routine, k: int, s: State, i: Instr, n: nat)
    requires AtLine(img, r, k, s) && Reads(img, r, k, i)
    ensures Run(img, s, n + 1) == Run(img, Exec(img.width, i, s), n)
    ensures Straight(i) ==> AtLine(img, r, k + 1, Exec(img.width, i, s))
  {
    hide Exec, CodeLine, Loaded;
    if Straight(i) {
      StraightPc(img.width, i, s);
    }
    FetchLine(img, r, k);
    hide Fetch;
  }

  // The first n instructions of a piece of code, one after another.
  function Execs(w: Width, code: seq<Instr>, n: nat, s: State): State
    requires n <= |code|
    decreases n
  {
    if n == 0 then s else Exec(w, code[n - 1], Execs(w, code, n - 1, s))
  }

  // A routine holds this code from its line k on, and nothing but the last instruction jumps.
  ghost predicate Lines(img: Image, r: Routine, k: nat, code: seq<Instr>) {
    forall i :: 0 <= i < |code| ==> Reads(img, r, k + i, code[i]) && (i + 1 < |code| ==> Straight(code[i]))
  }

  // The machine follows the lines of a routine.
  lemma {:induction false} Follow(img: Image, r: Routine, k: nat, s: State, code: seq<Instr>, n: nat)
    requires AtLine(img, r, k, s) && Lines(img, r, k, code) && n <= |code|
    ensures Run(img, s, n) == Execs(img.width, code, n, s)
    ensures n < |code| ==> AtLine(img, r, k + n, Execs(img.width, code, n, s))
    decreases n
  {
    hide Exec, Loaded, Fetch, CodeLine, Step;
    if n > 0 {
      Follow(img, r, k, s, code, n - 1);
      assert Reads(img, r, k + (n - 1), code[n - 1]);
      Then(img, r, k + n - 1, Execs(img.width, code, n - 1, s), code[n - 1], 0);
      RunAdd(img, s, n - 1, 1);
    }
  }
}
