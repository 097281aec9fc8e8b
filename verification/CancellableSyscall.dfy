/** The cancellable system call of nt64: an eight-argument call becomes, in place, a
    seven-argument tail call, which ends in the system call table. */
module CancellableSyscall {
  import opened Machine
  import opened JumpCode

  // The k-th argument of a call under the Windows x64 convention, read at its entry.
  function Arg(s: State, k: nat): int {
    match k
    case 0 => s.regs.cx
    case 1 => s.regs.dx
    case 2 => s.regs.r8
    case 3 => s.regs.r9
    case _ => At(s.mem, s.regs.sp + 8 + 8 * k)
  }

  // The stack arguments of the eight-argument call.
  predicate Area(s: State) {
    && s.ok && 0 <= s.regs.sp && s.regs.sp + 0x48 < Modulus(W64)
    && s.regs.sp + 0x28 in s.mapped && s.regs.sp + 0x30 in s.mapped
    && s.regs.sp + 0x38 in s.mapped && s.regs.sp + 0x40 in s.mapped
  }

  predicate Entered(img: Image, s: State) {
    && img.width.W64? && Loaded(img) && s.pc == img.syscallCp
    && Area(s) && 0 <= s.regs.cx < Modulus(W64) && s.regs.cx in s.mapped
  }

  predicate InArea(s: State, a: int) {
    a == s.regs.sp + 0x28 || a == s.regs.sp + 0x30 || a == s.regs.sp + 0x38
  }

  lemma Test(img: Image, s: State)
    requires Entered(img, s)
    ensures
      var word := At(s.mem, s.regs.cx);
      Run(img, s, 3) ==
        s.(pc := if Low32(word) == 0 then s.pc + 3 else img.syscallCp + 15,
           regs := s.regs.(cx := word), zf := Low32(word) == 0)
  {
    hide Run, Loaded, Low32;
    var s1 := Exec(W64, Load(CX, CX, 0), s);
    var s2 := Exec(W64, TestL(CX), s1);
    assert Run(img, s, 3) == Exec(W64, Jnz(img.syscallCp + 15), s2) by {
      hide Exec, At, Wrap;
      Follow(img, SyscallCp, 0, s, [Load(CX, CX, 0), TestL(CX), Jnz(img.syscallCp + 15)], 3);
    }
    hide Execs, Fetch, Step, CodeLine;
  }

  lemma Registers(img: Image, s: State)
    requires img.width.W64? && Loaded(img) && Area(s) && s.pc == img.syscallCp + 3
    ensures
      Run(img, s, 4) ==
        s.(pc := s.pc + 4,
           regs := s.regs.(cx := s.regs.dx, dx := s.regs.r8, r8 := s.regs.r9,
                           r9 := At(s.mem, s.regs.sp + 0x28)))
  {
    hide Run, Loaded;
    var s1 := Exec(W64, Mov(CX, DX), s);
    var s2 := Exec(W64, Mov(DX, R8), s1);
    var s3 := Exec(W64, Mov(R8, R9), s2);
    assert Run(img, s, 4) == Exec(W64, Load(R9, SP, 0x28), s3) by {
      hide Exec, At, Wrap, Low32;
      Follow(img, SyscallCp, 3, s, [Mov(CX, DX), Mov(DX, R8), Mov(R8, R9), Load(R9, SP, 0x28)], 4);
    }
    hide Execs, Fetch, Step, CodeLine;
  }

  lemma FirstSlot(img: Image, s: State)
    requires img.width.W64? && Loaded(img) && Area(s) && s.pc == img.syscallCp + 7
    ensures
      var word := At(s.mem, s.regs.sp + 0x30);
      Run(img, s, 2) ==
        s.(pc := s.pc + 2, regs := s.regs.(ax := word), mem := s.mem[s.regs.sp + 0x28 := word])
  {
    hide Run, Loaded;
    var s1 := Exec(W64, Load(AX, SP, 0x30), s);
    assert Run(img, s, 2) == Exec(W64, Store(SP, 0x28, AX), s1) by {
      hide Exec, At, Wrap, Low32;
      Follow(img, SyscallCp, 7, s, [Load(AX, SP, 0x30), Store(SP, 0x28, AX)], 2);
    }
    hide Execs, Fetch, Step, CodeLine;
  }

  lemma LastSlots(img: Image, s: State)
    requires img.width.W64? && Loaded(img) && Area(s) && s.pc == img.syscallCp + 9
    ensures
      var sp, next, last := s.regs.sp, At(s.mem, s.regs.sp + 0x38), At(s.mem, s.regs.sp + 0x40);
      Run(img, s, 4) ==
        s.(pc := s.pc + 4, regs := s.regs.(r10 := last),
           mem := s.mem[sp + 0x30 := next][sp + 0x38 := last])
  {
    hide Run, Loaded;
    var s1 := Exec(W64, Load(R10, SP, 0x38), s);
    var s2 := Exec(W64, Store(SP, 0x30, R10), s1);
    var s3 := Exec(W64, Load(R10, SP, 0x40), s2);
    assert Run(img, s, 4) == Exec(W64, Store(SP, 0x38, R10), s3) by {
      hide Exec, At, Wrap, Low32;
      Follow(img, SyscallCp, 9, s,
             [Load(R10, SP, 0x38), Store(SP, 0x30, R10), Load(R10, SP, 0x40), Store(SP, 0x38, R10)], 4);
    }
    hide Execs, Fetch, Step, CodeLine;
  }

  // The two tail jumps, of the routine and of the system call stub.
  lemma TailJumps(img: Image, s: State)
    requires img.width.W64? && Loaded(img) && s.pc == img.syscallCp + 13
    ensures Run(img, s, 2) == s.(pc := img.dispatcher)
  {
    Follow(img, SyscallCp, 13, s, [Jmp(img.syscall)], 1);
    hide Run, Loaded;
    var t := Run(img, s, 1);
    Follow(img, Syscall, 0, t, [Jmp(img.dispatcher)], 1);
    RunAdd(img, s, 1, 1);
  }

  // Every argument but the first moved one place down; nothing else moved.
  ghost predicate Shifted(s: State, t: State) {
    && t.ok && t.regs.sp == s.regs.sp
    && (forall k: nat :: k < 7 ==> Arg(t, k) == Arg(s, k + 1))
    && (forall a :: !InArea(s, a) ==> At(t.mem, a) == At(s.mem, a))
  }

  lemma Shift(img: Image, s: State)
    requires img.width.W64? && Loaded(img) && Area(s) && s.pc == img.syscallCp + 3
    ensures
      var t := Run(img, s, 10);
      && t.pc == s.pc + 10 && t.ok && t.regs.sp == s.regs.sp
      && t.regs.cx == s.regs.dx && t.regs.dx == s.regs.r8 && t.regs.r8 == s.regs.r9
      && t.regs.r9 == At(s.mem, s.regs.sp + 0x28)
      && t.mem == s.mem[s.regs.sp + 0x28 := At(s.mem, s.regs.sp + 0x30)]
                       [s.regs.sp + 0x30 := At(s.mem, s.regs.sp + 0x38)]
                       [s.regs.sp + 0x38 := At(s.mem, s.regs.sp + 0x40)]
  {
    hide Run, Loaded;
    Registers(img, s);
    FirstSlot(img, Run(img, s, 4));
    RunAdd(img, s, 4, 2);
    LastSlots(img, Run(img, s, 6));
    RunAdd(img, s, 6, 4);
  }

  lemma LowHalf(low: int, high: int)
    requires 0 <= low < 0x1_0000_0000
    ensures Low32(low + 0x1_0000_0000 * high) == low
  {}

  /** The word behind the first argument is a 32-bit flag and the 32 bits above it.  With a
      zero flag, whatever is above, the call reaches the dispatcher with the number and the six
      arguments it was given, its return address untouched. */
  lemma CallReachesDispatcher(img: Image, s: State, above: int)
    requires Entered(img, s) && At(s.mem, s.regs.cx) == 0x1_0000_0000 * above
    ensures
      var t := Run(img, s, 15);
      && t.pc == img.dispatcher && Shifted(s, t)
      && At(t.mem, t.regs.sp) == At(s.mem, s.regs.sp)
    ensures
      var t, sp := Run(img, s, 15), s.regs.sp;
      && t.regs.cx == s.regs.dx && t.regs.dx == s.regs.r8 && t.regs.r8 == s.regs.r9
      && t.regs.r9 == At(s.mem, sp + 0x28) && At(t.mem, sp + 0x28) == At(s.mem, sp + 0x30)
      && At(t.mem, sp + 0x30) == At(s.mem, sp + 0x38) && At(t.mem, sp + 0x38) == At(s.mem, sp + 0x40)
  {
    hide Run, Loaded;
    LowHalf(0, above);
    hide Low32;
    Test(img, s);
    var t := Run(img, s, 3);
    Shift(img, t);
    RunAdd(img, s, 3, 10);
    TailJumps(img, Run(img, s, 13));
    RunAdd(img, s, 13, 2);
    var u := Run(img, s, 15);
    forall k: nat | k < 7
      ensures Arg(u, k) == Arg(s, k + 1)
    {
      if k >= 4 {
        assert k == 4 || k == 5 || k == 6;
      }
    }
  }

  /** With a nonzero flag the handler is entered in the caller's frame, with memory as it was. */
  lemma PendingCancelIsTaken(img: Image, s: State, flag: int, above: int)
    requires Entered(img, s) && At(s.mem, s.regs.cx) == flag + 0x1_0000_0000 * above
    requires 0 < flag < 0x1_0000_0000
    ensures
      var t := Run(img, s, 4);
      t.pc == img.cancel && t.ok && t.mem == s.mem && t.regs == s.regs.(cx := At(s.mem, s.regs.cx))
  {
    hide Run, Loaded;
    LowHalf(flag, above);
    hide Low32;
    Test(img, s);
    var t := Run(img, s, 3);
    Follow(img, SyscallCp, 15, t, [Jmp(img.cancel)], 1);
    RunAdd(img, s, 3, 1);
  }

  const ENOSYS := 38

  // The vector of entry points; zero stands for an unimplemented call.
  type Table = int -> int

  // What an entry point returns for six arguments.
  type Entries = (int, seq<int>) -> int

  datatype Reply = Called(entry: int, args: seq<int>, result: int) | Unimplemented(result: int)

  // __syscall6, the table lookup; __syscall_alert logs and returns -ENOSYS.
  function Syscall6(table: Table, entries: Entries, n: int, args: seq<int>): Reply {
    var entry := table(n);
    if entry != 0 then Called(entry, args, entries(entry, args)) else Unimplemented(-ENOSYS)
  }

  // __syscall_disp passes on the seven words it is called with, and the result.
  function SyscallDisp(table: Table, entries: Entries, s: State): Reply {
    Syscall6(table, entries, Arg(s, 0), [Arg(s, 1), Arg(s, 2), Arg(s, 3), Arg(s, 4), Arg(s, 5), Arg(s, 6)])
  }

  /** What a cancellable call comes to: the handler, a reply that goes back to an address, or
      code that is neither the handler nor the dispatcher. */
  datatype Outcome = Cancelled | Replied(reply: Reply, back: int) | Lost(pc: int)

  // Where the machine is after as many steps as the longest way through the routine takes;
  // it rests where it leaves the code of this image.
  function Ending(img: Image, table: Table, entries: Entries, s: State): Outcome {
    var t := Run(img, s, 15);
    if t.pc == img.cancel then Cancelled
    else if t.pc == img.dispatcher then Replied(SyscallDisp(table, entries, t), At(t.mem, t.regs.sp))
    else Lost(t.pc)
  }

  lemma {:induction false} RestsOutside(img: Image, s: State, n: nat)
    requires Fetch(img, s.pc).Nothing?
    ensures Run(img, s, n) == s
    decreases n
  {
    hide Fetch;
    if n > 0 {
      RestsOutside(img, s, n - 1);
    }
  }

  lemma CancelledEnding(img: Image, s: State, flag: int, above: int)
    requires Entered(img, s) && At(s.mem, s.regs.cx) == flag + 0x1_0000_0000 * above
    requires 0 < flag < 0x1_0000_0000 && Fetch(img, img.cancel).Nothing?
    ensures Run(img, s, 15).pc == img.cancel
  {
    hide Run, Fetch, Loaded, At;
    PendingCancelIsTaken(img, s, flag, above);
    RestsOutside(img, Run(img, s, 4), 11);
    RunAdd(img, s, 4, 11);
  }

  /** The whole call `(ptr, n, a1, ..., a6)`, seen from its entry: the pointer in rcx, the number
      and two arguments in rdx, r8 and r9, and four on the stack.  The handler is foreign code
      other than the dispatcher. */
  lemma CancellableCall(img: Image, table: Table, entries: Entries, s: State, flag: int, above: int)
    requires Entered(img, s) && img.cancel != img.dispatcher && Fetch(img, img.cancel).Nothing?
    requires At(s.mem, s.regs.cx) == flag + 0x1_0000_0000 * above && 0 <= flag < 0x1_0000_0000
    ensures
      var sp, entry := s.regs.sp, table(s.regs.dx);
      var args := [s.regs.r8, s.regs.r9, At(s.mem, sp + 0x28), At(s.mem, sp + 0x30), At(s.mem, sp + 0x38),
                   At(s.mem, sp + 0x40)];
      Ending(img, table, entries, s) ==
        if flag != 0 then Cancelled
        else Replied(if entry != 0 then Called(entry, args, entries(entry, args)) else Unimplemented(-38),
                     At(s.mem, sp))
  {
    hide Run, Fetch, Loaded;
    if flag == 0 {
      CallReachesDispatcher(img, s, above);
      hide Area;
      DispatchedWords(Run(img, s, 15));
    } else {
      CancelledEnding(img, s, flag, above);
    }
  }

  lemma DispatchedWords(t: State)
    ensures Arg(t, 0) == t.regs.cx && Arg(t, 1) == t.regs.dx && Arg(t, 2) == t.regs.r8 && Arg(t, 3) == t.regs.r9
    ensures
      var sp := t.regs.sp;
      Arg(t, 4) == At(t.mem, sp + 0x28) && Arg(t, 5) == At(t.mem, sp + 0x30) && Arg(t, 6) == At(t.mem, sp + 0x38)
  {}
}
