/** What each block of the nt64 routines does to the machine. */
module JumpBlocks64 {
  import opened Machine
  import opened JumpCode

  // The words of a jmp_buf that the routines use, from its address on.
  predicate Buffer(mapped: set<int>, a: int) {
    && 0 <= a && a + 0xD8 < Modulus(W64)
    && a in mapped && a + 0x08 in mapped && a + 0x10 in mapped && a + 0x18 in mapped
    && a + 0x20 in mapped && a + 0x28 in mapped && a + 0x30 in mapped && a + 0x38 in mapped
    && a + 0x40 in mapped && a + 0x48 in mapped && a + 0x68 in mapped && a + 0x70 in mapped
  }

  // The return address of a call.
  predicate Frame(mapped: set<int>, a: int) {
    0 <= a && a + 8 < Modulus(W64) && a in mapped
  }

  predicate Disjoint(buf: int, sp: int) {
    sp + 8 <= buf || buf + 0xD8 <= sp
  }

  lemma SetjmpEnter(img: Image, s: State)
    requires img.width.W64? && Loaded(img) && s.pc == img.setjmp
    requires s.ok && Buffer(s.mapped, s.regs.cx) && Frame(s.mapped, s.regs.sp) && Disjoint(s.regs.cx, s.regs.sp)
    ensures
      var buf, sp, ret := s.regs.cx, s.regs.sp, At(s.mem, s.regs.sp);
      Run(img, s, 3) ==
        s.(pc := s.pc + 3, mem := s.mem[buf := ret][buf + 0x08 := sp + 8][sp := ret])
  {
    hide Run, Loaded;
    var s1 := Exec(W64, Pop(CX, 0), s);
    var s2 := Exec(W64, Store(CX, 0x08, SP), s1);
    assert Run(img, s, 3) == Exec(W64, Push(CX, 0), s2) by {
      hide Exec, At, Wrap, Low32;
      Follow(img, Setjmp, 0, s, [Pop(CX, 0), Store(CX, 0x08, SP), Push(CX, 0)], 3);
    }
    hide Execs, Fetch, Step, CodeLine;
  }

  lemma SetjmpSaveLow(img: Image, s: State)
    requires img.width.W64? && Loaded(img) && s.pc == img.setjmp + 3
    requires s.ok && Buffer(s.mapped, s.regs.cx)
    ensures
      var buf := s.regs.cx;
      Run(img, s, 4) ==
        s.(pc := s.pc + 4, mem := s.mem[buf + 0x10 := s.regs.bx][buf + 0x18 := s.regs.bp]
                                       [buf + 0x20 := s.regs.di][buf + 0x28 := s.regs.si])
  {
    hide Run, Loaded;
    var s1 := Exec(W64, Store(CX, 0x10, BX), s);
    var s2 := Exec(W64, Store(CX, 0x18, BP), s1);
    var s3 := Exec(W64, Store(CX, 0x20, DI), s2);
    assert Run(img, s, 4) == Exec(W64, Store(CX, 0x28, SI), s3) by {
      hide Exec, At, Wrap, Low32;
      Follow(img, Setjmp, 3, s,
             [Store(CX, 0x10, BX), Store(CX, 0x18, BP), Store(CX, 0x20, DI), Store(CX, 0x28, SI)], 4);
    }
    hide Execs, Fetch, Step, CodeLine;
  }

  lemma SetjmpSaveHigh(img: Image, s: State)
    requires img.width.W64? && Loaded(img) && s.pc == img.setjmp + 7
    requires s.ok && Buffer(s.mapped, s.regs.cx)
    ensures
      var buf := s.regs.cx;
      Run(img, s, 4) ==
        s.(pc := s.pc + 4, mem := s.mem[buf + 0x30 := s.regs.r12][buf + 0x38 := s.regs.r13]
                                       [buf + 0x40 := s.regs.r14][buf + 0x48 := s.regs.r15])
  {
    hide Run, Loaded;
    var s1 := Exec(W64, Store(CX, 0x30, R12), s);
    var s2 := Exec(W64, Store(CX, 0x38, R13), s1);
    var s3 := Exec(W64, Store(CX, 0x40, R14), s2);
    assert Run(img, s, 4) == Exec(W64, Store(CX, 0x48, R15), s3) by {
      hide Exec, At, Wrap, Low32;
      Follow(img, Setjmp, 7, s,
             [Store(CX, 0x30, R12), Store(CX, 0x38, R13), Store(CX, 0x40, R14), Store(CX, 0x48, R15)], 4);
    }
    hide Execs, Fetch, Step, CodeLine;
  }

  lemma SetjmpReturn(img: Image, s: State)
    requires img.width.W64? && Loaded(img) && s.pc == img.setjmp + 11
    requires s.ok && Frame(s.mapped, s.regs.sp)
    ensures Run(img, s, 2) ==
      s.(pc := At(s.mem, s.regs.sp), regs := s.regs.(ax := 0, sp := s.regs.sp + 8), zf := true)
  {
    hide Run, Loaded;
    var s1 := Exec(W64, ZeroL(AX), s);
    assert Run(img, s, 2) == Exec(W64, Ret, s1) by {
      hide Exec, At, Wrap, Low32;
      Follow(img, Setjmp, 11, s, [ZeroL(AX), Ret], 2);
    }
    hide Execs, Fetch, Step, CodeLine;
  }

  lemma LongjmpTest(img: Image, s: State)
    requires img.width.W64? && Loaded(img) && s.pc == img.longjmp
    ensures Run(img, s, 2) ==
      s.(pc := if Low32(s.regs.dx) == 0 then s.pc + 2 else img.longjmp + 3, zf := Low32(s.regs.dx) == 0)
  {
    hide Run, Loaded, Low32;
    var s1 := Exec(W64, TestL(DX), s);
    assert Run(img, s, 2) == Exec(W64, Jnz(img.longjmp + 3), s1) by {
      hide Exec, At, Wrap;
      Follow(img, Longjmp, 0, s, [TestL(DX), Jnz(img.longjmp + 3)], 2);
    }
    hide Execs, Fetch, Step, CodeLine;
  }

  lemma SigsetjmpTest(img: Image, s: State)
    requires img.width.W64? && Loaded(img) && s.pc == img.sigsetjmp
    ensures Run(img, s, 2) ==
      s.(pc := if Low32(s.regs.dx) == 0 then s.pc + 2 else img.sigsetjmp + 3, zf := Low32(s.regs.dx) == 0)
  {
    hide Run, Loaded, Low32;
    var s1 := Exec(W64, TestL(DX), s);
    assert Run(img, s, 2) == Exec(W64, Jnz(img.sigsetjmp + 3), s1) by {
      hide Exec, At, Wrap;
      Follow(img, Sigsetjmp, 0, s, [TestL(DX), Jnz(img.sigsetjmp + 3)], 2);
    }
    hide Execs, Fetch, Step, CodeLine;
  }

  lemma LongjmpZeroBecomesOne(img: Image, s: State)
    requires img.width.W64? && Loaded(img) && s.pc == img.longjmp + 2
    requires Low32(s.regs.dx) == 0
    ensures Run(img, s, 2) ==
      s.(pc := s.pc + 2, regs := s.regs.(dx := 1, ax := 1), zf := false)
  {
    hide Run, Loaded;
    var s1 := Exec(W64, FlipL(DX), s);
    assert Run(img, s, 2) == Exec(W64, MovL(AX, DX), s1) by {
      hide Exec, At, Wrap, Low32;
      Follow(img, Longjmp, 2, s, [FlipL(DX), MovL(AX, DX)], 2);
    }
    hide Execs, Fetch, Step, CodeLine;
  }

  lemma LongjmpDeliver(img: Image, s: State)
    requires img.width.W64? && Loaded(img) && s.pc == img.longjmp + 3
    ensures Run(img, s, 1) ==
      s.(pc := s.pc + 1, regs := s.regs.(ax := Low32(s.regs.dx)))
  {
    hide Run, Loaded, Low32;
    assert Run(img, s, 1) == Exec(W64, MovL(AX, DX), s) by {
      hide Exec, At, Wrap;
      Follow(img, Longjmp, 3, s, [MovL(AX, DX)], 1);
    }
    hide Execs, Fetch, Step, CodeLine;
  }

  lemma LongjmpRestoreLow(img: Image, s: State)
    requires img.width.W64? && Loaded(img) && s.pc == img.longjmp + 4
    requires s.ok && Buffer(s.mapped, s.regs.cx)
    ensures
      var buf := s.regs.cx;
      Run(img, s, 4) ==
        s.(pc := s.pc + 4,
           regs := s.regs.(bx := At(s.mem, buf + 0x10), bp := At(s.mem, buf + 0x18),
                           di := At(s.mem, buf + 0x20), si := At(s.mem, buf + 0x28)))
  {
    hide Run, Loaded;
    var s1 := Exec(W64, Load(BX, CX, 0x10), s);
    var s2 := Exec(W64, Load(BP, CX, 0x18), s1);
    var s3 := Exec(W64, Load(DI, CX, 0x20), s2);
    assert Run(img, s, 4) == Exec(W64, Load(SI, CX, 0x28), s3) by {
      hide Exec, At, Wrap, Low32;
      Follow(img, Longjmp, 4, s, [Load(BX, CX, 0x10), Load(BP, CX, 0x18), Load(DI, CX, 0x20), Load(SI, CX, 0x28)], 4);
    }
    hide Execs, Fetch, Step, CodeLine;
  }

  lemma LongjmpRestoreHigh(img: Image, s: State)
    requires img.width.W64? && Loaded(img) && s.pc == img.longjmp + 8
    requires s.ok && Buffer(s.mapped, s.regs.cx)
    ensures
      var buf := s.regs.cx;
      Run(img, s, 4) ==
        s.(pc := s.pc + 4,
           regs := s.regs.(r12 := At(s.mem, buf + 0x30), r13 := At(s.mem, buf + 0x38),
                           r14 := At(s.mem, buf + 0x40), r15 := At(s.mem, buf + 0x48)))
  {
    hide Run, Loaded;
    var s1 := Exec(W64, Load(R12, CX, 0x30), s);
    var s2 := Exec(W64, Load(R13, CX, 0x38), s1);
    var s3 := Exec(W64, Load(R14, CX, 0x40), s2);
    assert Run(img, s, 4) == Exec(W64, Load(R15, CX, 0x48), s3) by {
      hide Exec, At, Wrap, Low32;
      Follow(img, Longjmp, 8, s,
             [Load(R12, CX, 0x30), Load(R13, CX, 0x38), Load(R14, CX, 0x40), Load(R15, CX, 0x48)], 4);
    }
    hide Execs, Fetch, Step, CodeLine;
  }

  lemma LongjmpResume(img: Image, s: State)
    requires img.width.W64? && Loaded(img) && s.pc == img.longjmp + 12
    requires s.ok && Buffer(s.mapped, s.regs.cx)
    ensures
      var buf := s.regs.cx;
      Run(img, s, 3) ==
        s.(pc := At(s.mem, buf), regs := s.regs.(sp := At(s.mem, buf + 0x08), dx := At(s.mem, buf)))
  {
    hide Run, Loaded;
    var s1 := Exec(W64, Load(SP, CX, 0x08), s);
    var s2 := Exec(W64, Load(DX, CX, 0), s1);
    assert Run(img, s, 3) == Exec(W64, JmpR(DX), s2) by {
      hide Exec, At, Wrap, Low32;
      Follow(img, Longjmp, 12, s, [Load(SP, CX, 0x08), Load(DX, CX, 0), JmpR(DX)], 3);
    }
    hide Execs, Fetch, Step, CodeLine;
  }

  lemma SigsetjmpPark(img: Image, s: State)
    requires img.width.W64? && Loaded(img) && s.pc == img.sigsetjmp + 3
    requires s.ok && Buffer(s.mapped, s.regs.cx) && Frame(s.mapped, s.regs.sp) && Disjoint(s.regs.cx, s.regs.sp)
    ensures
      var buf, sp := s.regs.cx, s.regs.sp;
      Run(img, s, 4) ==
        s.(pc := img.setjmp, regs := s.regs.(bx := buf),
           mem := s.mem[buf + 0x68 := At(s.mem, sp)][buf + 0x70 := s.regs.bx][sp := s.pc + 4])
  {
    hide Run, Loaded;
    var s1 := Exec(W64, Pop(CX, 0x68), s);
    var s2 := Exec(W64, Store(CX, 0x70, BX), s1);
    var s3 := Exec(W64, Mov(BX, CX), s2);
    assert Run(img, s, 4) == Exec(W64, Call(img.setjmp), s3) by {
      hide Exec, At, Wrap, Low32;
      Follow(img, Sigsetjmp, 3, s, [Pop(CX, 0x68), Store(CX, 0x70, BX), Mov(BX, CX), Call(img.setjmp)], 4);
    }
    hide Execs, Fetch, Step, CodeLine;
  }

  lemma SigsetjmpRebuild(img: Image, s: State)
    requires img.width.W64? && Loaded(img) && s.pc == img.sigsetjmp + 7
    requires s.ok && Buffer(s.mapped, s.regs.bx) && Frame(s.mapped, s.regs.sp - 8) && Disjoint(s.regs.bx, s.regs.sp - 8)
    ensures
      var buf, sp := s.regs.bx, s.regs.sp;
      Run(img, s, 5) ==
        s.(pc := img.tail,
           regs := s.regs.(sp := sp - 8, cx := buf, dx := Low32(s.regs.ax), bx := At(s.mem, buf + 0x70)),
           mem := s.mem[sp - 8 := At(s.mem, buf + 0x68)])
  {
    hide Run, Loaded, Low32;
    var s1 := Exec(W64, Push(BX, 0x68), s);
    var s2 := Exec(W64, Mov(CX, BX), s1);
    var s3 := Exec(W64, MovL(DX, AX), s2);
    var s4 := Exec(W64, Load(BX, CX, 0x70), s3);
    assert Run(img, s, 5) == Exec(W64, Jmp(img.tail), s4) by {
      hide Exec, At, Wrap;
      Follow(img, Sigsetjmp, 7, s, [Push(BX, 0x68), Mov(CX, BX), MovL(DX, AX), Load(BX, CX, 0x70), Jmp(img.tail)], 5);
    }
    hide Execs, Fetch, Step, CodeLine;
  }
}
