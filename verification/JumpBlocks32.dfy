/** What each block of the nt32 routines does to the machine. */
module JumpBlocks32 {
  import opened Machine
  import opened JumpCode

  // The words of a jmp_buf that the routines use, from its address on.
  predicate Buffer(mapped: set<int>, a: int) {
    && 0 <= a && a + 92 < Modulus(W32)
    && a in mapped && a + 4 in mapped && a + 8 in mapped && a + 12 in mapped
    && a + 16 in mapped && a + 20 in mapped && a + 36 in mapped && a + 40 in mapped
  }

  // The return address of a call and its two argument words.
  predicate Frame(mapped: set<int>, a: int) {
    0 <= a && a + 12 < Modulus(W32) && a in mapped && a + 4 in mapped && a + 8 in mapped
  }

  predicate Disjoint(buf: int, sp: int) {
    sp + 12 <= buf || buf + 92 <= sp
  }

  lemma SetjmpEnter(img: Image, s: State)
    requires img.width.W32? && Loaded(img) && s.pc == img.setjmp
    requires s.ok && Frame(s.mapped, s.regs.sp) && Buffer(s.mapped, At(s.mem, s.regs.sp + 4))
    ensures
      var buf, sp, ret := At(s.mem, s.regs.sp + 4), s.regs.sp, At(s.mem, s.regs.sp);
      Run(img, s, 5) ==
        s.(pc := s.pc + 5, regs := s.regs.(dx := buf, ax := ret, cx := sp + 4),
           mem := s.mem[buf := ret][buf + 4 := sp + 4])
  {
    hide Run, Loaded;
    var s1 := Exec(W32, Load(DX, SP, 4), s);
    var s2 := Exec(W32, Load(AX, SP, 0), s1);
    var s3 := Exec(W32, Store(DX, 0, AX), s2);
    var s4 := Exec(W32, Lea(CX, SP, 4), s3);
    assert Run(img, s, 5) == Exec(W32, Store(DX, 4, CX), s4) by {
      hide Exec, At, Wrap, Low32;
      Follow(img, Setjmp, 0, s,
             [Load(DX, SP, 4), Load(AX, SP, 0), Store(DX, 0, AX), Lea(CX, SP, 4), Store(DX, 4, CX)], 5);
    }
    hide Execs, Fetch, Step, CodeLine;
  }

  lemma SetjmpSave(img: Image, s: State)
    requires img.width.W32? && Loaded(img) && s.pc == img.setjmp + 5
    requires s.ok && Buffer(s.mapped, s.regs.dx)
    ensures
      var buf := s.regs.dx;
      Run(img, s, 4) ==
        s.(pc := s.pc + 4, mem := s.mem[buf + 8 := s.regs.bx][buf + 12 := s.regs.bp]
                                       [buf + 16 := s.regs.di][buf + 20 := s.regs.si])
  {
    hide Run, Loaded;
    var s1 := Exec(W32, Store(DX, 8, BX), s);
    var s2 := Exec(W32, Store(DX, 12, BP), s1);
    var s3 := Exec(W32, Store(DX, 16, DI), s2);
    assert Run(img, s, 4) == Exec(W32, Store(DX, 20, SI), s3) by {
      hide Exec, At, Wrap, Low32;
      Follow(img, Setjmp, 5, s, [Store(DX, 8, BX), Store(DX, 12, BP), Store(DX, 16, DI), Store(DX, 20, SI)], 4);
    }
    hide Execs, Fetch, Step, CodeLine;
  }

  lemma SetjmpReturn(img: Image, s: State)
    requires img.width.W32? && Loaded(img) && s.pc == img.setjmp + 9
    requires s.ok && Frame(s.mapped, s.regs.sp)
    ensures Run(img, s, 2) ==
      s.(pc := At(s.mem, s.regs.sp), regs := s.regs.(ax := 0, sp := s.regs.sp + 4), zf := true)
  {
    hide Run, Loaded;
    var s1 := Exec(W32, ZeroL(AX), s);
    assert Run(img, s, 2) == Exec(W32, Ret, s1) by {
      hide Exec, At, Wrap, Low32;
      Follow(img, Setjmp, 9, s, [ZeroL(AX), Ret], 2);
    }
    hide Execs, Fetch, Step, CodeLine;
  }

  lemma LongjmpTest(img: Image, s: State)
    requires img.width.W32? && Loaded(img) && s.pc == img.longjmp
    requires s.ok && Frame(s.mapped, s.regs.sp)
    ensures
      var val := At(s.mem, s.regs.sp + 8);
      Run(img, s, 4) ==
        s.(pc := if Low32(val) == 0 then s.pc + 4 else img.longjmp + 5,
           regs := s.regs.(cx := At(s.mem, s.regs.sp + 4), ax := val), zf := Low32(val) == 0)
  {
    hide Run, Loaded, Low32;
    var s1 := Exec(W32, Load(CX, SP, 4), s);
    var s2 := Exec(W32, Load(AX, SP, 8), s1);
    var s3 := Exec(W32, TestL(AX), s2);
    assert Run(img, s, 4) == Exec(W32, Jnz(img.longjmp + 5), s3) by {
      hide Exec, At, Wrap;
      Follow(img, Longjmp, 0, s, [Load(CX, SP, 4), Load(AX, SP, 8), TestL(AX), Jnz(img.longjmp + 5)], 4);
    }
    hide Execs, Fetch, Step, CodeLine;
  }

  lemma LongjmpZeroBecomesOne(img: Image, s: State)
    requires img.width.W32? && Loaded(img) && s.pc == img.longjmp + 4
    requires Low32(s.regs.ax) == 0
    ensures Run(img, s, 1) ==
      s.(pc := s.pc + 1, regs := s.regs.(ax := 1), zf := false)
  {
    hide Run, Loaded;
    assert Run(img, s, 1) == Exec(W32, FlipL(AX), s) by {
      hide Exec, At, Wrap, Low32;
      Follow(img, Longjmp, 4, s, [FlipL(AX)], 1);
    }
    hide Execs, Fetch, Step, CodeLine;
  }

  lemma LongjmpRestore(img: Image, s: State)
    requires img.width.W32? && Loaded(img) && s.pc == img.longjmp + 5
    requires s.ok && Buffer(s.mapped, s.regs.cx)
    ensures
      var buf := s.regs.cx;
      Run(img, s, 4) ==
        s.(pc := s.pc + 4,
           regs := s.regs.(si := At(s.mem, buf + 20), di := At(s.mem, buf + 16),
                           bp := At(s.mem, buf + 12), bx := At(s.mem, buf + 8)))
  {
    hide Run, Loaded;
    var s1 := Exec(W32, Load(SI, CX, 20), s);
    var s2 := Exec(W32, Load(DI, CX, 16), s1);
    var s3 := Exec(W32, Load(BP, CX, 12), s2);
    assert Run(img, s, 4) == Exec(W32, Load(BX, CX, 8), s3) by {
      hide Exec, At, Wrap, Low32;
      Follow(img, Longjmp, 5, s, [Load(SI, CX, 20), Load(DI, CX, 16), Load(BP, CX, 12), Load(BX, CX, 8)], 4);
    }
    hide Execs, Fetch, Step, CodeLine;
  }

  lemma LongjmpResume(img: Image, s: State)
    requires img.width.W32? && Loaded(img) && s.pc == img.longjmp + 9
    requires s.ok && Buffer(s.mapped, s.regs.cx)
    ensures
      var buf := s.regs.cx;
      Run(img, s, 3) ==
        s.(pc := At(s.mem, buf), regs := s.regs.(sp := At(s.mem, buf + 4), dx := At(s.mem, buf)))
  {
    hide Run, Loaded;
    var s1 := Exec(W32, Load(SP, CX, 4), s);
    var s2 := Exec(W32, Load(DX, CX, 0), s1);
    assert Run(img, s, 3) == Exec(W32, JmpR(DX), s2) by {
      hide Exec, At, Wrap, Low32;
      Follow(img, Longjmp, 9, s, [Load(SP, CX, 4), Load(DX, CX, 0), JmpR(DX)], 3);
    }
    hide Execs, Fetch, Step, CodeLine;
  }

  lemma SigsetjmpTest(img: Image, s: State)
    requires img.width.W32? && Loaded(img) && s.pc == img.sigsetjmp
    requires s.ok && Frame(s.mapped, s.regs.sp)
    ensures
      var save := At(s.mem, s.regs.sp + 8);
      Run(img, s, 3) ==
        s.(pc := if Low32(save) == 0 then s.pc + 3 else img.sigsetjmp + 4,
           regs := s.regs.(dx := save), zf := Low32(save) == 0)
  {
    hide Run, Loaded, Low32;
    var s1 := Exec(W32, Load(DX, SP, 8), s);
    var s2 := Exec(W32, TestL(DX), s1);
    assert Run(img, s, 3) == Exec(W32, Jnz(img.sigsetjmp + 4), s2) by {
      hide Exec, At, Wrap;
      Follow(img, Sigsetjmp, 0, s, [Load(DX, SP, 8), TestL(DX), Jnz(img.sigsetjmp + 4)], 3);
    }
    hide Execs, Fetch, Step, CodeLine;
  }

  lemma SigsetjmpPark(img: Image, s: State)
    requires img.width.W32? && Loaded(img) && s.pc == img.sigsetjmp + 4
    requires s.ok && Frame(s.mapped, s.regs.sp) && Buffer(s.mapped, At(s.mem, s.regs.sp + 4))
    requires Disjoint(At(s.mem, s.regs.sp + 4), s.regs.sp)
    ensures
      var buf, sp := At(s.mem, s.regs.sp + 4), s.regs.sp;
      Run(img, s, 5) ==
        s.(pc := img.setjmp, regs := s.regs.(cx := buf, bx := buf),
           mem := s.mem[buf + 36 := At(s.mem, sp)][buf + 40 := s.regs.bx][sp := s.pc + 5])
  {
    hide Run, Loaded;
    var s1 := Exec(W32, Load(CX, SP, 4), s);
    var s2 := Exec(W32, Pop(CX, 36), s1);
    var s3 := Exec(W32, Store(CX, 40, BX), s2);
    var s4 := Exec(W32, Mov(BX, CX), s3);
    assert Run(img, s, 5) == Exec(W32, Call(img.setjmp), s4) by {
      hide Exec, At, Wrap, Low32;
      Follow(img, Sigsetjmp, 4, s,
             [Load(CX, SP, 4), Pop(CX, 36), Store(CX, 40, BX), Mov(BX, CX), Call(img.setjmp)], 5);
    }
    hide Execs, Fetch, Step, CodeLine;
  }

  lemma SigsetjmpRebuild(img: Image, s: State)
    requires img.width.W32? && Loaded(img) && s.pc == img.sigsetjmp + 9
    requires s.ok && Buffer(s.mapped, s.regs.bx) && Frame(s.mapped, s.regs.sp - 4) && Disjoint(s.regs.bx, s.regs.sp - 4)
    ensures
      var buf, sp := s.regs.bx, s.regs.sp;
      Run(img, s, 5) ==
        s.(pc := img.tail, regs := s.regs.(sp := sp - 4, bx := At(s.mem, buf + 40)),
           mem := s.mem[sp - 4 := At(s.mem, buf + 36)][sp := buf][sp + 4 := s.regs.ax])
  {
    hide Run, Loaded;
    var s1 := Exec(W32, Push(BX, 36), s);
    var s2 := Exec(W32, Store(SP, 4, BX), s1);
    var s3 := Exec(W32, Store(SP, 8, AX), s2);
    var s4 := Exec(W32, Load(BX, BX, 40), s3);
    assert Run(img, s, 5) == Exec(W32, Jmp(img.tail), s4) by {
      hide Exec, At, Wrap, Low32;
      Follow(img, Sigsetjmp, 9, s,
             [Push(BX, 36), Store(SP, 4, BX), Store(SP, 8, AX), Load(BX, BX, 40), Jmp(img.tail)], 5);
    }
    hide Execs, Fetch, Step, CodeLine;
  }
}
