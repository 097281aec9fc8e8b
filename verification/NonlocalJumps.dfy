/** setjmp and longjmp, in terms of the context in which a call returns. */
module NonlocalJumps {
  import opened Machine
  import opened JumpCode
  import B32 = JumpBlocks32
  import B64 = JumpBlocks64

  /** A place to resume, with the registers that a call must preserve.  The registers
      that nt32 lacks are zero there. */
  datatype Context = Context(ip: int, sp: int, bx: int, bp: int, di: int, si: int,
                             r12: int, r13: int, r14: int, r15: int)

  function Of(w: Width, ip: int, sp: int, r: Regs): Context {
    if w.W64? then Context(ip, sp, r.bx, r.bp, r.di, r.si, r.r12, r.r13, r.r14, r.r15)
    else Context(ip, sp, r.bx, r.bp, r.di, r.si, 0, 0, 0, 0)
  }

  // The context of the running code.
  function LiveContext(w: Width, s: State): Context {
    Of(w, s.pc, s.regs.sp, s.regs)
  }

  // At the entry of a routine: the context in which its caller resumes.
  function CallerContext(w: Width, s: State): Context {
    Of(w, At(s.mem, s.regs.sp), s.regs.sp + Bytes(w), s.regs)
  }

  // The context that a jump buffer holds.
  function SavedContext(w: Width, m: Memory, buf: int): Context {
    if w.W64? then
      Context(At(m, buf), At(m, buf + 0x08), At(m, buf + 0x10), At(m, buf + 0x18), At(m, buf + 0x20),
              At(m, buf + 0x28), At(m, buf + 0x30), At(m, buf + 0x38), At(m, buf + 0x40), At(m, buf + 0x48))
    else
      Context(At(m, buf), At(m, buf + 4), At(m, buf + 8), At(m, buf + 12), At(m, buf + 16),
              At(m, buf + 20), 0, 0, 0, 0)
  }

  // The first argument of the routines: the jump buffer.
  function BufferArg(w: Width, s: State): int {
    if w.W64? then s.regs.cx else At(s.mem, s.regs.sp + 4)
  }

  // The second argument, an int.
  function IntArg(w: Width, s: State): int {
    if w.W64? then Low32(s.regs.dx) else At(s.mem, s.regs.sp + 8)
  }

  // The words of the `__jb` member.
  predicate InSaved(w: Width, buf: int, a: int) {
    buf <= a < buf + if w.W64? then 0x50 else 24
  }

  predicate HasBuffer(w: Width, s: State, buf: int) {
    if w.W64? then B64.Buffer(s.mapped, buf) else B32.Buffer(s.mapped, buf)
  }

  // The stack words of a call: its return address, and on nt32 its two arguments.
  predicate HasFrame(w: Width, s: State, sp: int) {
    if w.W64? then B64.Frame(s.mapped, sp) else B32.Frame(s.mapped, sp)
  }

  predicate OffStack(w: Width, buf: int, sp: int) {
    if w.W64? then B64.Disjoint(buf, sp) else B32.Disjoint(buf, sp)
  }

  // Entry of a routine that takes a jump buffer.
  predicate Entered(img: Image, s: State, at: int) {
    && Loaded(img) && s.ok && s.pc == at
    && HasFrame(img.width, s, s.regs.sp)
    && HasBuffer(img.width, s, BufferArg(img.width, s))
  }

  ghost predicate SetjmpDone(w: Width, s: State, buf: int, t: State) {
    && t.ok && t.mapped == s.mapped
    && LiveContext(w, t) == CallerContext(w, s) && t.regs.ax == 0
    && SavedContext(w, t.mem, buf) == CallerContext(w, s)
    && (forall a :: !InSaved(w, buf, a) ==> At(t.mem, a) == At(s.mem, a))
  }

  function SetjmpSteps(w: Width): nat {
    if w.W64? then 13 else 11
  }

  ghost predicate Stored64(s: State, buf: int, m: Memory) {
    var r, sp, ret := s.regs, s.regs.sp, At(s.mem, s.regs.sp);
    m == s.mem[buf := ret][buf + 0x08 := sp + 8][sp := ret]
              [buf + 0x10 := r.bx][buf + 0x18 := r.bp][buf + 0x20 := r.di][buf + 0x28 := r.si]
              [buf + 0x30 := r.r12][buf + 0x38 := r.r13][buf + 0x40 := r.r14][buf + 0x48 := r.r15]
  }

  lemma Setjmp64Run(img: Image, s: State)
    requires img.width.W64? && Loaded(img) && s.pc == img.setjmp && s.ok
    requires B64.Buffer(s.mapped, s.regs.cx) && B64.Frame(s.mapped, s.regs.sp)
    requires B64.Disjoint(s.regs.cx, s.regs.sp)
    ensures
      var t := Run(img, s, 11);
      t == s.(pc := s.pc + 11, mem := t.mem) && Stored64(s, s.regs.cx, t.mem)
  {
    hide Run, Loaded, B64.Buffer, B64.Frame, At;
    B64.SetjmpEnter(img, s);
    B64.SetjmpSaveLow(img, Run(img, s, 3));
    RunAdd(img, s, 3, 4);
    B64.SetjmpSaveHigh(img, Run(img, s, 7));
    RunAdd(img, s, 7, 4);
  }

  lemma Stored64Context(s: State, buf: int, m: Memory)
    requires Stored64(s, buf, m) && B64.Disjoint(buf, s.regs.sp)
    ensures SavedContext(W64, m, buf) == CallerContext(W64, s)
  {}

  lemma Stored64Frame(s: State, buf: int, m: Memory)
    requires Stored64(s, buf, m) && B64.Disjoint(buf, s.regs.sp)
    ensures forall a :: !InSaved(W64, buf, a) ==> At(m, a) == At(s.mem, a)
  {}

  lemma Setjmp64Returns(img: Image, s: State)
    requires img.width.W64? && Entered(img, s, img.setjmp) && OffStack(W64, s.regs.cx, s.regs.sp)
    ensures SetjmpDone(W64, s, s.regs.cx, Run(img, s, 13))
  {
    hide Run, Loaded, B64.Buffer;
    Setjmp64Run(img, s);
    var t := Run(img, s, 11);
    Stored64Context(s, s.regs.cx, t.mem);
    Stored64Frame(s, s.regs.cx, t.mem);
    hide SavedContext, Stored64;
    B64.SetjmpReturn(img, t);
    RunAdd(img, s, 11, 2);
    assert At(t.mem, s.regs.sp) == At(s.mem, s.regs.sp);
  }

  lemma Setjmp32Run(img: Image, s: State)
    requires img.width.W32? && Loaded(img) && s.pc == img.setjmp && s.ok
    requires B32.Frame(s.mapped, s.regs.sp) && B32.Buffer(s.mapped, At(s.mem, s.regs.sp + 4))
    ensures
      var buf, sp, ret, r := At(s.mem, s.regs.sp + 4), s.regs.sp, At(s.mem, s.regs.sp), s.regs;
      Run(img, s, 9) ==
        s.(pc := s.pc + 9, regs := r.(dx := buf, ax := ret, cx := sp + 4),
           mem := s.mem[buf := ret][buf + 4 := sp + 4]
                       [buf + 8 := r.bx][buf + 12 := r.bp][buf + 16 := r.di][buf + 20 := r.si])
  {
    hide Run, Loaded, B32.Buffer, B32.Frame, At;
    B32.SetjmpEnter(img, s);
    B32.SetjmpSave(img, Run(img, s, 5));
    RunAdd(img, s, 5, 4);
  }

  lemma Setjmp32Stores(s: State, buf: int, sp: int, ret: int, m: Memory)
    requires sp == s.regs.sp && ret == At(s.mem, sp) && B32.Disjoint(buf, sp)
    requires
      var r := s.regs;
      m == s.mem[buf := ret][buf + 4 := sp + 4]
                [buf + 8 := r.bx][buf + 12 := r.bp][buf + 16 := r.di][buf + 20 := r.si]
    ensures SavedContext(W32, m, buf) == CallerContext(W32, s)
    ensures forall a :: !InSaved(W32, buf, a) ==> At(m, a) == At(s.mem, a)
  {}

  lemma Setjmp32Returns(img: Image, s: State)
    requires img.width.W32? && Entered(img, s, img.setjmp)
    requires OffStack(W32, BufferArg(W32, s), s.regs.sp)
    ensures SetjmpDone(W32, s, BufferArg(W32, s), Run(img, s, 11))
  {
    hide Run, Loaded, B32.Buffer;
    Setjmp32Run(img, s);
    var t := Run(img, s, 9);
    Setjmp32Stores(s, At(s.mem, s.regs.sp + 4), s.regs.sp, At(s.mem, s.regs.sp), t.mem);
    hide SavedContext;
    B32.SetjmpReturn(img, t);
    RunAdd(img, s, 9, 2);
    assert At(t.mem, s.regs.sp) == At(s.mem, s.regs.sp);
  }

  /** setjmp returns zero to its caller, whose context is then both the running one and
      the one in the buffer; no word outside the `__jb` member changes. */
  lemma SetjmpReturns(img: Image, s: State)
    requires Entered(img, s, img.setjmp) && OffStack(img.width, BufferArg(img.width, s), s.regs.sp)
    ensures SetjmpDone(img.width, s, BufferArg(img.width, s), Run(img, s, SetjmpSteps(img.width)))
  {
    hide Run, SetjmpDone;
    if img.width.W64? {
      Setjmp64Returns(img, s);
    } else {
      Setjmp32Returns(img, s);
    }
  }

  predicate LongjmpEntered(img: Image, s: State) {
    Entered(img, s, img.longjmp) && 0 <= IntArg(img.width, s) < 0x1_0000_0000
  }

  // The value that setjmp delivers on a second return.
  function Delivered(val: int): int {
    if val == 0 then 1 else val
  }

  function LongjmpSteps(w: Width, val: int): nat {
    if w.W64? then (if val == 0 then 15 else 14) else (if val == 0 then 12 else 11)
  }

  predicate LongjmpDone(w: Width, s: State, t: State) {
    && t.ok && t.mapped == s.mapped && t.mem == s.mem
    && LiveContext(w, t) == SavedContext(w, s.mem, BufferArg(w, s))
    && t.regs.ax == Delivered(IntArg(w, s))
  }

  lemma Longjmp64Value(img: Image, s: State)
    requires img.width.W64? && Loaded(img) && s.pc == img.longjmp
    ensures
      var val := Low32(s.regs.dx);
      var t := Run(img, s, if val == 0 then 4 else 3);
      && t.pc == img.longjmp + 4 && t.ok == s.ok && t.mem == s.mem && t.mapped == s.mapped
      && t.regs.cx == s.regs.cx && t.regs.ax == Delivered(val)
  {
    hide Run, Loaded;
    B64.LongjmpTest(img, s);
    if Low32(s.regs.dx) == 0 {
      B64.LongjmpZeroBecomesOne(img, Run(img, s, 2));
      RunAdd(img, s, 2, 2);
    } else {
      B64.LongjmpDeliver(img, Run(img, s, 2));
      RunAdd(img, s, 2, 1);
    }
  }

  lemma Longjmp64Resumes(img: Image, s: State)
    requires img.width.W64? && Entered(img, s, img.longjmp)
    ensures LongjmpDone(W64, s, Run(img, s, LongjmpSteps(W64, IntArg(W64, s))))
  {
    hide Run, Loaded, B64.Buffer, At, Low32;
    Longjmp64Value(img, s);
    var n := if Low32(s.regs.dx) == 0 then 4 else 3;
    var t := Run(img, s, n);
    B64.LongjmpRestoreLow(img, t);
    B64.LongjmpRestoreHigh(img, Run(img, t, 4));
    RunAdd(img, t, 4, 4);
    B64.LongjmpResume(img, Run(img, t, 8));
    RunAdd(img, t, 8, 3);
    RunAdd(img, s, n, 11);
  }

  lemma Longjmp32Value(img: Image, s: State)
    requires img.width.W32? && LongjmpEntered(img, s)
    ensures
      var val := IntArg(W32, s);
      var t := Run(img, s, if val == 0 then 5 else 4);
      && t.pc == img.longjmp + 5 && t.ok && t.mem == s.mem && t.mapped == s.mapped
      && t.regs.cx == BufferArg(W32, s) && t.regs.ax == Delivered(val)
  {
    assert Low32(IntArg(W32, s)) == IntArg(W32, s);
    hide Run, Loaded, B32.Buffer, Low32;
    B32.LongjmpTest(img, s);
    if IntArg(W32, s) == 0 {
      B32.LongjmpZeroBecomesOne(img, Run(img, s, 4));
      RunAdd(img, s, 4, 1);
    }
  }

  lemma Longjmp32Resumes(img: Image, s: State)
    requires img.width.W32? && LongjmpEntered(img, s)
    ensures LongjmpDone(W32, s, Run(img, s, LongjmpSteps(W32, IntArg(W32, s))))
  {
    hide Run, Loaded, B32.Buffer, At;
    Longjmp32Value(img, s);
    var n := if IntArg(W32, s) == 0 then 5 else 4;
    var t := Run(img, s, n);
    B32.LongjmpRestore(img, t);
    B32.LongjmpResume(img, Run(img, t, 4));
    RunAdd(img, t, 4, 3);
    RunAdd(img, s, n, 7);
  }

  /** longjmp makes the context in the buffer the running one, delivers its value with
      zero replaced by one, and changes no memory. */
  lemma LongjmpResumes(img: Image, s: State)
    requires LongjmpEntered(img, s)
    ensures LongjmpDone(img.width, s, Run(img, s, LongjmpSteps(img.width, IntArg(img.width, s))))
  {
    hide Run, LongjmpDone;
    if img.width.W64? {
      Longjmp64Resumes(img, s);
    } else {
      Longjmp32Resumes(img, s);
    }
  }

  /** A setjmp call `s`, any code that ends in a call `u` of longjmp with the same buffer
      contents, and the return of setjmp happens again: same address, stack pointer and
      preserved registers, now with the value passed to longjmp. */
  lemma LongjmpReturnsAgain(img: Image, s: State, u: State)
    requires Entered(img, s, img.setjmp) && OffStack(img.width, BufferArg(img.width, s), s.regs.sp)
    requires LongjmpEntered(img, u)
    requires
      var first := Run(img, s, SetjmpSteps(img.width));
      SavedContext(img.width, u.mem, BufferArg(img.width, u)) ==
        SavedContext(img.width, first.mem, BufferArg(img.width, s))
    ensures
      var first := Run(img, s, SetjmpSteps(img.width));
      var again := Run(img, u, LongjmpSteps(img.width, IntArg(img.width, u)));
      && LiveContext(img.width, again) == LiveContext(img.width, first) == CallerContext(img.width, s)
      && first.regs.ax == 0 && again.regs.ax == Delivered(IntArg(img.width, u)) != 0
      && again.mem == u.mem && first.ok && again.ok
  {
    hide Run, Loaded, SavedContext, LiveContext, CallerContext;
    SetjmpReturns(img, s);
    LongjmpResumes(img, u);
  }

  // ---- the same, register by register

  // An int argument and the bits above it: on nt64 a register has 32 more, on nt32 none.
  predicate IntIs(w: Width, s: State, arg: int, above: int) {
    && 0 <= arg < 0x1_0000_0000
    && if w.W64? then s.regs.dx == arg + 0x1_0000_0000 * above else At(s.mem, s.regs.sp + 8) == arg
  }

  lemma IntArgIs(w: Width, s: State, arg: int, above: int)
    requires IntIs(w, s, arg, above)
    ensures IntArg(w, s) == arg
  {}

  /** What longjmp delivers, whatever is above its int argument. */
  lemma LongjmpDelivers(img: Image, u: State, arg: int, above: int)
    requires Entered(img, u, img.longjmp) && IntIs(img.width, u, arg, above)
    ensures LongjmpEntered(img, u)
    ensures Run(img, u, LongjmpSteps(img.width, arg)).regs.ax == if arg == 0 then 1 else arg
  {
    IntArgIs(img.width, u, arg, above);
    hide Run, Entered, IntArg;
    LongjmpResumes(img, u);
  }

  // The registers that a call must preserve.
  predicate SamePreserved(w: Width, r: Regs, q: Regs) {
    && r.bx == q.bx && r.bp == q.bp && r.di == q.di && r.si == q.si
    && (w.W64? ==> r.r12 == q.r12 && r.r13 == q.r13 && r.r14 == q.r14 && r.r15 == q.r15)
  }

  lemma SameContext(w: Width, ip: int, sp: int, r: Regs, q: Regs)
    requires Of(w, ip, sp, r) == Of(w, ip, sp, q)
    ensures SamePreserved(w, r, q)
  {}

  /** Both returns of setjmp, as its caller finds them: at the return address, with the stack
      pointer above it and the preserved registers; first with zero, then with the int given to
      longjmp, or one for zero. */
  lemma LongjmpReturnsRegisters(img: Image, s: State, u: State, arg: int, above: int)
    requires Entered(img, s, img.setjmp) && OffStack(img.width, BufferArg(img.width, s), s.regs.sp)
    requires Entered(img, u, img.longjmp) && IntIs(img.width, u, arg, above)
    requires
      var first := Run(img, s, SetjmpSteps(img.width));
      SavedContext(img.width, u.mem, BufferArg(img.width, u)) ==
        SavedContext(img.width, first.mem, BufferArg(img.width, s))
    ensures
      var first := Run(img, s, SetjmpSteps(img.width));
      var again := Run(img, u, LongjmpSteps(img.width, arg));
      var word := if img.width.W64? then 8 else 4;
      && first.pc == again.pc == At(s.mem, s.regs.sp)
      && first.regs.sp == again.regs.sp == s.regs.sp + word
      && SamePreserved(img.width, first.regs, s.regs) && SamePreserved(img.width, again.regs, s.regs)
      && first.regs.ax == 0 && again.regs.ax == if arg == 0 then 1 else arg
  {
    hide Run, Entered, SavedContext, OffStack;
    IntArgIs(img.width, u, arg, above);
    LongjmpDelivers(img, u, arg, above);
    hide IntArg, IntIs;
    LongjmpReturnsAgain(img, s, u);
    ReturnedRegisters(img, Run(img, s, SetjmpSteps(img.width)), s);
    ReturnedRegisters(img, Run(img, u, LongjmpSteps(img.width, arg)), s);
    hide LiveContext, CallerContext, SamePreserved;
  }

  lemma ReturnedRegisters(img: Image, t: State, s: State)
    requires LiveContext(img.width, t) == CallerContext(img.width, s)
    ensures t.pc == At(s.mem, s.regs.sp) && t.regs.sp == s.regs.sp + if img.width.W64? then 8 else 4
    ensures SamePreserved(img.width, t.regs, s.regs)
  {
    SameContext(img.width, t.pc, t.regs.sp, t.regs, s.regs);
  }
}
