/** sigsetjmp with a nonzero mask argument returns through itself: its return address and
    one preserved register are parked in the jump buffer, and its frame is rebuilt on
    every arrival at the foreign tail that saves or restores the signal mask. */
module Sigsetjmp {
  import opened Machine
  import opened JumpCode
  import opened NonlocalJumps
  import B32 = JumpBlocks32
  import B64 = JumpBlocks64

  // __ss[2] and __ss[3]
  function ParkedIp(w: Width, buf: int): int {
    buf + if w.W64? then 0x68 else 36
  }

  function ParkedBx(w: Width, buf: int): int {
    buf + if w.W64? then 0x70 else 40
  }

  // The words that must survive between the first return and a later one.
  predicate Kept(w: Width, buf: int, a: int) {
    InSaved(w, buf, a) || a == ParkedIp(w, buf) || a == ParkedBx(w, buf)
  }

  // Where the saved context resumes: behind the call inside sigsetjmp.
  function ResumeLine(img: Image): int {
    img.sigsetjmp + if img.width.W64? then 7 else 9
  }

  // The buffer is ready for another arrival on behalf of the caller context `c`.
  predicate Armed(img: Image, m: Memory, buf: int, c: Context) {
    && SavedContext(img.width, m, buf) == c.(ip := ResumeLine(img), bx := buf)
    && At(m, ParkedIp(img.width, buf)) == c.ip
    && At(m, ParkedBx(img.width, buf)) == c.bx
  }

  // The stack pointer at entry, from the one the caller resumes with.
  function EntrySp(w: Width, c: Context): int {
    c.sp - Bytes(w)
  }

  // The tail is entered exactly as sigsetjmp was: same stack pointer, return address and
  // preserved registers, with the buffer and the delivered value as its arguments.
  predicate Arrived(img: Image, a: State, buf: int, c: Context, val: int) {
    && a.ok && a.pc == img.tail
    && a.regs.sp == EntrySp(img.width, c)
    && CallerContext(img.width, a) == c
    && BufferArg(img.width, a) == buf && IntArg(img.width, a) == val
    && Armed(img, a.mem, buf, c)
  }

  predicate LiveFrame(img: Image, s: State, buf: int, c: Context) {
    && Loaded(img) && s.ok
    && HasBuffer(img.width, s, buf)
    && HasFrame(img.width, s, EntrySp(img.width, c)) && OffStack(img.width, buf, EntrySp(img.width, c))
  }

  lemma LowOfInt(v: int)
    requires 0 <= v < 0x1_0000_0000
    ensures Low32(v) == v
  {}

  lemma Rebuild64(img: Image, t: State, buf: int, c: Context)
    requires img.width.W64? && LiveFrame(img, t, buf, c)
    requires LiveContext(W64, t) == c.(ip := ResumeLine(img), bx := buf)
    requires Armed(img, t.mem, buf, c) && 0 <= t.regs.ax < 0x1_0000_0000
    ensures Arrived(img, Run(img, t, 5), buf, c, t.regs.ax)
  {
    hide Run, Loaded, B64.Buffer, Low32;
    LowOfInt(t.regs.ax);
    B64.SigsetjmpRebuild(img, t);
  }

  lemma Rebuild32(img: Image, t: State, buf: int, c: Context)
    requires img.width.W32? && LiveFrame(img, t, buf, c)
    requires LiveContext(W32, t) == c.(ip := ResumeLine(img), bx := buf)
    requires Armed(img, t.mem, buf, c)
    ensures Arrived(img, Run(img, t, 5), buf, c, t.regs.ax)
  {
    hide Run, Loaded, B32.Buffer;
    B32.SigsetjmpRebuild(img, t);
  }

  // The state after the call inside sigsetjmp returned, for whatever time.
  lemma Rebuild(img: Image, t: State, buf: int, c: Context)
    requires LiveFrame(img, t, buf, c)
    requires LiveContext(img.width, t) == c.(ip := ResumeLine(img), bx := buf)
    requires Armed(img, t.mem, buf, c) && 0 <= t.regs.ax < 0x1_0000_0000
    ensures Arrived(img, Run(img, t, 5), buf, c, t.regs.ax)
  {
    hide Arrived, Armed, LiveFrame, Run;
    if img.width.W64? {
      Rebuild64(img, t, buf, c);
    } else {
      Rebuild32(img, t, buf, c);
    }
  }

  // A call of sigsetjmp that saves the mask, its frame apart from the buffer.
  predicate MaskedCall(img: Image, s: State) {
    && Entered(img, s, img.sigsetjmp)
    && 0 < IntArg(img.width, s) < 0x1_0000_0000
    && OffStack(img.width, BufferArg(img.width, s), s.regs.sp)
  }

  function ParkSteps(w: Width): nat {
    if w.W64? then 6 else 8
  }

  // Having parked its return address, sigsetjmp calls setjmp in the slot it emptied.
  predicate Parked(img: Image, s: State, p: State) {
    var buf, c := BufferArg(img.width, s), CallerContext(img.width, s);
    && p.ok && p.pc == img.setjmp && p.mapped == s.mapped
    && p.regs.sp == s.regs.sp && BufferArg(img.width, p) == buf
    && CallerContext(img.width, p) == c.(ip := ResumeLine(img), bx := buf)
    && At(p.mem, ParkedIp(img.width, buf)) == c.ip
    && At(p.mem, ParkedBx(img.width, buf)) == c.bx
  }

  lemma Park64(img: Image, s: State)
    requires img.width.W64? && MaskedCall(img, s)
    ensures Parked(img, s, Run(img, s, 6))
  {
    hide Run, Loaded, B64.Buffer, Low32;
    B64.SigsetjmpTest(img, s);
    B64.SigsetjmpPark(img, Run(img, s, 2));
    RunAdd(img, s, 2, 4);
  }

  // The test of the mask argument leaves everything but a scratch register alone.
  predicate Tested32(img: Image, s: State, t: State) {
    && t.ok && t.pc == img.sigsetjmp + 4 && t.mapped == s.mapped && t.mem == s.mem
    && t.regs == s.regs.(dx := t.regs.dx)
  }

  lemma Test32(img: Image, s: State)
    requires img.width.W32? && MaskedCall(img, s)
    ensures Tested32(img, s, Run(img, s, 3))
  {
    hide Run, Loaded, B32.Buffer, Low32;
    LowOfInt(IntArg(W32, s));
    B32.SigsetjmpTest(img, s);
  }

  lemma Park32(img: Image, s: State, t: State)
    requires img.width.W32? && MaskedCall(img, s) && Tested32(img, s, t)
    ensures Parked(img, s, Run(img, t, 5))
  {
    hide Run, Loaded, B32.Buffer;
    B32.SigsetjmpPark(img, t);
  }

  lemma Park(img: Image, s: State)
    requires MaskedCall(img, s)
    ensures Parked(img, s, Run(img, s, ParkSteps(img.width)))
  {
    hide MaskedCall, Parked, Tested32, Run;
    if img.width.W64? {
      Park64(img, s);
    } else {
      Test32(img, s);
      Park32(img, s, Run(img, s, 3));
      RunAdd(img, s, 3, 5);
    }
  }

  function FirstSteps(w: Width): nat {
    ParkSteps(w) + SetjmpSteps(w) + 5
  }

  // Neither setjmp's own stores nor the return address it leaves reach the parked words.
  lemma SetjmpKeepsParked(img: Image, s: State, p: State, t: State)
    requires MaskedCall(img, s) && Parked(img, s, p)
    requires SetjmpDone(img.width, p, BufferArg(img.width, s), t)
    ensures LiveFrame(img, t, BufferArg(img.width, s), CallerContext(img.width, s))
    ensures Armed(img, t.mem, BufferArg(img.width, s), CallerContext(img.width, s))
  {
    hide Loaded, B32.Buffer, B64.Buffer, B32.Frame, B64.Frame, B32.Disjoint, B64.Disjoint, SavedContext;
    var buf := BufferArg(img.width, s);
    assert !InSaved(img.width, buf, ParkedIp(img.width, buf));
    assert !InSaved(img.width, buf, ParkedBx(img.width, buf));
  }

  /** The first arrival, delivering zero. */
  lemma SigsetjmpArrives(img: Image, s: State)
    requires MaskedCall(img, s)
    ensures
      Arrived(img, Run(img, s, FirstSteps(img.width)), BufferArg(img.width, s),
              CallerContext(img.width, s), 0)
  {
    var w, buf, c := img.width, BufferArg(img.width, s), CallerContext(img.width, s);
    hide Run, Loaded, B32.Buffer, B64.Buffer, B32.Frame, B64.Frame, B32.Disjoint, B64.Disjoint;
    Park(img, s);
    var p := Run(img, s, ParkSteps(w));
    assert Entered(img, p, img.setjmp);
    SetjmpReturns(img, p);
    var t := Run(img, p, SetjmpSteps(w));
    RunAdd(img, s, ParkSteps(w), SetjmpSteps(w));
    SetjmpKeepsParked(img, s, p, t);
    hide Armed, LiveFrame, Arrived, CallerContext, LiveContext, SavedContext;
    Rebuild(img, t, buf, c);
    RunAdd(img, s, ParkSteps(w) + SetjmpSteps(w), 5);
  }

  /** A later longjmp through the armed buffer arrives again, with its own value. */
  lemma LongjmpArrives(img: Image, u: State, buf: int, c: Context)
    requires LongjmpEntered(img, u) && BufferArg(img.width, u) == buf
    requires LiveFrame(img, u, buf, c) && Armed(img, u.mem, buf, c)
    ensures
      Arrived(img, Run(img, u, LongjmpSteps(img.width, IntArg(img.width, u)) + 5), buf, c,
              Delivered(IntArg(img.width, u)))
  {
    hide Run, Loaded, SavedContext, LiveContext;
    LongjmpResumes(img, u);
    var n := LongjmpSteps(img.width, IntArg(img.width, u));
    var t := Run(img, u, n);
    hide Arrived;
    Rebuild(img, t, buf, c);
    RunAdd(img, u, n, 5);
  }

  // The tail stores at most _NSIG/8 bytes at the start of __ss; `x` is a word it can touch.
  predicate InMask(w: Width, buf: int, x: int) {
    var mask := buf + if w.W64? then 0x58 else 28;
    x < mask + 65 / 8 && mask < x + Bytes(w)
  }

  /** The words of setjmp, the mask and the two parked words lie apart from one another, so
      saving the signal mask leaves the saved context and the parked words alone. */
  lemma MaskSaveKeepsArmed(img: Image, m: Memory, saved: Memory, buf: int, c: Context)
    requires Armed(img, m, buf, c)
    requires forall x :: !InMask(img.width, buf, x) ==> At(saved, x) == At(m, x)
    ensures Armed(img, saved, buf, c)
    ensures forall x :: Kept(img.width, buf, x) ==> !InMask(img.width, buf, x)
    ensures
      var w := img.width;
      !InSaved(w, buf, ParkedIp(w, buf)) && !InSaved(w, buf, ParkedBx(w, buf))
      && ParkedIp(w, buf) + Bytes(w) <= ParkedBx(w, buf)
  {
    forall x | Kept(img.width, buf, x)
      ensures At(saved, x) == At(m, x)
    {
      assert !InMask(img.width, buf, x);
    }
    hide InMask;
  }

  // Foreign code between an arrival `a` and the next longjmp `u`: the tail, the caller of
  // sigsetjmp and whatever it calls.  It may change every register, the stack slots of
  // the call included, and all memory but the kept words of the buffer.
  ghost predicate Foreign(img: Image, a: State, u: State, buf: int, c: Context) {
    && LongjmpEntered(img, u) && BufferArg(img.width, u) == buf
    && LiveFrame(img, u, buf, c)
    && (forall x :: Kept(img.width, buf, x) ==> At(u.mem, x) == At(a.mem, x))
  }

  lemma ForeignKeepsArmed(img: Image, a: State, u: State, buf: int, c: Context)
    requires Foreign(img, a, u, buf, c) && Armed(img, a.mem, buf, c)
    ensures Armed(img, u.mem, buf, c)
  {
    hide LongjmpEntered, LiveFrame;
  }

  // The i-th arrival at the tail, when `calls` are the entries of the longjmps.
  function Arrival(img: Image, s: State, calls: seq<State>, i: nat): State
    requires i <= |calls|
  {
    if i == 0 then Run(img, s, FirstSteps(img.width))
    else Run(img, calls[i - 1], LongjmpSteps(img.width, IntArg(img.width, calls[i - 1])) + 5)
  }

  function Value(img: Image, calls: seq<State>, i: nat): int
    requires i <= |calls|
  {
    if i == 0 then 0 else Delivered(IntArg(img.width, calls[i - 1]))
  }

  /** Any number of longjmps: every arrival finds the frame of the original call. */
  lemma {:induction false} EveryArrival(img: Image, s: State, calls: seq<State>, n: nat)
    requires MaskedCall(img, s) && n <= |calls|
    requires forall i :: 0 <= i < |calls| ==>
      Foreign(img, Arrival(img, s, calls, i), calls[i], BufferArg(img.width, s), CallerContext(img.width, s))
    ensures
      Arrived(img, Arrival(img, s, calls, n), BufferArg(img.width, s), CallerContext(img.width, s),
              Value(img, calls, n))
  {
    var buf, c := BufferArg(img.width, s), CallerContext(img.width, s);
    hide Run, LiveFrame, Armed, MaskedCall, LongjmpEntered, CallerContext, BufferArg, IntArg, LongjmpSteps;
    if n == 0 {
      SigsetjmpArrives(img, s);
    } else {
      EveryArrival(img, s, calls, n - 1);
      ForeignKeepsArmed(img, Arrival(img, s, calls, n - 1), calls[n - 1], buf, c);
      LongjmpArrives(img, calls[n - 1], buf, c);
    }
  }

  lemma UnmaskedJump(img: Image, s: State)
    requires Entered(img, s, img.sigsetjmp) && IntArg(img.width, s) == 0
    ensures
      var t := Run(img, s, if img.width.W64? then 3 else 4);
      t == s.(pc := img.setjmp, regs := s.regs.(dx := t.regs.dx), zf := t.zf)
  {
    hide Run, Loaded, B32.Buffer, B64.Buffer, Low32;
    if img.width.W64? {
      B64.SigsetjmpTest(img, s);
      var t := Run(img, s, 2);
      Follow(img, Sigsetjmp, 2, t, [Jmp(img.setjmp)], 1);
      RunAdd(img, s, 2, 1);
    } else {
      LowOfInt(0);
      B32.SigsetjmpTest(img, s);
      var t := Run(img, s, 3);
      Follow(img, Sigsetjmp, 3, t, [Jmp(img.setjmp)], 1);
      RunAdd(img, s, 3, 1);
    }
  }

  /** With a zero mask argument sigsetjmp is setjmp. */
  lemma UnmaskedIsSetjmp(img: Image, s: State)
    requires Entered(img, s, img.sigsetjmp) && IntArg(img.width, s) == 0
    requires OffStack(img.width, BufferArg(img.width, s), s.regs.sp)
    ensures
      var n := if img.width.W64? then 3 else 4;
      SetjmpDone(img.width, s, BufferArg(img.width, s), Run(img, s, n + SetjmpSteps(img.width)))
  {
    hide Run, Loaded, B32.Buffer, B64.Buffer, B32.Disjoint, B64.Disjoint;
    UnmaskedJump(img, s);
    hide SavedContext;
    var n := if img.width.W64? then 3 else 4;
    var t := Run(img, s, n);
    SetjmpReturns(img, t);
    RunAdd(img, s, n, SetjmpSteps(img.width));
  }

  // ---- the same, register by register

  /** Only the int decides whether sigsetjmp saves the mask. */
  lemma SigsetjmpEither(img: Image, s: State, arg: int, above: int)
    requires Entered(img, s, img.sigsetjmp) && IntIs(img.width, s, arg, above)
    requires OffStack(img.width, BufferArg(img.width, s), s.regs.sp)
    ensures
      var w, buf := img.width, BufferArg(img.width, s);
      if arg != 0 then Arrived(img, Run(img, s, FirstSteps(w)), buf, CallerContext(w, s), 0)
      else SetjmpDone(w, s, buf, Run(img, s, (if w.W64? then 3 else 4) + SetjmpSteps(w)))
  {
    IntArgIs(img.width, s, arg, above);
    hide Run, Entered, IntArg, Arrived, SetjmpDone, OffStack;
    if arg != 0 {
      SigsetjmpArrives(img, s);
    } else {
      UnmaskedIsSetjmp(img, s);
    }
  }

  /** Any number of longjmps, as the tail finds it: the stack pointer of the call, its return
      address on top, the preserved registers, the buffer, and the int that was delivered. */
  lemma EveryArrivalRegisters(img: Image, s: State, calls: seq<State>, n: nat, arg: int, above: int)
    requires MaskedCall(img, s) && n <= |calls|
    requires forall i :: 0 <= i < |calls| ==>
      Foreign(img, Arrival(img, s, calls, i), calls[i], BufferArg(img.width, s), CallerContext(img.width, s))
    requires n > 0 ==> IntIs(img.width, calls[n - 1], arg, above)
    ensures
      var a, sp := Arrival(img, s, calls, n), s.regs.sp;
      var val := if n == 0 then 0 else if arg == 0 then 1 else arg;
      && a.ok && a.pc == img.tail
      && a.regs.sp == sp && At(a.mem, sp) == At(s.mem, sp) && SamePreserved(img.width, a.regs, s.regs)
      && (if img.width.W64? then a.regs.cx == s.regs.cx && a.regs.dx % 0x1_0000_0000 == val
          else At(a.mem, sp + 4) == At(s.mem, sp + 4) && At(a.mem, sp + 8) == val)
  {
    hide Run, Foreign, MaskedCall, Arrival, Arrived, IntArg, IntIs, BufferArg, CallerContext, SamePreserved;
    EveryArrival(img, s, calls, n);
    if n > 0 {
      IntArgIs(img.width, calls[n - 1], arg, above);
    }
    ArrivedRegisters(img, Arrival(img, s, calls, n), s, Value(img, calls, n));
  }

  lemma ArrivedRegisters(img: Image, a: State, s: State, val: int)
    requires Arrived(img, a, BufferArg(img.width, s), CallerContext(img.width, s), val)
    ensures
      var sp := s.regs.sp;
      && a.ok && a.pc == img.tail
      && a.regs.sp == sp && At(a.mem, sp) == At(s.mem, sp) && SamePreserved(img.width, a.regs, s.regs)
      && (if img.width.W64? then a.regs.cx == s.regs.cx && a.regs.dx % 0x1_0000_0000 == val
          else At(a.mem, sp + 4) == At(s.mem, sp + 4) && At(a.mem, sp + 8) == val)
  {
    hide Armed;
    SameContext(img.width, At(s.mem, s.regs.sp), s.regs.sp + Bytes(img.width), a.regs, s.regs);
  }
}
