/** The machine as an object that executes instructions in place, and the routines as calls
    on such an object. */
module Cpu {
  import opened Machine
  import opened JumpCode
  import C = CancellableSyscall
  import G = Sigsetjmp
  import N = NonlocalJumps

  class Processor {
    var pc: int
    var regs: Regs
    var mem: Memory
    var zf: bool
    var ok: bool
    const mapped: set<int>

    function View(): State
      reads this
    {
      State(pc, regs, mem, zf, ok, mapped)
    }

    constructor (s: State)
      ensures View() == s
    {
      pc, regs, mem, zf, ok, mapped := s.pc, s.regs, s.mem, s.zf, s.ok, s.mapped;
    }

    method Touch(a: int)
      modifies this`ok
      ensures ok == (old(ok) && a in mapped)
    {
      if a !in mapped {
        ok := false;
      }
    }

    method Poke(a: int, v: int)
      modifies this`mem, this`ok
      ensures mem == old(mem)[a := v] && ok == (old(ok) && a in mapped)
    {
      Touch(a);
      mem := mem[a := v];
    }

    method PushWord(w: Width, v: int)
      modifies this`regs, this`mem, this`ok
      ensures
        var top := Wrap(w, old(regs.sp) - Bytes(w));
        regs == old(regs).(sp := top) && mem == old(mem)[top := v] && ok == (old(ok) && top in mapped)
    {
      regs := regs.(sp := Wrap(w, regs.sp - Bytes(w)));
      Poke(regs.sp, v);
    }

    method PopWord(w: Width) returns (v: int)
      modifies this`regs, this`ok
      ensures v == At(mem, old(regs.sp)) && regs == old(regs).(sp := Wrap(w, old(regs.sp) + Bytes(w)))
      ensures ok == (old(ok) && old(regs.sp) in mapped)
    {
      Touch(regs.sp);
      v := At(mem, regs.sp);
      regs := regs.(sp := Wrap(w, regs.sp + Bytes(w)));
    }

    method Execute(w: Width, i: Instr)
      modifies this
      ensures View() == Exec(w, i, old(View()))
    {
      hide Wrap, At, Low32, Xor1;
      pc := pc + 1;
      match i {
        case Mov(d, r) =>
          regs := regs.Set(d, regs.Get(r));
        case MovL(d, r) =>
          regs := regs.Set(d, Low32(regs.Get(r)));
        case Lea(d, b, disp) =>
          regs := regs.Set(d, Wrap(w, regs.Get(b) + disp));
        case Load(d, b, disp) =>
          var a := Wrap(w, regs.Get(b) + disp);
          Touch(a);
          regs := regs.Set(d, At(mem, a));
        case Store(b, disp, r) =>
          Poke(Wrap(w, regs.Get(b) + disp), regs.Get(r));
        case Push(b, disp) =>
          var a := Wrap(w, regs.Get(b) + disp);
          Touch(a);
          PushWord(w, At(mem, a));
        case Pop(b, disp) =>
          var v := PopWord(w);
          Poke(Wrap(w, regs.Get(b) + disp), v);
        case TestL(r) =>
          zf := Low32(regs.Get(r)) == 0;
        case ZeroL(d) =>
          regs := regs.Set(d, 0);
          zf := true;
        case FlipL(d) =>
          var v := Xor1(Low32(regs.Get(d)));
          regs := regs.Set(d, v);
          zf := v == 0;
        case Jnz(target) =>
          if !zf {
            pc := target;
          }
        case Jmp(target) =>
          pc := target;
        case JmpR(r) =>
          pc := regs.Get(r);
        case Call(target) =>
          PushWord(w, pc);
          pc := target;
        case Ret =>
          pc := PopWord(w);
      }
    }

    /** Fetch and execute `n` times. */
    method RunFor(img: Image, n: nat)
      modifies this
      ensures View() == Run(img, old(View()), n)
    {
      var left := n;
      while left > 0
        invariant 0 <= left <= n
        invariant Run(img, View(), left) == Run(img, old(View()), n)
      {
        var line := Fetch(img, pc);
        if line.Line? {
          Execute(img.width, line.instr);
        }
        left := left - 1;
      }
    }

    method CallSetjmp(img: Image)
      requires N.Entered(img, View(), img.setjmp)
      requires N.OffStack(img.width, N.BufferArg(img.width, View()), regs.sp)
      modifies this
      ensures N.SetjmpDone(img.width, old(View()), old(N.BufferArg(img.width, View())), View())
    {
      hide N.Entered, N.SetjmpDone, N.OffStack, N.BufferArg, Run;
      N.SetjmpReturns(img, View());
      RunFor(img, N.SetjmpSteps(img.width));
    }

    method CallLongjmp(img: Image)
      requires N.LongjmpEntered(img, View())
      modifies this
      ensures N.LongjmpDone(img.width, old(View()), View())
    {
      hide N.LongjmpEntered, N.LongjmpDone, N.IntArg, Run;
      N.LongjmpResumes(img, View());
      RunFor(img, N.LongjmpSteps(img.width, N.IntArg(img.width, View())));
    }

    // A masked call of sigsetjmp, up to the tail.
    method CallSigsetjmp(img: Image)
      requires G.MaskedCall(img, View())
      modifies this
      ensures View() == G.Arrival(img, old(View()), [], 0)
      ensures
        var w, s := img.width, old(View());
        G.Arrived(img, View(), N.BufferArg(w, s), N.CallerContext(w, s), 0)
    {
      hide G.MaskedCall, G.Arrived, Run;
      G.SigsetjmpArrives(img, View());
      RunFor(img, G.FirstSteps(img.width));
    }

    // A longjmp through a buffer that sigsetjmp armed, up to the tail.
    method JumpBack(img: Image, ghost buf: int, ghost c: N.Context)
      requires N.LongjmpEntered(img, View()) && N.BufferArg(img.width, View()) == buf
      requires G.LiveFrame(img, View(), buf, c) && G.Armed(img, mem, buf, c)
      modifies this
      ensures
        View() == Run(img, old(View()), N.LongjmpSteps(img.width, old(N.IntArg(img.width, View()))) + 5)
      ensures G.Arrived(img, View(), buf, c, N.Delivered(old(N.IntArg(img.width, View()))))
    {
      hide N.LongjmpEntered, G.LiveFrame, G.Armed, G.Arrived, N.IntArg, N.BufferArg, Run;
      G.LongjmpArrives(img, View(), buf, c);
      RunFor(img, N.LongjmpSteps(img.width, N.IntArg(img.width, View())) + 5);
    }

    // What foreign code leaves behind.
    method Become(s: State)
      requires s.mapped == mapped
      modifies this
      ensures View() == s
    {
      pc, regs, mem, zf, ok := s.pc, s.regs, s.mem, s.zf, s.ok;
    }

    /** One masked call of sigsetjmp and one longjmp after another, with foreign code between
        them: the object is at the tail each time, in the frame of the call. */
    method ReturnManyTimes(img: Image, calls: seq<State>)
      requires G.MaskedCall(img, View())
      requires forall i :: 0 <= i < |calls| ==>
        && calls[i].mapped == mapped
        && G.Foreign(img, G.Arrival(img, View(), calls, i), calls[i],
                     N.BufferArg(img.width, View()), N.CallerContext(img.width, View()))
      modifies this
      ensures View() == G.Arrival(img, old(View()), calls, |calls|)
      ensures
        var w, s := img.width, old(View());
        G.Arrived(img, View(), N.BufferArg(w, s), N.CallerContext(w, s), G.Value(img, calls, |calls|))
    {
      hide G.MaskedCall, G.Foreign, G.Arrived, N.BufferArg, N.CallerContext, N.IntArg, Run;
      ghost var s := View();
      CallSigsetjmp(img);
      var i := 0;
      while i < |calls|
        invariant 0 <= i <= |calls|
        invariant View() == G.Arrival(img, s, calls, i)
      {
        Become(calls[i]);
        i := i + 1;
        RunFor(img, N.LongjmpSteps(img.width, N.IntArg(img.width, View())) + 5);
      }
      G.EveryArrival(img, s, calls, |calls|);
    }

    // The cancellable call, with the table and the entry points it ends in; the cancellation
    // word is a 32-bit flag and what lies above it.
    method CallSyscallCp(img: Image, table: C.Table, entries: C.Entries, ghost flag: int, ghost above: int)
      returns (o: C.Outcome)
      requires C.Entered(img, View()) && img.cancel != img.dispatcher && Fetch(img, img.cancel).Nothing?
      requires At(mem, regs.cx) == flag + 0x1_0000_0000 * above && 0 <= flag < 0x1_0000_0000
      modifies this
      ensures o == C.Ending(img, table, entries, old(View()))
      ensures if flag != 0 then o == C.Cancelled else o.Replied? && o.back == At(old(mem), old(regs.sp))
    {
      hide C.Entered, Run, Fetch, C.SyscallDisp;
      C.CancellableCall(img, table, entries, View(), flag, above);
      RunFor(img, 15);
      o := if pc == img.cancel then C.Cancelled
           else if pc == img.dispatcher then C.Replied(C.SyscallDisp(table, entries, View()), At(mem, regs.sp))
           else C.Lost(pc);
    }
  }
}
