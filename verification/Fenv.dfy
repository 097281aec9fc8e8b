/** The floating-point environment routines of nt64, each one a method that updates the
    machine instruction by instruction, proved against what it does to the hardware. */
module Fenv {
  import opened FloatUnit
  import opened Bits

  const FE_ALL_EXCEPT: bv32 := 0x3F
  const FE_RC_MASK: bv32 := 0xC00
  const MXCSR_RC_MASK: bv32 := 0x6000
  const FPU_CW_RC_MASK: bv16 := 0xF3FF
  const MXCSR_CW_RC_MASK: bv16 := 0x9FFF

  // At entry: the return address can be read, and the 32 bytes below it used.
  predicate Ready(s: State) {
    && s.ok && s.sp in s.mapped && s.sp + 4 in s.mapped
    && s.sp - 32 in s.mapped && s.sp - 28 in s.mapped && s.sp - 24 in s.mapped && s.sp - 20 in s.mapped
    && s.sp - 16 in s.mapped && s.sp - 12 in s.mapped && s.sp - 8 in s.mapped && s.sp - 4 in s.mapped
  }

  // The routine ran without a fault and went back to its caller, with the stack pointer
  // above the return address it found.
  predicate BackFrom(s: State, t: State) {
    && t.ok && t.mapped == s.mapped && t.sp == s.sp + 8
    && t.ret == Word(At(s.mem, s.sp + 4), At(s.mem, s.sp))
  }

  // No memory changed but the scratch area below the stack pointer.
  ghost predicate OnlyScratch(s: State, t: State) {
    forall a :: a < s.sp - 32 || s.sp <= a ==> At(t.mem, a) == At(s.mem, a)
  }

  // ---- what the routines are for, in terms of the hardware

  // The exception flags: a flag is set when either unit has it.
  function Flags(h: Hardware): bv32 {
    ((h.x87.status as bv32) | h.mxcsr) & FE_ALL_EXCEPT
  }

  // The x87 flags.
  function Live(h: Hardware): bv32 {
    (h.x87.status as bv32) & FE_ALL_EXCEPT
  }

  // The rounding mode of MXCSR and of the x87 unit, as the user sees it.
  function Round(h: Hardware): bv32 {
    (h.mxcsr & MXCSR_RC_MASK) >> 3
  }

  function X87Round(h: Hardware): bv32 {
    (h.x87.control as bv32) & FE_RC_MASK
  }

  const ZERO := Word(0, 0)

  // The flags in `ex` are gone and no others; nothing else changed in MXCSR, and without a
  // flag to clear nothing at all.  The x87 unit is left alone unless one of its own flags has
  // to go; then all of its flags are cleared, and the surviving ones are in MXCSR.
  predicate ClearedFlags(h: Hardware, ex: bv32, t: Hardware) {
    && Flags(t) == Flags(h) & !ex
    && t.mxcsr & !FE_ALL_EXCEPT == h.mxcsr & !FE_ALL_EXCEPT
    && (ex & Flags(h) == 0 ==> t == h)
    && (if ex & Live(h) == 0 then t.x87 == h.x87
        else t.x87 == h.x87.(status := h.x87.status & 0x7F00) && t.mxcsr & FE_ALL_EXCEPT == Flags(t))
  }

  function RaisedFlags(h: Hardware, ex: bv32): Hardware {
    h.(mxcsr := Bor(h.mxcsr, Band(ex, FE_ALL_EXCEPT)))
  }

  function Rounded(h: Hardware, mode: bv32): Hardware {
    Hardware(h.x87.(control := ControlFor(h.x87.control, mode)), MxcsrFor(h.mxcsr, mode))
  }

  function MaskedX87(h: Hardware): Hardware {
    h.(x87 := h.x87.(control := h.x87.control | FLAGS))
  }

  const DEFAULT_ENV := Hardware(X87(0x037f, 0, 0xffff, 0, 0, 0, 0, 0), 0x1f80)

  // The contents of a `fenv_t`.
  function EnvAt(m: Memory, a: int): Hardware {
    Hardware(LoadEnv(m, a), At(m, a + 0x1C))
  }

  predicate HasEnv(s: State, a: int) {
    EnvMapped(s.mapped, a) && a + 28 in s.mapped
  }

  // FE_DFL_ENV
  const DEFAULT_ARG := Word(0xFFFF_FFFF, 0xFFFF_FFFF)

  // ---- the same, bit by bit

  lemma FlagsMean(h: Hardware)
    ensures Flags(h) == ((h.x87.status as bv32) | h.mxcsr) & 0x3F
  {}

  lemma ClearedMeans(h: Hardware, ex: bv32, t: Hardware)
    requires ClearedFlags(h, ex, t)
    ensures ((t.x87.status as bv32) | t.mxcsr) & 0x3F == ((h.x87.status as bv32) | h.mxcsr) & 0x3F & !ex
    ensures t.mxcsr & 0xFFFF_FFC0 == h.mxcsr & 0xFFFF_FFC0
  {
    FlagsMean(h);
    FlagsMean(t);
    AboveFlags(h.mxcsr);
    AboveFlags(t.mxcsr);
    hide Flags, Live;
  }

  lemma ClearedMeansX87(h: Hardware, ex: bv32, t: Hardware)
    requires ClearedFlags(h, ex, t)
    ensures
      t.x87 == h.x87.(status := if ex & 0x3F & (h.x87.status as bv32) == 0 then h.x87.status
                                else h.x87.status & 0x7F00)
  {
    LiveTest(h, ex);
    hide Flags, Live;
  }

  lemma LiveTest(h: Hardware, ex: bv32)
    ensures ex & Live(h) == 0 <==> ex & 0x3F & (h.x87.status as bv32) == 0
  {}

  lemma RaisedMeans(h: Hardware, ex: bv32)
    ensures RaisedFlags(h, ex).x87 == h.x87 && RaisedFlags(h, ex).mxcsr == h.mxcsr | (ex & 0x3F)
  {
    Raised(h.mxcsr, ex);
    hide Bor, Band;
  }

  lemma RaisedKeepsControl(h: Hardware, ex: bv32)
    ensures RaisedFlags(h, ex).mxcsr & 0xFFFF_FFC0 == h.mxcsr & 0xFFFF_FFC0
  {
    RaisedMeans(h, ex);
    hide RaisedFlags, Bor, Band;
    RaisedKeepsRest(h.mxcsr, ex, RaisedFlags(h, ex).mxcsr);
  }

  lemma RoundMeans(h: Hardware)
    ensures Round(h) == ((h.mxcsr >> 13) & 3) << 10
    ensures X87Round(h) == (((h.x87.control as bv32) >> 10) & 3) << 10
  {}

  lemma RoundedMeans(h: Hardware, mode: bv32)
    ensures
      var t := Rounded(h, mode);
      && t.x87 == h.x87.(control := t.x87.control)
      && (t.x87.control as bv32) == ((h.x87.control as bv32) & 0xFFFF_F3FF) | (mode & 0xC00)
      && t.mxcsr == (h.mxcsr & 0xFFFF_9FFF) | (((mode >> 10) & 3) << 13)
  {
    ControlForBits(h.x87.control, mode);
    MxcsrForBits(h.mxcsr, mode);
    hide ControlFor, MxcsrFor;
  }

  lemma MaskedMeans(h: Hardware)
    ensures MaskedX87(h).mxcsr == h.mxcsr && MaskedX87(h).x87 == h.x87.(control := h.x87.control | 0x3F)
  {}

  // The members of a `fenv_t`.
  lemma EnvLayout(m: Memory, p: int)
    ensures
      var x := EnvAt(m, p).x87;
      && (x.control as bv32) == At(m, p) & 0xFFFF
      && (x.status as bv32) == At(m, p + 4) & 0x7F7F
      && (x.tags as bv32) == At(m, p + 8) & 0xFFFF
      && x.ip == At(m, p + 12)
      && (x.cs as bv32) == At(m, p + 16) & 0xFFFF && (x.opcode as bv32) == (At(m, p + 16) >> 16) & 0x7FF
      && x.dp == At(m, p + 20)
      && (x.ds as bv32) == At(m, p + 24) & 0xFFFF
    ensures EnvAt(m, p).mxcsr == At(m, p + 28)
  {}

  lemma DefaultMeans()
    ensures DEFAULT_ENV.x87.control == 0x37f && DEFAULT_ENV.x87.status == 0 && DEFAULT_ENV.x87.tags == 0xffff
    ensures DEFAULT_ENV.x87 == X87(0x37f, 0, 0xffff, 0, 0, 0, 0, 0) && DEFAULT_ENV.mxcsr == 0x1f80
  {}

  // ---- the routines

  // Where MXCSR is spilled to the stack and read back.
  predicate Room(s: State) {
    s.ok && s.sp - 8 in s.mapped && s.sp - 4 in s.mapped
  }

  lemma SpillInto(s: State, r: Reg, d: Reg)
    requires Room(s) && (d.DX? || d.AX?)
    ensures
      var t := Pop(Stmxcsr(Push(s, r), s.sp - 8), d);
      && t == Set(s.(mem := t.mem), d, Word(Get(s, r).hi, s.hw.mxcsr))
      && t.mem == s.mem[s.sp - 8 := Get(s, r).lo][s.sp - 4 := Get(s, r).hi][s.sp - 8 := s.hw.mxcsr]
  {
    hide Get;
  }

  lemma UnionOfFlags(ax: bv32, x: X87, mxcsr: bv32, ex: bv32)
    ensures
      (WithLow(ax, StatusWord(x)) | mxcsr) & (ex & FE_ALL_EXCEPT) == Flags(Hardware(x, mxcsr)) & ex
  {}

  method Fetestexcept(s0: State) returns (s: State)
    requires Ready(s0)
    ensures BackFrom(s0, s) && OnlyScratch(s0, s) && s.hw == s0.hw
    ensures s.ax == Word(0, Flags(s0.hw) & s0.cx.lo)
  {
    s := AndI(s0, CX, FE_ALL_EXCEPT);
    SpillInto(s, R10, DX);
    hide Push, Pop, Stmxcsr, StatusWord, Flags;
    s := Push(s, R10);
    s := Stmxcsr(s, s0.sp - 8);
    s := Pop(s, DX);
    UnionOfFlags(s.ax.lo, s0.hw.x87, s0.hw.mxcsr, s0.cx.lo);
    s := FnstswAx(s);
    s := Or(s, AX, DX);
    s := And(s, AX, CX);
    s := Ret(s);
  }

  lemma FlagsOfStatus(ax: bv32, x: X87)
    ensures WithLow(ax, StatusWord(x)) & FE_ALL_EXCEPT == (x.status as bv32) & FE_ALL_EXCEPT
  {}

  // The x87 half of feclearexcept.
  lemma ClearX87(s: State)
    ensures
      var t := Test(AndI(AndI(FnstswAx(s), CX, FE_ALL_EXCEPT), AX, FE_ALL_EXCEPT), CX, AX);
      var mask := Band(s.cx.lo, FE_ALL_EXCEPT);
      t == s.(ax := Word(0, Live(s.hw)), cx := Word(0, mask), zf := Band(mask, Live(s.hw)) == 0)
  {
    FlagsOfStatus(s.ax.lo, s.hw.x87);
    hide StatusWord;
  }

  // dx goes to MXCSR by way of the stack.
  lemma Reload(s: State)
    requires Room(s) && NoReserved(s.dx.lo)
    ensures
      var t := Pop(Ldmxcsr(Push(s, DX), s.sp - 8), DX);
      && t == s.(hw := s.hw.(mxcsr := s.dx.lo), mem := t.mem)
      && t.mem == s.mem[s.sp - 8 := s.dx.lo][s.sp - 4 := s.dx.hi]
  {
    var t := Ldmxcsr(Push(s, DX), s.sp - 8);
    assert At(t.mem, s.sp - 8) == s.dx.lo && At(t.mem, s.sp - 4) == s.dx.hi;
  }

  lemma FlagsByUnit(h: Hardware)
    ensures Live(h) & !FE_ALL_EXCEPT == 0 && Flags(h) == (Live(h) | h.mxcsr) & FE_ALL_EXCEPT
  {}

  lemma WipedFlags(h: Hardware, x: X87)
    requires h.x87 == x.(status := x.status & 0x7F00)
    ensures Flags(h) == h.mxcsr & FE_ALL_EXCEPT
  {}

  // Whether something is to be cleared, in the two forms that the routine tests.
  lemma MaskedTests(h: Hardware, ex: bv32)
    ensures Band(Band(ex, FE_ALL_EXCEPT), Live(h)) == 0 <==> ex & Live(h) == 0
    ensures Band(Band(ex, FE_ALL_EXCEPT), Bor(h.mxcsr, Live(h))) == 0 <==> ex & Flags(h) == 0
  {
    FlagsByUnit(h);
    hide Flags, Live;
    MaskedTest(ex, Live(h));
    MaskedUnionTest(ex, h.mxcsr, Live(h));
  }

  lemma MaskedTest(ex: bv32, live: bv32)
    requires live & !FE_ALL_EXCEPT == 0
    ensures Band(Band(ex, FE_ALL_EXCEPT), live) == 0 <==> ex & live == 0
  {}

  lemma MaskedUnionTest(ex: bv32, m: bv32, live: bv32)
    ensures Band(Band(ex, FE_ALL_EXCEPT), Bor(m, live)) == 0 <==> ex & ((live | m) & FE_ALL_EXCEPT) == 0
  {}

  // The three outcomes of feclearexcept: nothing to clear, flags in MXCSR only, or some
  // in the x87 unit.
  lemma ClearedNothing(h: Hardware, ex: bv32)
    requires Band(Band(ex, FE_ALL_EXCEPT), Bor(h.mxcsr, Live(h))) == 0
    ensures ClearedFlags(h, ex, h) && Band(Band(ex, FE_ALL_EXCEPT), Live(h)) == 0
  {
    FlagsByUnit(h);
    MaskedTests(h, ex);
    NothingToClear(h.mxcsr, Live(h), ex);
    hide Flags, Live;
  }

  lemma ClearedMxcsr(h: Hardware, ex: bv32, t: Hardware)
    requires Band(Band(ex, FE_ALL_EXCEPT), Live(h)) == 0
    requires Band(Band(ex, FE_ALL_EXCEPT), Bor(h.mxcsr, Live(h))) != 0
    requires t == h.(mxcsr := Band(Bor(h.mxcsr, Live(h)), Bnot(Band(ex, FE_ALL_EXCEPT))))
    ensures ClearedFlags(h, ex, t)
  {
    FlagsByUnit(h);
    FlagsByUnit(t);
    assert Live(t) == Live(h);
    MaskedTests(h, ex);
    hide Flags, Live;
    ClearedBesideLive(h.mxcsr, Live(h), ex);
    ClearedKeepsRest(h.mxcsr, Live(h), ex);
  }

  lemma ClearedBoth(h: Hardware, ex: bv32, t: Hardware)
    requires Band(Band(ex, FE_ALL_EXCEPT), Live(h)) != 0
    requires Band(Band(ex, FE_ALL_EXCEPT), Bor(h.mxcsr, Live(h))) != 0
    requires t.mxcsr == Band(Bor(h.mxcsr, Live(h)), Bnot(Band(ex, FE_ALL_EXCEPT)))
    requires t.x87 == h.x87.(status := h.x87.status & 0x7F00)
    ensures ClearedFlags(h, ex, t)
  {
    FlagsByUnit(h);
    WipedFlags(t, h.x87);
    MaskedTests(h, ex);
    hide Flags, Live;
    ClearedUnion(h.mxcsr, Live(h), ex);
    ClearedKeepsRest(h.mxcsr, Live(h), ex);
  }

  // MXCSR after its flags were joined with `live` and those in `mask` cleared.
  function ClearedSse(m: bv32, live: bv32, mask: bv32): bv32 {
    if Band(mask, Bor(m, live)) == 0 then m else Band(Bor(m, live), Bnot(mask))
  }

  lemma FlagsCleared(h: Hardware, ex: bv32, t: Hardware)
    requires
      var mask := Band(ex, FE_ALL_EXCEPT);
      && t.mxcsr == ClearedSse(h.mxcsr, Live(h), mask)
      && t.x87 == (if Band(mask, Live(h)) == 0 then h.x87 else h.x87.(status := h.x87.status & 0x7F00))
    ensures ClearedFlags(h, ex, t)
  {
    hide ClearedFlags, Band, Bor, Bnot, Live;
    var mask := Band(ex, FE_ALL_EXCEPT);
    if Band(mask, Bor(h.mxcsr, Live(h))) == 0 {
      ClearedNothing(h, ex);
    } else if Band(mask, Live(h)) == 0 {
      ClearedMxcsr(h, ex, t);
    } else {
      ClearedBoth(h, ex, t);
    }
  }

  lemma ClearedNoReserved(h: Hardware, ex: bv32)
    requires NoReserved(h.mxcsr)
    ensures NoReserved(Band(Bor(h.mxcsr, Live(h)), Bnot(Band(ex, FE_ALL_EXCEPT))))
  {
    FlagsByUnit(h);
    ClearedStaysLow(h.mxcsr, Live(h), ex);
  }

  lemma StatusSpill(s: State, live: bv32, mask: bv32)
    requires s.ax == Word(0, live) && s.cx == Word(0, mask) && s.dx.lo == s.hw.mxcsr
    ensures
      var both := Bor(s.hw.mxcsr, live);
      var t := Test(Or(s, DX, AX), CX, DX);
      t == s.(dx := Word(0, both), zf := Band(mask, both) == 0)
  {
    hide Band, Bor;
  }

  lemma MaskOut(s: State, both: bv32, mask: bv32)
    requires s.dx == Word(0, both) && s.cx == Word(0, mask)
    ensures
      var t := And(Not(s, CX), DX, CX);
      t == s.(dx := Word(0, Band(both, Bnot(mask))), cx := Word(0, Bnot(mask)), zf := t.zf)
  {
    hide Band, Bnot;
  }

  // From the first label `1:` of feclearexcept to the second one.
  method ClearSseFlags(s0: State, ghost live: bv32, ghost mask: bv32) returns (s: State)
    requires Room(s0) && s0.ax == Word(0, live) && s0.cx == Word(0, mask)
    requires NoReserved(Band(Bor(s0.hw.mxcsr, live), Bnot(mask)))
    ensures s.ok && s.sp == s0.sp && s.mapped == s0.mapped && OnlyScratch(s0, s)
    ensures s.hw == s0.hw.(mxcsr := ClearedSse(s0.hw.mxcsr, live, mask))
  {
    hide Test, Push, Stmxcsr, Pop, Or, Not, And, Ldmxcsr, Band, Bor, Bnot, NoReserved;
    ghost var both := Bor(s0.hw.mxcsr, live);
    SpillInto(s0, DX, DX);
    s := Push(s0, DX);
    s := Stmxcsr(s, s0.sp - 8);
    s := Pop(s, DX);
    StatusSpill(s, live, mask);
    s := Or(s, DX, AX);
    s := Test(s, CX, DX);
    if !s.zf {
      MaskOut(s, both, mask);
      s := Not(s, CX);
      s := And(s, DX, CX);
      Reload(s);
      s := Push(s, DX);
      s := Ldmxcsr(s, s0.sp - 8);
      s := Pop(s, DX);
    }
  }

  method Feclearexcept(s0: State) returns (s: State)
    requires Ready(s0) && NoReserved(s0.hw.mxcsr)
    ensures BackFrom(s0, s) && OnlyScratch(s0, s) && s.ax == ZERO
    ensures ClearedFlags(s0.hw, s0.cx.lo, s.hw)
  {
    ghost var mask := Band(s0.cx.lo, FE_ALL_EXCEPT);
    ClearedNoReserved(s0.hw, s0.cx.lo);
    hide FnstswAx, AndI, Test, ClearedFlags, Live, Band, Bor, Bnot, ClearedSse, NoReserved;
    ClearX87(s0);
    s := FnstswAx(s0);
    s := AndI(s, CX, FE_ALL_EXCEPT);
    s := AndI(s, AX, FE_ALL_EXCEPT);
    s := Test(s, CX, AX);
    if !s.zf {
      s := Fnclex(s);
    }
    s := ClearSseFlags(s, Live(s0.hw), mask);
    FlagsCleared(s0.hw, s0.cx.lo, s.hw);
    s := Clear(s, AX);
    s := Ret(s);
  }

  // The flags go to MXCSR by way of a cell below the stack pointer.
  lemma RaiseMxcsr(s: State, ex: bv32)
    requires s.ok && s.sp - 8 in s.mapped && s.cx.lo == Band(ex, FE_ALL_EXCEPT) && NoReserved(s.hw.mxcsr)
    ensures
      var t := Ldmxcsr(OrM(Stmxcsr(s, s.sp - 8), s.sp - 8, CX), s.sp - 8);
      && t == s.(hw := RaisedFlags(s.hw, ex), mem := t.mem, zf := t.zf)
      && (forall a :: a != s.sp - 8 ==> At(t.mem, a) == At(s.mem, a))
  {
    RaisedStaysLow(s.hw.mxcsr, ex);
    hide Band, Bor, NoReserved;
  }

  method Feraiseexcept(s0: State) returns (s: State)
    requires Ready(s0) && NoReserved(s0.hw.mxcsr)
    ensures BackFrom(s0, s) && OnlyScratch(s0, s) && s.ax == ZERO
    ensures s.hw == RaisedFlags(s0.hw, s0.cx.lo)
    ensures s.hw.x87 == s0.hw.x87 && s.hw.mxcsr == s0.hw.mxcsr | (s0.cx.lo & 0x3F)
  {
    hide Stmxcsr, OrM, Ldmxcsr, Band, NoReserved, RaisedFlags;
    RaisedMeans(s0.hw, s0.cx.lo);
    s := AndI(s0, CX, FE_ALL_EXCEPT);
    var cell := s.sp - 8;
    RaiseMxcsr(s, s0.cx.lo);
    s := Stmxcsr(s, cell);
    s := OrM(s, cell, CX);
    s := Ldmxcsr(s, cell);
    s := Clear(s, AX);
    s := Ret(s);
  }

  method Fegetround(s0: State) returns (s: State)
    requires Ready(s0)
    ensures BackFrom(s0, s) && OnlyScratch(s0, s) && s.hw == s0.hw
    ensures s.ax == Word(0, Round(s0.hw))
  {
    SpillInto(s0, DX, AX);
    hide Push, Stmxcsr, Pop;
    s := Push(s0, DX);
    s := Stmxcsr(s, s.sp);
    s := Pop(s, AX);
    s := AndQ(s, AX, MXCSR_RC_MASK);
    s := ShrQ(s, AX);
    s := Ret(s);
  }

  // The first half of __fesetround: the x87 control word.
  lemma SetControl(s: State, mode: bv32)
    requires s.ok && s.sp in s.mapped && s.cx.lo == Band(mode, FE_RC_MASK)
    ensures
      var t := Fldcw(OrM(AndWM(Fnstcw(s, s.sp), s.sp, FPU_CW_RC_MASK), s.sp, CX), s.sp);
      && t == s.(hw := s.hw.(x87 := s.hw.x87.(control := ControlFor(s.hw.x87.control, mode))),
                 mem := t.mem, zf := t.zf)
      && (forall a :: a != s.sp ==> At(t.mem, a) == At(s.mem, a))
  {
    AssembledControl(At(s.mem, s.sp), s.hw.x87.control, mode);
    hide WithLow, Bor, Low16, ControlFor, Band;
  }

  // The second half: MXCSR.
  lemma SetMxcsr(s: State, mode: bv32)
    requires s.ok && s.sp in s.mapped && s.cx.lo == Bshl3(Band(mode, FE_RC_MASK))
    requires NoReserved(s.hw.mxcsr)
    ensures
      var t := Ldmxcsr(OrM(AndWM(Stmxcsr(s, s.sp), s.sp, MXCSR_CW_RC_MASK), s.sp, CX), s.sp);
      && t == s.(hw := s.hw.(mxcsr := MxcsrFor(s.hw.mxcsr, mode)), mem := t.mem, zf := t.zf)
      && (forall a :: a != s.sp ==> At(t.mem, a) == At(s.mem, a))
  {
    hide WithLow, Bor, Band, Low16, MxcsrFor, Bshl3, NoReserved;
    AssembledMxcsr(s.hw.mxcsr, mode);
    MxcsrForStaysLow(s.hw.mxcsr, mode);
  }

  method Fesetround(s0: State) returns (s: State)
    requires Ready(s0) && NoReserved(s0.hw.mxcsr)
    ensures BackFrom(s0, s) && OnlyScratch(s0, s) && s.ax == ZERO
    ensures s.hw == Rounded(s0.hw, s0.cx.lo)
    ensures s.hw.x87 == s0.hw.x87.(control := s.hw.x87.control)
    ensures (s.hw.x87.control as bv32) == ((s0.hw.x87.control as bv32) & 0xFFFF_F3FF) | (s0.cx.lo & 0xC00)
    ensures s.hw.mxcsr == (s0.hw.mxcsr & 0xFFFF_9FFF) | (((s0.cx.lo >> 10) & 3) << 13)
  {
    RoundedMeans(s0.hw, s0.cx.lo);
    hide Fnstcw, AndWM, OrM, Fldcw, Stmxcsr, Ldmxcsr, Band, Bshl3, NoReserved, ControlFor, MxcsrFor;
    ghost var mode := s0.cx.lo;
    s := Push(s0, DX);
    var top := s.sp;
    s := AndI(s, CX, FE_RC_MASK);
    SetControl(s, mode);
    s := Fnstcw(s, top);
    s := AndWM(s, top, FPU_CW_RC_MASK);
    s := OrM(s, top, CX);
    s := Fldcw(s, top);
    s := Shl(s, CX);
    SetMxcsr(s, mode);
    s := Stmxcsr(s, top);
    s := AndWM(s, top, MXCSR_CW_RC_MASK);
    s := OrM(s, top, CX);
    s := Ldmxcsr(s, top);
    s := Pop(s, DX);
    s := Clear(s, AX);
    s := Ret(s);
  }

  // What the unit guarantees: the summary bits are derived, the opcode has eleven bits.
  predicate ValidX87(x: X87) {
    x.status & SUMMARY == 0 && x.opcode & 0x7FF == x.opcode
  }

  lemma StatusBehindSummary(x: X87)
    requires x.status & SUMMARY == 0
    ensures StatusWord(x) & !SUMMARY == x.status
  {}

  // Loading a stored image gives the environment back.
  lemma EnvRoundTrip(m: Memory, a: int, x: X87)
    requires ValidX87(x)
    ensures LoadEnv(StoreEnv(m, a, x), a) == x
  {
    StatusBehindSummary(x);
    ReservedHalf(x.control);
    ReservedHalf(StatusWord(x));
    ReservedHalf(x.tags);
    ReservedHalf(x.ds);
    PairHalves(x.cs, x.opcode);
    hide Reserved, Low16, High16, Pair, StatusWord;
  }

  ghost predicate OnlyEnv(s: State, t: State, p: int) {
    forall a :: a < p || p + 32 <= a ==> At(t.mem, a) == At(s.mem, a)
  }

  // The image ends where the MXCSR member begins.
  lemma ImageBesideMxcsr(m: Memory, p: int, x: X87, v: bv32)
    ensures
      var t := StoreEnv(m, p, x)[p + 0x1C := v];
      && LoadEnv(t, p) == LoadEnv(StoreEnv(m, p, x), p) && At(t, p + 0x1C) == v
      && (forall a :: a < p || p + 32 <= a ==> At(t, a) == At(m, a))
  {
    hide Reserved, Low16, High16, Pair, StatusWord;
  }

  method Fegetenv(s0: State) returns (s: State)
    requires Ready(s0) && HasEnv(s0, Address(s0.cx)) && ValidX87(s0.hw.x87)
    requires Address(s0.cx) + 32 <= s0.sp || s0.sp + 8 <= Address(s0.cx)
    ensures BackFrom(s0, s) && OnlyEnv(s0, s, Address(s0.cx)) && s.ax == ZERO
    ensures s.hw == MaskedX87(s0.hw)
    ensures EnvAt(s.mem, Address(s0.cx)) == s0.hw
  {
    var p := Address(s0.cx);
    EnvRoundTrip(s0.mem, p, s0.hw.x87);
    ImageBesideMxcsr(s0.mem, p, s0.hw.x87, s0.hw.mxcsr);
    hide Address, StatusWord, ValidX87, LoadEnv, StoreEnv, EnvMapped;
    s := Fnstenv(s0, p);
    s := Stmxcsr(s, p + 0x1C);
    s := Clear(s, AX);
    s := Ret(s);
  }

  // The image that fesetenv writes for FE_DFL_ENV, four 64-bit stores.
  function DefaultImage(m: Memory, a: int): Memory {
    m[a := 0x037f][a + 4 := 0][a + 8 := 0xffff][a + 12 := 0][a + 16 := 0][a + 20 := 0][a + 24 := 0][a + 28 := 0]
  }

  lemma LoadsDefault(m: Memory, a: int)
    ensures LoadEnv(DefaultImage(m, a), a) == DEFAULT_ENV.x87
  {
    var t := DefaultImage(m, a);
    assert At(t, a) == 0x037f && At(t, a + 4) == 0 && At(t, a + 8) == 0xffff && At(t, a + 12) == 0;
    assert At(t, a + 16) == 0 && At(t, a + 20) == 0 && At(t, a + 24) == 0;
    hide DefaultImage, At;
  }

  lemma DefaultStores(s: State)
    requires s.ok && EnvMapped(s.mapped, s.sp) && s.sp + 28 in s.mapped
    ensures
      var t := MovQ(MovQ(MovQ(MovQ(s, s.sp, 0x037f), s.sp + 0x8, 0xffff), s.sp + 0x10, 0), s.sp + 0x18, 0);
      t == s.(mem := DefaultImage(s.mem, s.sp))
  {}

  lemma DefaultMxcsr(s: State)
    requires s.ok && s.sp in s.mapped && s.sp + 4 in s.mapped
    ensures
      var t := Ldmxcsr(MovQ(s, s.sp, 0x1f80), s.sp);
      t == s.(hw := s.hw.(mxcsr := 0x1f80), mem := s.mem[s.sp := 0x1f80][s.sp + 4 := 0])
  {
    assert NoReserved(0x1f80);
    hide NoReserved;
  }

  // fesetenv with FE_DFL_ENV, from its label `1:` on.
  method SetDefaultEnv(s0: State) returns (s: State)
    requires Ready(s0)
    ensures BackFrom(s0, s) && OnlyScratch(s0, s) && s.ax == s0.ax
    ensures s.hw == DEFAULT_ENV
    ensures s.hw.x87 == X87(0x37f, 0, 0xffff, 0, 0, 0, 0, 0) && s.hw.mxcsr == 0x1f80
  {
    s := MoveSp(s0, -0x20);
    var top := s.sp;
    assert EnvMapped(s.mapped, top);
    hide LoadEnv, EnvMapped, MovQ, Ldmxcsr, Fldenv;
    DefaultStores(s);
    LoadsDefault(s.mem, top);
    s := MovQ(s, top, 0x037f);
    s := MovQ(s, top + 0x8, 0xffff);
    s := MovQ(s, top + 0x10, 0);
    s := MovQ(s, top + 0x18, 0);
    FldenvAt(s, top);
    s := Fldenv(s, top);
    DefaultMxcsr(s);
    s := MovQ(s, top, 0x1f80);
    s := Ldmxcsr(s, top);
    s := MoveSp(s, 0x20);
    s := Ret(s);
  }

  lemma FldenvAt(s: State, a: int)
    requires EnvMapped(s.mapped, a)
    ensures Fldenv(s, a) == s.(hw := s.hw.(x87 := LoadEnv(s.mem, a)))
  {
    hide LoadEnv;
  }

  // A stored MXCSR with a reserved bit set is refused by the hardware.
  method Fesetenv(s0: State) returns (s: State)
    requires Ready(s0) && (s0.cx == DEFAULT_ARG || HasEnv(s0, Address(s0.cx)))
    ensures
      if s0.cx == DEFAULT_ARG || NoReserved(EnvAt(s0.mem, Address(s0.cx)).mxcsr)
      then BackFrom(s0, s) else !s.ok
    ensures OnlyScratch(s0, s) && s.ax == ZERO
    ensures s.hw == if s0.cx == DEFAULT_ARG then DEFAULT_ENV else EnvAt(s0.mem, Address(s0.cx))
    ensures
      s0.cx == Word(0xFFFF_FFFF, 0xFFFF_FFFF) ==>
        s.hw.x87 == X87(0x37f, 0, 0xffff, 0, 0, 0, 0, 0) && s.hw.mxcsr == 0x1f80
  {
    hide Address, Low16, High16;
    s := Clear(s0, AX);
    s := CmpQ(s, CX);
    if s.zf {
      s := SetDefaultEnv(s);
      return;
    }
    s := Fldenv(s, Address(s.cx));
    s := Ldmxcsr(s, Address(s.cx) + 0x1C);
    s := Ret(s);
  }
}
