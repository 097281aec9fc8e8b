/** Runs of the floating-point environment routines, with any other floating-point code
    between the calls, refine a machine with one flag set and one rounding mode. */
module FenvRuns {
  import opened Bits
  import opened FloatUnit
  import opened Fenv

  datatype Call =
    | TestExcept(ex: Word)
    | ClearExcept(ex: Word)
    | RaiseExcept(ex: Word)
    | GetRound
    | SetRound(mode: Word)
    | GetEnv(env: Word)
    | SetEnv(env: Word)

  // ---- the abstract machine, after sections 7.6.2 to 7.6.4 of ISO C99

  datatype Mode = Mode(flags: bv32, round: bv32) {
    function Without(ex: bv32): Mode {
      this.(flags := flags & !ex)
    }

    function With(ex: bv32): Mode {
      this.(flags := flags | (ex & FE_ALL_EXCEPT))
    }

    function Turned(mode: bv32): Mode {
      this.(round := mode & FE_RC_MASK)
    }
  }

  // The current mode, and the ones stored in `fenv_t` objects, by their address.
  datatype Abstract = Abstract(now: Mode, saved: map<int, Mode>)

  predicate Overlap(p: int, q: int) {
    p < q + 32 && q < p + 32
  }

  function Save(a: Abstract, p: int): Abstract {
    a.(saved := (map q | q in a.saved && !Overlap(p, q) :: a.saved[q])[p := a.now])
  }

  // Only what the new environment overwrites is forgotten.
  lemma SaveKeepsOthers(a: Abstract, p: int, q: int)
    requires q in a.saved && (p + 32 <= q || q + 32 <= p)
    ensures Save(a, p).saved[p] == a.now && q in Save(a, p).saved && Save(a, p).saved[q] == a.saved[q]
  {}

  function Next(a: Abstract, c: Call): Abstract
    requires c.SetEnv? && c.env != DEFAULT_ARG ==> Address(c.env) in a.saved
  {
    match c
    case TestExcept(_) => a
    case ClearExcept(ex) => a.(now := a.now.Without(ex.lo))
    case RaiseExcept(ex) => a.(now := a.now.With(ex.lo))
    case GetRound => a
    case SetRound(mode) => a.(now := a.now.Turned(mode.lo))
    case GetEnv(p) => Save(a, Address(p))
    case SetEnv(p) => a.(now := if p == DEFAULT_ARG then Mode(0, 0) else a.saved[Address(p)])
  }

  function Answer(a: Abstract, c: Call): bv32 {
    match c
    case TestExcept(ex) => Band(a.now.flags, ex.lo)
    case GetRound => a.now.round
    case _ => 0
  }

  // ---- calls of the routines

  function ArgOf(c: Call, s: State): Word {
    match c
    case TestExcept(ex) => ex
    case ClearExcept(ex) => ex
    case RaiseExcept(ex) => ex
    case GetRound => s.cx
    case SetRound(mode) => mode
    case GetEnv(p) => p
    case SetEnv(p) => p
  }

  predicate Sound(h: Hardware) {
    ValidX87(h.x87) && NoReserved(h.mxcsr)
  }

  // A call as the routines demand it: the argument in rcx, stack space, and a `fenv_t`
  // that can be accessed and, when it is written, does not contain the return address.
  predicate Callable(c: Call, s: State) {
    && Ready(s) && s.cx == ArgOf(c, s)
    && (c.GetEnv? ==>
          HasEnv(s, Address(s.cx)) && (Address(s.cx) + 32 <= s.sp || s.sp + 8 <= Address(s.cx)))
    && (c.SetEnv? && c.env != DEFAULT_ARG ==> HasEnv(s, Address(s.cx)))
  }

  // The call loads no reserved bit into MXCSR from a `fenv_t`.
  predicate Loadable(c: Call, m: Memory) {
    c.SetEnv? && c.env != DEFAULT_ARG ==> NoReserved(EnvAt(m, Address(c.env)).mxcsr)
  }

  // What each call does to the hardware and to memory.
  ghost predicate Outcome(c: Call, s: State, t: State) {
    && (if Loadable(c, s.mem) then BackFrom(s, t) else !t.ok)
    && (if c.GetEnv? then OnlyEnv(s, t, Address(c.env)) else OnlyScratch(s, t))
    && match c
       case TestExcept(ex) => t.hw == s.hw && t.ax == Word(0, Band(Flags(s.hw), ex.lo))
       case ClearExcept(ex) => ClearedFlags(s.hw, ex.lo, t.hw) && t.ax == ZERO
       case RaiseExcept(ex) => t.hw == RaisedFlags(s.hw, ex.lo) && t.ax == ZERO
       case GetRound => t.hw == s.hw && t.ax == Word(0, Round(s.hw))
       case SetRound(mode) => t.hw == Rounded(s.hw, mode.lo) && t.ax == ZERO
       case GetEnv(p) =>
         t.hw == MaskedX87(s.hw) && EnvAt(t.mem, Address(p)) == s.hw && t.ax == ZERO
       case SetEnv(p) =>
         t.hw == (if p == DEFAULT_ARG then DEFAULT_ENV else EnvAt(s.mem, Address(p))) && t.ax == ZERO
  }

  /** Every routine does what `Outcome` says. */
  method Perform(c: Call, s: State) returns (t: State)
    requires Callable(c, s) && Sound(s.hw)
    ensures Outcome(c, s, t)
  {
    match c {
      case TestExcept(_) => t := Fetestexcept(s);
      case ClearExcept(_) => t := Feclearexcept(s);
      case RaiseExcept(_) => t := Feraiseexcept(s);
      case GetRound => t := Fegetround(s);
      case SetRound(_) => t := Fesetround(s);
      case GetEnv(_) => t := Fegetenv(s);
      case SetEnv(_) => t := Fesetenv(s);
    }
  }

  // ---- refinement

  // Both units carry the mode: the union of the flags, and the same rounding field.
  predicate Carries(h: Hardware, m: Mode) {
    Sound(h) && Flags(h) == m.flags && Round(h) == m.round && X87Round(h) == m.round
  }

  ghost predicate Refines(h: Hardware, mem: Memory, a: Abstract) {
    Carries(h, a.now) && forall p :: p in a.saved ==> Carries(EnvAt(mem, p), a.saved[p])
  }

  lemma ClearedCarries(h: Hardware, m: Mode, ex: bv32, t: Hardware)
    requires Carries(h, m) && ClearedFlags(h, ex, t)
    ensures Carries(t, m.Without(ex))
  {}

  lemma RaisedCarries(h: Hardware, m: Mode, ex: bv32)
    requires Carries(h, m)
    ensures Carries(RaisedFlags(h, ex), m.With(ex))
  {}

  lemma RoundedCarries(h: Hardware, m: Mode, mode: bv32)
    requires Carries(h, m)
    ensures Carries(Rounded(h, mode), m.Turned(mode))
  {}

  // Outside the rounding fields, both control registers stay as they were.
  lemma RoundedKeepsRest(h: Hardware, mode: bv32)
    ensures
      var t := Rounded(h, mode);
      && t.x87 == h.x87.(control := t.x87.control)
      && t.x87.control & !0xC00 == h.x87.control & !0xC00
      && t.mxcsr & !MXCSR_RC_MASK == h.mxcsr & !MXCSR_RC_MASK
  {}

  lemma MaskedCarries(h: Hardware, m: Mode)
    requires Carries(h, m)
    ensures Carries(MaskedX87(h), m)
  {}

  lemma DefaultCarries()
    ensures Carries(DEFAULT_ENV, Mode(0, 0))
  {}

  // An environment stays what it is when no cell of it changes.
  lemma EnvFrame(m: Memory, t: Memory, p: int)
    requires forall a :: p <= a < p + 32 ==> At(t, a) == At(m, a)
    ensures EnvAt(t, p) == EnvAt(m, p)
  {
    hide Low16, High16;
  }

  // The routines use the 32 bytes below the stack pointer, which no live `fenv_t` may.
  ghost predicate Undisturbed(saved: set<int>, sp: int) {
    forall p :: p in saved ==> p + 32 <= sp - 32 || sp <= p
  }

  // One call, on the mode alone.
  lemma CallCarries(c: Call, s: State, t: State, a: Abstract)
    requires Callable(c, s) && Outcome(c, s, t) && Refines(s.hw, s.mem, a)
    requires c.SetEnv? && c.env != DEFAULT_ARG ==> Address(c.env) in a.saved
    ensures Carries(t.hw, Next(a, c).now)
    ensures t.ax == Word(0, Answer(a, c))
  {
    hide Loadable, Carries, Flags, Round, X87Round, ClearedFlags, RaisedFlags, Rounded, MaskedX87;
    hide Ready, HasEnv, BackFrom, OnlyEnv, OnlyScratch, EnvAt, Address, Sound;
    hide Mode.With, Mode.Without, Mode.Turned, Band;
    match c {
      case TestExcept(ex) => CarriesFields(s.hw, a.now);
      case ClearExcept(ex) => ClearedCarries(s.hw, a.now, ex.lo, t.hw);
      case RaiseExcept(ex) => RaisedCarries(s.hw, a.now, ex.lo);
      case GetRound => CarriesFields(s.hw, a.now);
      case SetRound(mode) => RoundedCarries(s.hw, a.now, mode.lo);
      case GetEnv(p) => MaskedCarries(s.hw, a.now);
      case SetEnv(p) => DefaultCarries();
    }
  }

  lemma CarriesFields(h: Hardware, m: Mode)
    requires Carries(h, m)
    ensures Flags(h) == m.flags && Round(h) == m.round && X87Round(h) == m.round
  {}

  // A `fenv_t` that a call does not touch.
  predicate Spared(c: Call, s: State, p: int) {
    if c.GetEnv? then !Overlap(Address(c.env), p) else p + 32 <= s.sp - 32 || s.sp <= p
  }

  lemma CallSpares(c: Call, s: State, t: State, p: int)
    requires Outcome(c, s, t) && Spared(c, s, p)
    ensures EnvAt(t.mem, p) == EnvAt(s.mem, p)
  {
    EnvFrame(s.mem, t.mem, p);
    hide EnvAt, BackFrom, Address, Loadable;
  }

  /** One call of a routine is one step of the abstract machine, with its answer. */
  lemma CallRefines(c: Call, s: State, t: State, a: Abstract)
    requires Callable(c, s) && Outcome(c, s, t) && Refines(s.hw, s.mem, a)
    requires Undisturbed(a.saved.Keys, s.sp)
    requires c.SetEnv? && c.env != DEFAULT_ARG ==> Address(c.env) in a.saved
    ensures Refines(t.hw, t.mem, Next(a, c)) && t.ax == Word(0, Answer(a, c)) && BackFrom(s, t)
  {
    assert Loadable(c, s.mem) by {
      hide Callable, Outcome, BackFrom, Address;
    }
    CallCarries(c, s, t, a);
    hide Loadable, Callable, Carries, EnvAt, Address, Answer, ClearedFlags, RaisedFlags, Rounded, BackFrom;
    var b := Next(a, c);
    forall p | p in b.saved
      ensures Carries(EnvAt(t.mem, p), b.saved[p])
    {
      if c.GetEnv? && p == Address(c.env) {
        assert EnvAt(t.mem, p) == s.hw;
      } else {
        assert p in a.saved && Spared(c, s, p);
        CallSpares(c, s, t, p);
      }
    }
  }

  // ---- other floating-point code

  // Arithmetic raises sticky flags in either unit and may change the rest of the x87
  // state, but neither control field.
  predicate Computed(h: Hardware, raised: bv32, t: Hardware) {
    && ValidX87(t.x87) && t.x87.control == h.x87.control
    && t.mxcsr & !FE_ALL_EXCEPT == h.mxcsr & !FE_ALL_EXCEPT
    && Flags(t) == Flags(h) | (raised & FE_ALL_EXCEPT)
  }

  lemma ComputedCarries(h: Hardware, m: Mode, raised: bv32, t: Hardware)
    requires Carries(h, m) && Computed(h, raised, t)
    ensures Carries(t, m.With(raised))
  {}

  /** A run: calls of the routines, and stretches of other code.  Such code may use the
      stack and all memory but the stored environments in `keep`, the ones still in use. */
  datatype Event =
    | Invoke(call: Call, before: State, after: State)
    | Work(raised: bv32, keep: set<int>, hw: Hardware, mem: Memory)

  function HwAfter(e: Event): Hardware {
    if e.Invoke? then e.after.hw else e.hw
  }

  function MemAfter(e: Event): Memory {
    if e.Invoke? then e.after.mem else e.mem
  }

  // Calls are made from the hardware and memory at hand, with live environments off the
  // scratch area, and fesetenv gets the default or a live stored environment.
  ghost predicate Possible(h: Hardware, m: Memory, live: set<int>, e: Event) {
    match e
    case Invoke(c, s, t) =>
      && s.hw == h && s.mem == m && Callable(c, s)
      && (Sound(h) ==> Outcome(c, s, t))
      && Undisturbed(live, s.sp)
      && (c.SetEnv? && c.env != DEFAULT_ARG ==> Address(c.env) in live)
    case Work(raised, keep, h', m') =>
      && Computed(h, raised, h')
      && (forall p :: p in live && p in keep ==> EnvAt(m', p) == EnvAt(m, p))
  }

  function Forget(a: Abstract, keep: set<int>): Abstract {
    a.(saved := map p | p in a.saved && p in keep :: a.saved[p])
  }

  function NextEvent(a: Abstract, e: Event): Abstract
    requires
      e.Invoke? && e.call.SetEnv? && e.call.env != DEFAULT_ARG ==> Address(e.call.env) in a.saved
  {
    match e
    case Invoke(c, _, _) => Next(a, c)
    case Work(raised, keep, _, _) => Forget(a.(now := a.now.With(raised)), keep)
  }

  ghost predicate IsRun(h: Hardware, m: Memory, a: Abstract, run: seq<Event>)
    decreases |run|
  {
    run == [] ||
    (Possible(h, m, a.saved.Keys, run[0])
     && IsRun(HwAfter(run[0]), MemAfter(run[0]), NextEvent(a, run[0]), run[1..]))
  }

  // The routine answered as the abstract machine does, without a fault, and went back
  // where it came from.
  predicate Answered(a: Abstract, e: Event) {
    e.Invoke? ==> e.after.ax == Word(0, Answer(a, e.call)) && BackFrom(e.before, e.after)
  }

  // After every event the two rounding fields agree, and MXCSR holds no reserved bit.
  predicate Agreeing(h: Hardware) {
    X87Round(h) == Round(h) && NoReserved(h.mxcsr)
  }

  ghost predicate Refined(h: Hardware, m: Memory, a: Abstract, run: seq<Event>)
    requires IsRun(h, m, a, run)
    decreases |run|
  {
    run == [] ||
    (Answered(a, run[0]) && Agreeing(HwAfter(run[0]))
     && Refined(HwAfter(run[0]), MemAfter(run[0]), NextEvent(a, run[0]), run[1..]))
  }

  lemma EventRefines(h: Hardware, m: Memory, a: Abstract, e: Event)
    requires Refines(h, m, a) && Possible(h, m, a.saved.Keys, e)
    ensures Refines(HwAfter(e), MemAfter(e), NextEvent(a, e))
    ensures Answered(a, e)
  {
    assert Sound(h);
    match e {
      case Invoke(c, s, t) => CallRefines(c, s, t, a);
      case Work(raised, keep, h', m') => ComputedCarries(h, a.now, raised, h');
    }
    hide Carries, EnvAt, Callable, Computed, Undisturbed, Next, Answer, Address;
  }

  /** Every run from a state that carries the abstract one refines the abstract machine:
      one flag set and one rounding mode explain every answer. */
  lemma {:induction false} RunRefines(h: Hardware, m: Memory, a: Abstract, run: seq<Event>)
    requires Refines(h, m, a) && IsRun(h, m, a, run)
    ensures Refined(h, m, a, run)
    decreases |run|
  {
    if run != [] {
      var e := run[0];
      EventRefines(h, m, a, e);
      assert Agreeing(HwAfter(e)) by {
        CarriesFields(HwAfter(e), NextEvent(a, e).now);
        assert Sound(HwAfter(e));
      }
      hide Possible, Answered, Agreeing;
      RunRefines(HwAfter(e), MemAfter(e), NextEvent(a, e), run[1..]);
    }
  }

  // The hardware as `_start` leaves it, with the MXCSR a process begins with.
  predicate Started(h: Hardware) {
    ValidX87(h.x87) && h.x87.control == 0x37f && h.mxcsr == 0x1f80
  }

  /** In particular, every run of a program refines the abstract machine from its start. */
  lemma ProgramRefines(h: Hardware, m: Memory, run: seq<Event>)
    requires Started(h) && IsRun(h, m, Abstract(Mode(Flags(h), 0), map[]), run)
    ensures Refined(h, m, Abstract(Mode(Flags(h), 0), map[]), run)
  {
    RunRefines(h, m, Abstract(Mode(Flags(h), 0), map[]), run);
  }

  // ---- fegetenv, anything, fesetenv

  // The environment at `p` is in use all along, and not stored anew.
  ghost predicate Stays(h: Hardware, m: Memory, a: Abstract, run: seq<Event>, p: int)
    requires IsRun(h, m, a, run)
    decreases |run|
  {
    && p in a.saved
    && (run == [] ||
        (!(run[0].Invoke? && run[0].call.GetEnv? && Address(run[0].call.env) == p)
         && Stays(HwAfter(run[0]), MemAfter(run[0]), NextEvent(a, run[0]), run[1..], p)))
  }

  function EndMem(m: Memory, run: seq<Event>): Memory {
    if run == [] then m else MemAfter(run[|run| - 1])
  }

  lemma EventKeepsEnv(h: Hardware, m: Memory, a: Abstract, e: Event, p: int)
    requires Possible(h, m, a.saved.Keys, e) && Sound(h)
    requires p in a.saved && p in NextEvent(a, e).saved
    requires !(e.Invoke? && e.call.GetEnv? && Address(e.call.env) == p)
    ensures EnvAt(MemAfter(e), p) == EnvAt(m, p)
  {
    hide EnvAt, Callable, Computed, Address;
    if e.Invoke? {
      assert Spared(e.call, e.before, p);
      CallSpares(e.call, e.before, e.after, p);
    }
  }

  lemma {:induction false} EnvSurvives(h: Hardware, m: Memory, a: Abstract, run: seq<Event>, p: int)
    requires Refines(h, m, a) && IsRun(h, m, a, run) && Stays(h, m, a, run, p)
    ensures EnvAt(EndMem(m, run), p) == EnvAt(m, p)
    decreases |run|
  {
    if run != [] {
      var e := run[0];
      EventKeepsEnv(h, m, a, e, p);
      EventRefines(h, m, a, e);
      hide EnvAt, Possible, Refines;
      EnvSurvives(HwAfter(e), MemAfter(e), NextEvent(a, e), run[1..], p);
    }
  }

  /** fegetenv, then any run that keeps the stored environment, then fesetenv of it: the
      x87 control, status and tag words, the rest of the x87 environment and MXCSR are
      exactly what they were. */
  lemma SetenvRestores(a: Abstract, get: Event, run: seq<Event>, put: Event, env: Word)
    requires env != DEFAULT_ARG
    requires get.Invoke? && get.call == GetEnv(env) && Refines(get.before.hw, get.before.mem, a)
    requires Possible(get.before.hw, get.before.mem, a.saved.Keys, get)
    requires IsRun(get.after.hw, get.after.mem, NextEvent(a, get), run)
    requires Stays(get.after.hw, get.after.mem, NextEvent(a, get), run, Address(env))
    requires put.Invoke? && put.call == SetEnv(env)
    requires put.before.mem == EndMem(get.after.mem, run)
    requires Outcome(SetEnv(env), put.before, put.after)
    ensures put.after.hw == get.before.hw
  {
    EventRefines(get.before.hw, get.before.mem, a, get);
    EnvSurvives(get.after.hw, get.after.mem, NextEvent(a, get), run, Address(env));
    assert Sound(get.before.hw);
    hide EnvAt, Address, BackFrom, Callable, Refines, IsRun, Stays;
  }

  // ---- whether fegetenv leaves the hardware alone

  predicate AllMasked(h: Hardware) {
    h.x87.control & FLAGS == FLAGS
  }

  /** fegetenv changes nothing exactly when all six x87 exceptions are masked beforehand. */
  lemma MaskedSameIff(h: Hardware)
    ensures MaskedX87(h) == h <==> AllMasked(h)
  {
    MaskingIff(h.x87.control);
    assert MaskedX87(h) == h <==> h.x87.control | FLAGS == h.x87.control;
  }

  lemma MaskingIff(control: bv16)
    ensures control | FLAGS == control <==> control & FLAGS == FLAGS
  {}

  // With the invalid-operation exception unmasked it masks it.
  lemma UnmaskedIsMasked(h: Hardware)
    requires h.x87.control == 0x37e
    ensures MaskedX87(h).x87.control == 0x37f && MaskedX87(h) != h
  {}

  // The hardware and every stored environment that is still in use.
  ghost predicate Masked(h: Hardware, m: Memory, a: Abstract) {
    AllMasked(h) && forall p :: p in a.saved ==> AllMasked(EnvAt(m, p))
  }

  lemma RoundedMasked(h: Hardware, mode: bv32)
    requires AllMasked(h)
    ensures AllMasked(Rounded(h, mode))
  {}

  lemma ClearedMasked(h: Hardware, ex: bv32, t: Hardware)
    requires AllMasked(h) && ClearedFlags(h, ex, t)
    ensures AllMasked(t)
  {
    hide Flags;
  }

  // One call, on the hardware alone.
  lemma CallMasked(c: Call, s: State, t: State)
    requires AllMasked(s.hw) && Outcome(c, s, t)
    requires c.SetEnv? && c.env != DEFAULT_ARG ==> AllMasked(EnvAt(s.mem, Address(c.env)))
    ensures AllMasked(t.hw) && (c.GetEnv? ==> t.hw == s.hw)
  {
    hide AllMasked, EnvAt, Address, BackFrom, OnlyEnv, OnlyScratch, Loadable, Rounded, ClearedFlags, MaskedX87;
    match c {
      case ClearExcept(ex) => ClearedMasked(s.hw, ex.lo, t.hw);
      case RaiseExcept(ex) => RaisedMasked(s.hw, ex.lo);
      case SetRound(mode) => RoundedMasked(s.hw, mode.lo);
      case GetEnv(p) => MaskedSameIff(s.hw);
      case SetEnv(p) => DefaultMasked();
      case _ =>
    }
  }

  lemma RaisedMasked(h: Hardware, ex: bv32)
    requires AllMasked(h)
    ensures AllMasked(RaisedFlags(h, ex))
  {}

  lemma DefaultMasked()
    ensures AllMasked(DEFAULT_ENV)
  {}

  // A fegetenv in the event changes no hardware.
  predicate Transparent(e: Event) {
    e.Invoke? && e.call.GetEnv? ==> e.after.hw == e.before.hw
  }

  // A stored environment that is in use behind an event was so before, or is stored by it.
  lemma EventSaves(a: Abstract, e: Event, p: int)
    requires e.Invoke? && e.call.SetEnv? && e.call.env != DEFAULT_ARG ==> Address(e.call.env) in a.saved
    requires p in NextEvent(a, e).saved
    ensures (e.Invoke? && e.call.GetEnv? && Address(e.call.env) == p) || p in a.saved
  {
    hide Address;
  }

  lemma EventMasked(h: Hardware, m: Memory, a: Abstract, e: Event)
    requires Refines(h, m, a) && Masked(h, m, a) && Possible(h, m, a.saved.Keys, e)
    ensures Masked(HwAfter(e), MemAfter(e), NextEvent(a, e)) && Transparent(e)
  {
    assert Sound(h);
    hide Refines, Carries, Callable, EnvAt, Address, AllMasked, Undisturbed;
    if e.Invoke? {
      CallMasked(e.call, e.before, e.after);
    } else {
      WorkMasked(h, e.raised, e.hw);
    }
    hide Computed;
    forall p | p in NextEvent(a, e).saved
      ensures AllMasked(EnvAt(MemAfter(e), p))
    {
      EventSaves(a, e, p);
      if !(e.Invoke? && e.call.GetEnv? && Address(e.call.env) == p) {
        EventKeepsEnv(h, m, a, e, p);
      }
    }
  }

  lemma WorkMasked(h: Hardware, raised: bv32, t: Hardware)
    requires AllMasked(h) && Computed(h, raised, t)
    ensures AllMasked(t)
  {
    hide Flags, ValidX87;
  }

  ghost predicate AllTransparent(run: seq<Event>) {
    forall i :: 0 <= i < |run| ==> Transparent(run[i])
  }

  lemma {:induction false} RunTransparent(h: Hardware, m: Memory, a: Abstract, run: seq<Event>)
    requires Refines(h, m, a) && Masked(h, m, a) && IsRun(h, m, a, run)
    ensures AllTransparent(run)
    decreases |run|
  {
    if run != [] {
      var e := run[0];
      EventRefines(h, m, a, e);
      EventMasked(h, m, a, e);
      hide Refines, Masked, Possible, Transparent;
      RunTransparent(HwAfter(e), MemAfter(e), NextEvent(a, e), run[1..]);
      assert forall i :: 0 < i < |run| ==> run[i] == run[1..][i - 1];
    }
  }

  /** In every run of a program from its start, a fegetenv anywhere changes no hardware state. */
  lemma ProgramTransparent(h: Hardware, m: Memory, run: seq<Event>)
    requires Started(h) && IsRun(h, m, Abstract(Mode(Flags(h), 0), map[]), run)
    ensures AllTransparent(run)
  {
    RunTransparent(h, m, Abstract(Mode(Flags(h), 0), map[]), run);
  }

  // ---- what a caller sees of two calls in a row, in bits of the two status words

  lemma ClearThenTest(ex: Word, s: State, t: State, m: Word, u: State, v: State)
    requires Outcome(ClearExcept(ex), s, t) && u.hw == t.hw && Outcome(TestExcept(m), u, v)
    ensures v.ax.hi == 0 && v.ax.lo == (((s.hw.x87.status as bv32) | s.hw.mxcsr) & 0x3F & !ex.lo) & m.lo
  {
    ClearedMeans(s.hw, ex.lo, t.hw);
    FlagsMean(t.hw);
    hide Flags, ClearedFlags, BackFrom;
  }

  lemma RaiseThenTest(ex: Word, s: State, t: State, m: Word, u: State, v: State)
    requires Outcome(RaiseExcept(ex), s, t) && u.hw == t.hw && Outcome(TestExcept(m), u, v)
    ensures
      v.ax.hi == 0
      && v.ax.lo == ((((s.hw.x87.status as bv32) | s.hw.mxcsr) & 0x3F) | (ex.lo & 0x3F)) & m.lo
  {
    RaisedMeans(s.hw, ex.lo);
    FlagsMean(t.hw);
    hide Flags, RaisedFlags, BackFrom;
    UnionOfRaised(s.hw.x87.status, s.hw.mxcsr, ex.lo);
  }

  lemma UnionOfRaised(status: bv16, m: bv32, ex: bv32)
    ensures ((status as bv32) | (m | (ex & 0x3F))) & 0x3F == (((status as bv32) | m) & 0x3F) | (ex & 0x3F)
  {}

  lemma SetThenGetRound(mode: Word, s: State, t: State, u: State, v: State)
    requires Outcome(SetRound(mode), s, t) && u.hw == t.hw && Outcome(GetRound, u, v)
    ensures v.ax == Word(0, mode.lo & 0xC00) && X87Round(t.hw) == mode.lo & 0xC00
  {
    hide BackFrom, Rounded;
    RoundOfRounded(s.hw, mode.lo);
  }

  lemma RoundOfRounded(h: Hardware, mode: bv32)
    ensures Round(Rounded(h, mode)) == mode & 0xC00 && X87Round(Rounded(h, mode)) == mode & 0xC00
  {}

  // ---- the default environment

  lemma DefaultStarts()
    ensures Started(DEFAULT_ENV)
  {}

  predicate DefaultReached(e: Event) {
    e.Invoke? && e.call == SetEnv(Word(0xFFFF_FFFF, 0xFFFF_FFFF)) ==>
      e.after.hw.x87 == X87(0x37f, 0, 0xffff, 0, 0, 0, 0, 0) && e.after.hw.mxcsr == 0x1f80
  }

  lemma EventReachesDefault(h: Hardware, m: Memory, a: Abstract, e: Event)
    requires Refines(h, m, a) && Possible(h, m, a.saved.Keys, e)
    ensures DefaultReached(e)
  {
    assert Sound(h);
    hide Refines, Carries, EnvAt, Address, Callable, BackFrom, OnlyScratch, Undisturbed;
  }

  /** In every run that refines the abstract machine, fesetenv with FE_DFL_ENV leaves the
      environment of a new program: all twelve exceptions masked and no flag set. */
  lemma {:induction false} RunReachesDefault(h: Hardware, m: Memory, a: Abstract, run: seq<Event>)
    requires Refines(h, m, a) && IsRun(h, m, a, run)
    ensures forall i :: 0 <= i < |run| ==> DefaultReached(run[i])
    decreases |run|
  {
    if run != [] {
      var e := run[0];
      EventRefines(h, m, a, e);
      EventReachesDefault(h, m, a, e);
      hide Refines, Possible, DefaultReached;
      RunReachesDefault(HwAfter(e), MemAfter(e), NextEvent(a, e), run[1..]);
      assert forall i :: 0 < i < |run| ==> run[i] == run[1..][i - 1];
    }
  }
}
