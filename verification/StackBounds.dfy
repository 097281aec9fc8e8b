/** The bounds of a new thread's stack that __clone hands to the system, and the alignment of
    thread-local storage: bit tricks on machine words of any width, and what they mean.  The
    nt64 code is the case of 64 bits, the nt32 code that of 32. */
module StackBounds {

  // ---- machine words: the numbers below 2 to the width

  // (the case of four bits makes plain that all later powers are multiples of 16)
  function Pow2(w: nat): (r: nat)
    ensures r > 0 && (w >= 4 ==> r % 16 == 0)
  {
    if w == 0 then 1
    else if w == 4 then 16
    else 2 * Pow2(w - 1)
  }

  type Width = w: nat | w >= 5 witness 32

  predicate Word(x: int, w: Width) {
    0 <= x < Pow2(w)
  }

  // Addition and subtraction wrap around.
  function Plus(x: nat, y: nat, w: Width): nat
    requires Word(x, w) && Word(y, w)
  {
    if x + y < Pow2(w) then x + y else x + y - Pow2(w)
  }

  function Minus(x: nat, y: nat, w: Width): nat
    requires Word(x, w) && Word(y, w)
  {
    if x >= y then x - y else x - y + Pow2(w)
  }

  datatype Op = And | Or | Xor

  function Bit(op: Op, a: nat, b: nat): nat {
    match op
    case And => if a == 1 && b == 1 then 1 else 0
    case Or => if a == 1 || b == 1 then 1 else 0
    case Xor => if a == b then 0 else 1
  }

  // The operation on the w lowest bits.
  function Bitwise(op: Op, x: nat, y: nat, w: nat): nat {
    if w == 0 then 0 else Bit(op, x % 2, y % 2) + 2 * Bitwise(op, x / 2, y / 2, w - 1)
  }

  function Not(x: nat, w: Width): nat
    requires Word(x, w)
  {
    Pow2(w) - 1 - x
  }

  lemma BitwiseStep(op: Op, x: nat, y: nat, w: nat)
    requires w > 0
    ensures Bitwise(op, x, y, w) == Bit(op, x % 2, y % 2) + 2 * Bitwise(op, x / 2, y / 2, w - 1)
  {}

  // ---- the masks

  lemma {:induction false} OnesKeep(x: nat, w: nat)
    requires x < Pow2(w)
    ensures Bitwise(And, x, Pow2(w) - 1, w) == x
  {
    if w > 0 {
      assert Pow2(w) == 2 * Pow2(w - 1);
      OnesKeep(x / 2, w - 1);
    }
  }

  lemma {:induction false} ZerosKeep(op: Op, x: nat, w: nat)
    requires x < Pow2(w) && !op.And?
    ensures Bitwise(op, x, 0, w) == x
  {
    if w > 0 {
      assert Pow2(w) == 2 * Pow2(w - 1);
      ZerosKeep(op, x / 2, w - 1);
    }
  }

  predicate Boundary(m: nat) {
    m == 1 || m == 2 || m == 4 || m == 8 || m == 16
  }

  lemma Mod4(x: nat)
    ensures x % 4 == x % 2 + 2 * ((x / 2) % 2)
  {
    assert x == 4 * (x / 2 / 2) + (x % 2 + 2 * ((x / 2) % 2));
  }

  lemma Mod8(x: nat)
    ensures x % 8 == x % 2 + 2 * ((x / 2) % 4)
  {
    assert x == 8 * (x / 2 / 4) + (x % 2 + 2 * ((x / 2) % 4));
  }

  lemma Mod16(x: nat)
    ensures x % 16 == x % 2 + 2 * ((x / 2) % 8)
  {
    assert x == 16 * (x / 2 / 8) + (x % 2 + 2 * ((x / 2) % 8));
  }

  // One more bit at the low end.
  lemma RemainderStep(x: nat, m: nat)
    requires Boundary(m) && m > 1
    ensures m % 2 == 0 && Boundary(m / 2) && x % m == x % 2 + 2 * ((x / 2) % (m / 2))
  {
    if m == 2 {
    } else if m == 4 {
      Mod4(x);
    } else if m == 8 {
      Mod8(x);
    } else {
      Mod16(x);
    }
  }

  // The mask with all but the bits below m, and the mask with only these.
  lemma {:induction false} ClearBelow(x: nat, m: nat, w: nat)
    requires Boundary(m) && m <= Pow2(w) && x < Pow2(w)
    ensures Bitwise(And, x, Pow2(w) - m, w) == x - x % m
    decreases w
  {
    if m == 1 {
      OnesKeep(x, w);
    } else {
      assert Pow2(w) == 2 * Pow2(w - 1);
      BitwiseStep(And, x, Pow2(w) - m, w);
      hide Pow2, Bitwise;
      RemainderStep(x, m);
      hide Boundary;
      ClearBelow(x / 2, m / 2, w - 1);
      assert (Pow2(w) - m) % 2 == 0 && (Pow2(w) - m) / 2 == Pow2(w - 1) - m / 2;
    }
  }

  lemma BitOne(op: Op, a: nat)
    requires a < 2 && !op.And?
    ensures Bit(op, a, 1) == if op.Or? then 1 else 1 - a
  {}

  // x with its bits below m set, or flipped.
  function LowChanged(op: Op, x: nat, m: nat): int
    requires m > 0
  {
    x - x % m + (if op.Or? then m - 1 else m - 1 - x % m)
  }

  lemma LowChangedStep(op: Op, x: nat, m: nat)
    requires Boundary(m) && m > 1 && !op.And?
    ensures (if op.Or? then 1 else 1 - x % 2) + 2 * LowChanged(op, x / 2, m / 2) == LowChanged(op, x, m)
  {
    RemainderStep(x, m);
    hide Boundary;
    var r := (x / 2) % (m / 2);
    assert x % m == x % 2 + 2 * r;
  }

  lemma {:induction false} SetBelow(op: Op, x: nat, m: nat, w: nat)
    requires Boundary(m) && m <= Pow2(w) && x < Pow2(w) && !op.And?
    ensures Bitwise(op, x, m - 1, w) == LowChanged(op, x, m)
    decreases w
  {
    if m == 1 {
      ZerosKeep(op, x, w);
    } else {
      assert Pow2(w) == 2 * Pow2(w - 1);
      RemainderStep(x, m);
      BitwiseStep(op, x, m - 1, w);
      BitOne(op, x % 2);
      LowChangedStep(op, x, m);
      hide Pow2, Bit, Bitwise, Boundary, LowChanged;
      assert (m - 1) % 2 == 1 && (m - 1) / 2 == m / 2 - 1;
      SetBelow(op, x / 2, m / 2, w - 1);
    }
  }

  // ---- rounding to 16

  predicate Floor(x: nat, r: nat) {
    r % 16 == 0 && r <= x < r + 16
  }

  predicate Ceiling(x: nat, r: nat) {
    r % 16 == 0 && x <= r < x + 16
  }

  function RoundDown(x: nat, w: Width): nat
    requires Word(x, w)
  {
    Bitwise(And, x, Not(0xf, w), w)
  }

  lemma FloorOf(x: nat)
    ensures Floor(x, x - x % 16)
  {}

  lemma HighMask(w: Width)
    ensures Pow2(w) >= 32 && Not(0xf, w) == Pow2(w) - 16
  {
    assert Pow2(w) >= 32;
  }

  lemma RoundDownIs(x: nat, w: Width)
    requires Word(x, w)
    ensures Floor(x, RoundDown(x, w))
  {
    hide Bitwise, Pow2, Floor;
    HighMask(w);
    FloorOf(x);
    hide Not;
    ClearBelow(x, 16, w);
  }

  // The word that is the ceiling of x, or zero when no word is.
  ghost predicate RoundedUp(x: nat, r: nat, w: Width) {
    (Word(r, w) && Ceiling(x, r)) || (r == 0 && forall s :: Word(s, w) ==> !Ceiling(x, s))
  }

  // A word above the last multiple of 16 has no word as its ceiling.
  lemma NoCeiling(x: nat, r: nat, w: Width)
    requires x > Pow2(w) - 16 && Word(r, w)
    ensures !Ceiling(x, r)
  {}

  lemma RoundedUpIff(x: nat, r: nat, w: Width)
    requires Word(x, w)
    ensures RoundedUp(x, r, w) <==> if x <= Pow2(w) - 16 then Ceiling(x, r) else r == 0
  {
    assert Pow2(w) % 16 == 0;
    if x <= Pow2(w) - 16 {
      hide Pow2;
      var s: nat := x + 15 - (x + 15) % 16;
      assert Word(s, w) && Ceiling(x, s);
    } else {
      forall s | Word(s, w)
        ensures !Ceiling(x, s)
      {
        NoCeiling(x, s, w);
      }
    }
  }

  // Setting the low bits and then flipping them clears them.
  lemma SetThenFlip(a: nat, w: Width)
    requires Word(a, w)
    ensures var b := Bitwise(Or, a, 0xf, w); Word(b, w) && Bitwise(Xor, b, 0xf, w) == a - a % 16
  {
    hide Bitwise;
    var b := Bitwise(Or, a, 0xf, w);
    SetBelow(Or, a, 16, w);
    assert b == a - a % 16 + 15 && b % 16 == 15;
    assert Pow2(w) % 16 == 0;
    SetBelow(Xor, b, 16, w);
  }

  // The three assignments `+=`, `|=`, `^=` round up.
  lemma RoundUpIs(x: nat, w: Width)
    requires Word(x, w)
    ensures var b := Bitwise(Or, Plus(x, 0xf, w), 0xf, w); Word(b, w) && RoundedUp(x, Bitwise(Xor, b, 0xf, w), w)
  {
    hide Bitwise, Pow2, RoundedUp;
    var a := Plus(x, 0xf, w);
    SetThenFlip(a, w);
    if x > Pow2(w) - 16 {
      assert a < 16;
    } else {
      assert a == x + 15;
    }
    RoundedUpIff(x, a - a % 16, w);
  }

  lemma RoundedUpIs(x: nat, w: Width)
    requires Word(x, w)
    ensures forall r: nat :: RoundedUp(x, r, w) && x <= Pow2(w) - 16 ==> r % 16 == 0 && x <= r < x + 16
  {
    forall r: nat | RoundedUp(x, r, w) && x <= Pow2(w) - 16
      ensures r % 16 == 0 && x <= r < x + 16
    {
      RoundedUpIff(x, r, w);
    }
  }

  lemma Pow2Twice(w: nat)
    requires w > 0
    ensures Pow2(w) == 2 * Pow2(w - 1)
  {
    if w == 4 {
      assert Pow2(3) == 2 * Pow2(2) && Pow2(2) == 2 * Pow2(1) && Pow2(1) == 2 * Pow2(0);
    }
  }

  lemma EightBitsMore(w: nat)
    ensures Pow2(w + 8) == 0x100 * Pow2(w)
  {
    hide Pow2;
    Pow2Twice(w + 1);
    Pow2Twice(w + 2);
    Pow2Twice(w + 3);
    Pow2Twice(w + 4);
    Pow2Twice(w + 5);
    Pow2Twice(w + 6);
    Pow2Twice(w + 7);
    Pow2Twice(w + 8);
  }

  // The words of the two targets.
  lemma WordSizes()
    ensures Pow2(32) == 0x1_0000_0000 && Pow2(64) == 0x1_0000_0000_0000_0000
  {
    assert Pow2(0) == 1;
    hide Pow2;
    EightBitsMore(0);
    EightBitsMore(8);
    EightBitsMore(16);
    EightBitsMore(24);
    EightBitsMore(32);
    EightBitsMore(40);
    EightBitsMore(48);
    EightBitsMore(56);
  }

  // ---- __clone

  /** What the routine reads of a thread: the top of its stack and two sizes. */
  datatype Pthread = Pthread(stack: nat, stackSize: nat, guardSize: nat)

  predicate Words(t: Pthread, w: Width) {
    Word(t.stack, w) && Word(t.stackSize, w) && Word(t.guardSize, w)
  }

  // Neither the stack nor the guard below it wraps around.
  predicate Whole(t: Pthread) {
    t.stackSize + t.guardSize <= t.stack
  }

  function Limit(t: Pthread, w: Width): nat
    requires Words(t, w)
  {
    Minus(t.stack, t.stackSize, w)
  }

  const CLONE_VM := 0x100
  const CLONE_VFORK := 0x4000
  const SIGCHLD := 17
  const VFORK := CLONE_VM + CLONE_VFORK + SIGCHLD

  // The arguments of the system call, but for the registers.
  datatype SysClone = SysClone(flags: int, stack: nat, ptid: nat, ctid: nat)

  /** The registers that the new thread starts with and the three bounds published with them. */
  class PtRegs {
    const w: Width
    var ip: nat
    var cx: nat
    var dx: nat
    var sbase: nat
    var slimit: nat
    var sbottom: nat

    constructor (w: Width)
      ensures this.w == w
    {
      this.w := w;
    }

    // `self`: the address of the thread's own record, `t`: what it holds.
    method Clone(fn: nat, childStack: nat, flags: int, arg: nat, ptid: nat, self: nat, t: Pthread, ctid: nat)
      returns (call: SysClone)
      requires Word(childStack, w) && Words(t, w)
      modifies this
      ensures ip == fn && cx == arg && dx == self
      ensures call.flags == flags
      ensures call.stack % 16 == 0 && call.stack <= childStack < call.stack + 16
      ensures flags == 0x4111 ==> sbase == slimit == sbottom == 0 && call.ptid == call.ctid == 0
      ensures flags != 0x4111 ==> call.ptid == ptid && call.ctid == ctid && Published(t)
      ensures flags != 0x4111 ==> sbase % 16 == 0 && sbase <= t.stack < sbase + 16
      ensures
        flags != 0x4111 && t.stackSize + t.guardSize <= t.stack ==>
          && sbottom == t.stack - t.stackSize - t.guardSize
          && (t.stack - t.stackSize <= Pow2(w) - 16 ==>
                slimit % 16 == 0 && t.stack - t.stackSize <= slimit < t.stack - t.stackSize + 16)
    {
      ip := fn;
      cx := arg;
      dx := self;
      var base := childStack;
      base := Bitwise(And, base, Not(0xf, w), w);
      var stack := base;
      RoundDownIs(childStack, w);
      if flags == VFORK {
        sbase := 0;
        slimit := 0;
        sbottom := 0;
        return SysClone(flags, stack, 0, 0);
      }
      base := t.stack;
      var limit := Minus(base, t.stackSize, w);
      var bottom := Minus(limit, t.guardSize, w);
      RoundDownIs(base, w);
      RoundUpIs(limit, w);
      RoundedUpIs(limit, w);
      base := Bitwise(And, base, Not(0xf, w), w);
      limit := Plus(limit, 0xf, w);
      limit := Bitwise(Or, limit, 0xf, w);
      limit := Bitwise(Xor, limit, 0xf, w);
      sbase := base;
      slimit := limit;
      sbottom := bottom;
      return SysClone(flags, stack, ptid, ctid);
    }

    ghost predicate Published(t: Pthread)
      requires Words(t, w)
      reads this
    {
      && Floor(t.stack, sbase)
      && RoundedUp(Limit(t, w), slimit, w)
      && sbottom == Minus(Limit(t, w), t.guardSize, w)
    }
  }

  predicate InOrder(regs: PtRegs, t: Pthread)
    reads regs
  {
    regs.sbottom <= regs.slimit <= regs.sbase <= t.stack
  }

  // The bounds are in order exactly when the stack is no smaller than what rounding its top
  // down cuts off; or, where the limit is too high to be rounded up and becomes zero, when
  // stack and guard reach down to zero.
  lemma BoundsInOrderIff(regs: PtRegs, t: Pthread)
    requires Words(t, regs.w) && Whole(t) && regs.Published(t)
    ensures InOrder(regs, t) <==>
              if t.stack - t.stackSize <= Pow2(regs.w) - 16 then t.stackSize >= t.stack % 16
              else t.stackSize + t.guardSize == t.stack
    ensures t.stackSize >= 15 ==> InOrder(regs, t)
  {
    hide Pow2, RoundedUp;
    RoundedUpIff(t.stack - t.stackSize, regs.slimit, regs.w);
    if t.stack - t.stackSize <= Pow2(regs.w) - 16 {
      OrderIff(t.stack, t.stackSize, regs.sbase, regs.slimit);
    }
  }

  lemma OrderIff(x: nat, size: nat, base: nat, limit: nat)
    requires size <= x && Floor(x, base) && Ceiling(x - size, limit)
    ensures limit <= base <==> size >= x % 16
  {
    assert base == x - x % 16;
  }

  // A stack of one byte that ends just below a multiple of 16, at any address, and one at the
  // top of memory.
  lemma TinyStackOutOfOrder(regs: PtRegs, a: nat)
    requires a % 16 == 0 && a + 16 <= Pow2(regs.w)
    ensures
      var t := Pthread(a + 15, 1, 0);
      && Words(t, regs.w)
      && (regs.Published(t) ==>
            !InOrder(regs, t) && regs.sbase == a && regs.slimit == if a + 16 < Pow2(regs.w) then a + 16 else 0)
  {
    hide Pow2, RoundedUp;
    assert Pow2(regs.w) % 16 == 0;
    RoundedUpIff(a + 14, regs.slimit, regs.w);
  }

  // ---- __copy_tls

  /** Memory as thread records: the word `dtv` of the record at each address. */
  class Threads {
    const w: Width
    var dtv: map<nat, nat>

    constructor (w: Width)
      ensures this.w == w && dtv == map[]
    {
      this.w := w;
      dtv := map[];
    }

    method CopyTls(mem: nat) returns (td: nat)
      requires Word(mem, w)
      modifies this
      ensures RoundedUp(mem, td, w)
      ensures mem <= Pow2(w) - 16 ==> td % 16 == 0 && mem <= td < mem + 16
      ensures dtv == old(dtv)[td := 0]
    {
      var addr := mem;
      addr := Plus(addr, 0xf, w);
      addr := Bitwise(Or, addr, 0xf, w);
      RoundUpIs(mem, w);
      RoundedUpIs(mem, w);
      addr := Bitwise(Xor, addr, 0xf, w);
      td := addr;
      dtv := dtv[td := 0];
    }
  }
}
