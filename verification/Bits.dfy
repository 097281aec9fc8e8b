/** Bit patterns of the floating-point environment routines: 0x3F are the exception flags,
    0x6000 the rounding field of MXCSR, 0xC00 that of the x87 control word. */
module Bits {

  // The bitwise operations by name, for proofs that need not look inside.
  function Band(a: bv32, b: bv32): bv32 {
    a & b
  }

  function Bor(a: bv32, b: bv32): bv32 {
    a | b
  }

  function Bnot(a: bv32): bv32 {
    !a
  }

  function Bshl3(a: bv32): bv32 {
    a << 3
  }

  function Low16(v: bv32): bv16 {
    (v & 0xFFFF) as bv16
  }

  function High16(v: bv32): bv16 {
    (v >> 16) as bv16
  }

  // MXCSR has no defined bit above the sixteenth.
  predicate NoReserved(m: bv32) {
    m & 0xFFFF_0000 == 0
  }

  // Replaces the low half.
  function WithLow(v: bv32, w: bv16): bv32 {
    (v & 0xFFFF_0000) | (w as bv32)
  }

  lemma ClearedUnion(m: bv32, live: bv32, ex: bv32)
    requires live & !0x3F == 0
    ensures ((m | live) & !(ex & 0x3F)) & 0x3F == (live | m) & 0x3F & !ex
  {}

  lemma ClearedKeepsRest(m: bv32, live: bv32, ex: bv32)
    requires live & !0x3F == 0
    ensures ((m | live) & !(ex & 0x3F)) & !0x3F == m & !0x3F
  {}

  lemma ClearedBesideLive(m: bv32, live: bv32, ex: bv32)
    requires live & !0x3F == 0 && ex & 0x3F & live == 0
    ensures (live | ((m | live) & !(ex & 0x3F))) & 0x3F == (live | m) & 0x3F & !ex
  {}

  lemma NothingToClear(m: bv32, live: bv32, ex: bv32)
    requires ex & 0x3F & (m | live) == 0
    ensures ex & 0x3F & live == 0 && (live | m) & 0x3F & !ex == (live | m) & 0x3F
  {}

  lemma ClearedStaysLow(m: bv32, live: bv32, ex: bv32)
    requires live & !0x3F == 0 && NoReserved(m)
    ensures NoReserved(Band(Bor(m, live), Bnot(Band(ex, 0x3F))))
  {}

  // A control word and an MXCSR with the rounding field taken from `mode`.
  function ControlFor(control: bv16, mode: bv32): bv16 {
    (control & 0xF3FF) | Low16(mode & 0xC00)
  }

  function MxcsrFor(m: bv32, mode: bv32): bv32 {
    (m & !0x6000) | ((mode & 0xC00) << 3)
  }

  // They are assembled in a memory cell, whose old contents are `cell`.
  lemma AssembledControl(cell: bv32, control: bv16, mode: bv32)
    ensures
      var stored := WithLow(cell, control);
      var kept := WithLow(stored, Low16(stored) & 0xF3FF);
      Low16(Bor(kept, Band(mode, 0xC00))) == ControlFor(control, mode)
  {}

  lemma AssembledMxcsr(m: bv32, mode: bv32)
    ensures Bor(WithLow(m, Low16(m) & 0x9FFF), Bshl3(Band(mode, 0xC00))) == MxcsrFor(m, mode)
  {}

  lemma MxcsrForStaysLow(m: bv32, mode: bv32)
    requires NoReserved(m)
    ensures NoReserved(MxcsrFor(m, mode))
  {}

  // A half of a cell that the x87 unit leaves reserved is stored as ones.
  function Reserved(v: bv16): bv32 {
    0xFFFF_0000 | (v as bv32)
  }

  function Pair(low: bv16, high: bv16): bv32 {
    (low as bv32) | ((high as bv32) << 16)
  }

  lemma ReservedHalf(v: bv16)
    ensures Low16(Reserved(v)) == v
  {}

  lemma PairHalves(low: bv16, high: bv16)
    ensures Low16(Pair(low, high)) == low && High16(Pair(low, high)) == high
  {}

  // The bits of MXCSR above its flags.
  lemma AboveFlags(m: bv32)
    ensures m & !0x3F == m & 0xFFFF_FFC0
  {}

  lemma RaisedKeepsRest(m: bv32, ex: bv32, t: bv32)
    requires t == m | (ex & 0x3F)
    ensures t & 0xFFFF_FFC0 == m & 0xFFFF_FFC0
  {}

  lemma Raised(m: bv32, ex: bv32)
    ensures Bor(m, Band(ex, 0x3F)) == m | (ex & 0x3F)
  {}

  lemma RaisedStaysLow(m: bv32, ex: bv32)
    requires NoReserved(m)
    ensures NoReserved(Bor(m, Band(ex, 0x3F)))
  {}

  lemma ControlForBits(control: bv16, mode: bv32)
    ensures (ControlFor(control, mode) as bv32) == ((control as bv32) & 0xFFFF_F3FF) | (mode & 0xC00)
  {}

  lemma MxcsrForBits(m: bv32, mode: bv32)
    ensures MxcsrFor(m, mode) == (m & 0xFFFF_9FFF) | (((mode >> 10) & 3) << 13)
  {}
}
