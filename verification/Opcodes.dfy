/** Which opcodes the lookahead counts into a run (is_handled_x87 in X87Cache.cpp)
    and what the dispatch does with each (the switch of Translator.cpp), by their
    numbers in Opcode.h. */
module Opcodes {

  /** is_handled_x87, its cases in order. */
  predicate Counted(op: nat) {
    match op
    case 0xE7 | 0xDF | 0xE2 | 0xE3 | 0xE4 | 0xE5 | 0xE6 | 0xDE | 0xD5 | 0xBE | 0xBF | 0xD0 | 0xFD |
       0xFF | 0xFE | 0x100 | 0xCA | 0xCC | 0xCB | 0xCD | 0xE8 | 0xE9 | 0xF7 | 0xF8 | 0xFA | 0xFB |
       0xFC | 0xC4 | 0xC5 | 0xC6 | 0x102 | 0x103 | 0x104 | 0x106 | 0xC2 | 0xBD | 0xF6 | 0xDA | 0xDB
       | 0xD3 | 0xD6 | 0xDC | 0xD4 | 0xF0 | 0x2D | 0x2E | 0x2F | 0x30 | 0x101 | 0xD9 | 0xDD | 0x25 |
       0x26 | 0x27 | 0x28 | 0x29 | 0x2A | 0x2C | 0x2B | 0xD1 | 0xD2 | 0xE0 | 0xEB | 0xEA | 0xC9 |
       0xCE | 0x105 | 0xC0 | 0xC8 | 0xD7 | 0xCF | 0x109 | 0xF3 | 0xC1 | 0xF1 | 0xF2 | 0xF4 | 0xC7 |
       0xBC | 0xEC | 0xF5 | 0xEF | 0x10A | 0x10B | 0xED | 0xEE => true
    case _ => false
  }

  datatype Way = Emitter | Stock

  /** The dispatch, its cases in order; fclex, finit, fldenv, fstenv, fxsave and
      fxrstor go to stock on purpose, like everything unknown. */
  function Dispatch(op: nat): (w: Way) {
    match op
    case 0xE7 | 0xDF | 0xE2 | 0xE3 | 0xE4 | 0xE5 | 0xE6 | 0xDE | 0xD5 | 0xC0 | 0xBE | 0xBF | 0xD0 |
       0xFD | 0xFF | 0xFE | 0x100 | 0xCA | 0xCC | 0xCB | 0xCD | 0xE8 | 0xE9 | 0xF7 | 0xF8 | 0xFA |
       0xFB | 0xFC | 0x105 | 0xC8 | 0xD7 | 0xCF | 0x109 | 0xF3 | 0xC1 | 0xF1 | 0xF2 | 0xC4 | 0xC5 |
       0xC6 | 0x102 | 0x103 | 0x104 | 0x106 | 0xC2 | 0xBD | 0xF6 | 0xDA | 0xDB | 0xD3 | 0xD6 | 0xDC
       | 0xD4 | 0xF0 | 0x2D | 0x2E | 0x2F | 0x30 | 0x101 | 0xD9 | 0xDD | 0xD1 | 0xD2 | 0x25 | 0x26 |
       0x27 | 0x28 | 0x29 | 0x2A | 0x2C | 0x2B | 0xE0 | 0xEB | 0xEA | 0xC9 | 0xCE | 0xF4 | 0xC7 |
       0xBC | 0xEC | 0xF5 | 0xEF | 0x10A | 0x10B | 0xED | 0xEE => Emitter
    case 0xC3 | 0xD8 | 0xE1 | 0xF9 | 0x108 | 0x107 => Stock
    case _ => Stock
  }

  /** The two ranges the stub filter claims. */
  predicate Claimed(op: nat) {
    0x25 <= op <= 0x30 || 0xBC <= op <= 0x10B
  }

  /** An opcode is counted into a run exactly when the dispatch has an emitter for
      it, and of those the filter claims six are not: no instruction of a run
      can come back declined. */
  lemma CountedIsEmitted(op: nat)
    ensures Counted(op) <==> Dispatch(op).Emitter?
    ensures Claimed(op) <==> Counted(op) || op in {0xC3, 0xD8, 0xE1, 0xF9, 0x107, 0x108}
  {
    if Claimed(op) {
      assert op <= 0x30 || op <= 0xD0 || op <= 0xF0 || op <= 0x10B;
    }
  }
}
