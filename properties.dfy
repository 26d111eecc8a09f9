/**
 * Properties of the machine semantics in module Isa: the instruction
 * layout, what each group of opcodes leaves untouched, the meaning of the
 * arithmetic flags, instruction pairs that undo or complete each other,
 * halting, execution over many steps, and loading an image.
 */
module IsaProperties {
  import opened Arithmetic
  import opened Isa

  /** Executes the word w on m, as the dispatch does once w is in ir. */
  function ExecWord(m: Machine, w: Word): (r: (Status, Machine))
    requires StackInWindow(m.sp)
    ensures StackInWindow(r.1.sp)
  {
    Execute(m.(ir := w))
  }

  // ---------------------------------------------------------------------
  // Instruction layout

  /**
   * The fields the handlers extract tile the word: opcode 15:12, bit 11, rd
   * 10:8, rm 7:5, rn 4:2 and the low two bits.  MOV's immediate is bits
   * 7:0, the shift amount bits 4:0, the jump offset bits 10:2, and STR's
   * immediate joins bits 10:8 and 4:0 into a value below 0x100, so its high
   * byte is always zero.
   */
  lemma FieldsTileTheWord(ir: Word)
    ensures 0 <= Opcode(ir) < 16
    ensures ir == Opcode(ir) * 0x1000 + (if Bit11(ir) then 0x800 else 0)
                  + Rd(ir) * 0x100 + Rm(ir) * 0x20 + Rn(ir) * 4 + Low2(ir)
    ensures Imm8(ir) == Rm(ir) * 0x20 + Rn(ir) * 4 + Low2(ir)
    ensures Imm5(ir) == Rn(ir) * 4 + Low2(ir)
    ensures JumpOffset(ir) == Rd(ir) * 0x40 + Rm(ir) * 8 + Rn(ir)
    ensures StrImmediate(ir) == Rd(ir) * 0x20 + Imm5(ir) && StrImmediate(ir) < 0x100
  {
    var q1 := ir / 4;
    var q2 := q1 / 8;
    var q3 := q2 / 8;
    var q4 := q3 / 8;
    DivideTwice(ir, 4, 8);
    DivideTwice(ir, 0x20, 8);
    DivideTwice(ir, 0x100, 8);
    DivideTwice(ir, 0x800, 2);
    DivideTwice(q1, 8, 0x40);
    DivideTwice(q2, 8, 8);
    assert q1 % 0x200 == q2 % 0x40 * 8 + q1 % 8;
  }

  // ---------------------------------------------------------------------
  // What each opcode leaves untouched

  /**
   * Frame of every handler: MOV, STR and LDR change no flag; the zero
   * group changes no flag but Z and S (CMP); AND, ORR, NOT and XOR keep C
   * and Ov; SHR, ROR and ROL keep Ov.  Only the zero group moves pc or sp,
   * only STR and PSH write data memory, no register but rd is written, and
   * of the zero group only POP writes a register; STR writes none.
   */
  lemma HandlerFrames(m: Machine)
    requires StackInWindow(m.sp)
    ensures var (status, r) := Execute(m); var op := Opcode(m.ir);
      && (op in {1, 2, 3} ==> r.flags == m.flags)
      && (op == 0 ==> r.flags.C == m.flags.C && r.flags.Ov == m.flags.Ov)
      && (op == 0 && (m.ir == 0 || Bit11(m.ir) || Low2(m.ir) != 3) ==> r.flags == m.flags)
      && (op in {7, 8, 9, 10} ==> r.flags.C == m.flags.C && r.flags.Ov == m.flags.Ov)
      && (op in {11, 13, 14} ==> r.flags.Ov == m.flags.Ov)
      && (op != 0 ==> r.pc == m.pc && r.sp == m.sp)
      && (op != 0 && op != 2 ==> r.data == m.data)
      && (op == 0 && !(m.ir != 0 && !Bit11(m.ir) && Low2(m.ir) == 1) ==> r.data == m.data)
      && (forall i :: 0 <= i < 8 && i != Rd(m.ir) ==> r.regs[i] == m.regs[i])
      && (op == 0 && (m.ir == 0 || Bit11(m.ir) || Low2(m.ir) != 2) ==> r.regs == m.regs)
      && (op == 2 ==> r.regs == m.regs)
      && r.ir == m.ir
  {
  }

  // ---------------------------------------------------------------------
  // Arithmetic flags

  /**
   * ADD with a destination distinct from both sources: rd is the sum modulo
   * 2^16, C is the carry out of bit 15, Ov is two's-complement overflow and,
   * without overflow, rd is the signed sum.
   */
  lemma AddSemantics(m: Machine)
    requires Rd(m.ir) != Rm(m.ir) && Rd(m.ir) != Rn(m.ir)
    ensures var a: int, b: int, r := m.regs[Rm(m.ir)], m.regs[Rn(m.ir)], ExecAdd(m);
      && r == m.(regs := m.regs[Rd(m.ir) := (a + b) % 0x1_0000], flags := r.flags)
      && (r.flags.C <==> a + b >= 0x1_0000)
      && (r.flags.Ov <==> !FitsSigned16(Signed(a) + Signed(b)))
      && (!r.flags.Ov ==> Signed(r.regs[Rd(m.ir)]) == Signed(a) + Signed(b))
      && (r.flags.Z <==> r.regs[Rd(m.ir)] == 0)
      && (r.flags.S <==> Signed(r.regs[Rd(m.ir)]) < 0)
  {
  }

  /**
   * SUB with a destination distinct from both sources: rd is the difference
   * modulo 2^16, C is the borrow, Ov is two's-complement overflow and,
   * without overflow, rd is the signed difference.
   */
  lemma SubSemantics(m: Machine)
    requires Rd(m.ir) != Rm(m.ir) && Rd(m.ir) != Rn(m.ir)
    ensures var a: int, b: int, r := m.regs[Rm(m.ir)], m.regs[Rn(m.ir)], ExecSub(m);
      && r == m.(regs := m.regs[Rd(m.ir) := (a - b) % 0x1_0000], flags := r.flags)
      && (r.flags.C <==> a < b)
      && (r.flags.Ov <==> !FitsSigned16(Signed(a) - Signed(b)))
      && (!r.flags.Ov ==> Signed(r.regs[Rd(m.ir)]) == Signed(a) - Signed(b))
      && (r.flags.Z <==> a == b)
      && (r.flags.S <==> Signed(r.regs[Rd(m.ir)]) < 0)
  {
  }

  /**
   * ADD r0, r0, r1 with r0 = 0xFFFF and r1 = 1: the sum wraps to 0, yet C
   * stays clear, because the carry test reads r0 after it was overwritten.
   */
  lemma AliasedAddDropsCarry(m: Machine)
    requires m.ir == 0x4004 && m.regs[0] == 0xFFFF && m.regs[1] == 1
    ensures Rd(m.ir) == 0 && Rm(m.ir) == 0 && Rn(m.ir) == 1
    ensures m.regs[0] as int + m.regs[1] >= 0x1_0000
    ensures ExecAdd(m).regs[0] == 0 && !ExecAdd(m).flags.C
  {
  }

  /**
   * MUL with a destination distinct from both sources: rd is the product
   * modulo 2^16; C is the ADD carry test on the operands (a + b above
   * 0xFFFF), not a test of the product; Ov holds when the operands have
   * the same sign and the result's sign differs from rn's.
   */
  lemma MulSemantics(m: Machine)
    requires Rd(m.ir) != Rm(m.ir) && Rd(m.ir) != Rn(m.ir)
    requires MulOk(m.regs[Rm(m.ir)], m.regs[Rn(m.ir)])
    ensures var a: int, b: int, r := m.regs[Rm(m.ir)], m.regs[Rn(m.ir)], ExecMul(m);
      && r == m.(regs := m.regs[Rd(m.ir) := (a * b) % 0x1_0000], flags := r.flags)
      && (r.flags.C <==> a + b > 0xFFFF)
      && (r.flags.Ov <==> SignBit(a) == SignBit(b) && SignBit(b) != SignBit(r.regs[Rd(m.ir)]))
      && (r.flags.Z <==> r.regs[Rd(m.ir)] == 0)
      && (r.flags.S <==> r.regs[Rd(m.ir)] >= 0x8000)
  {
    var a, b := m.regs[Rm(m.ir)], m.regs[Rn(m.ir)];
    XorSignBit(a, b);
    XorSignBit(b, ExecMul(m).regs[Rd(m.ir)]);
  }

  /** SUB undoes ADD: ADD rd, rm, rn then SUB rx, rd, rn leaves the old rm in rx. */
  lemma AddThenSub(m: Machine, add: Word, sub: Word)
    requires StackInWindow(m.sp)
    requires Opcode(add) == 4 && Opcode(sub) == 5
    requires Rd(add) != Rn(add)
    requires Rm(sub) == Rd(add) && Rn(sub) == Rn(add)
    ensures var (s1, m1) := ExecWord(m, add);
            var (s2, m2) := ExecWord(m1, sub);
            s1 == Running && s2 == Running && m2.regs[Rd(sub)] == m.regs[Rm(add)]
  {
    var (s1, m1) := ExecWord(m, add);
    var a: int, b: int := m.regs[Rm(add)], m.regs[Rn(add)];
    assert m1.regs[Rd(add)] == Wrap(a + b) && m1.regs[Rn(add)] == b;
    var (s2, m2) := ExecWord(m1, sub);
    assert m2.regs[Rd(sub)] == Wrap(Wrap(a + b) - b);
    WrapUndoesAdd(a, b);
  }

  lemma WrapUndoesAdd(a: Word, b: Word)
    ensures Wrap(Wrap(a as int + b) - b) == a
  {
    if a as int + b < 0x1_0000 {
      assert Wrap(a as int + b) == a + b;
    } else {
      assert Wrap(a as int + b) == a + b - 0x1_0000;
      assert Wrap(a - 0x1_0000) == a;
    }
  }

  // ---------------------------------------------------------------------
  // Bitwise operators

  /** Bit k of a Bitwise result is op applied to bit k of each operand. */
  lemma {:induction false} BitOfBitwise(op: BitOperator, a: nat, b: nat, width: nat, k: nat)
    requires k < width
    ensures Bitwise(op, a, b, width) / Pow2(k) % 2 == (if ApplyBit(op, a / Pow2(k) % 2 == 1, b / Pow2(k) % 2 == 1) then 1 else 0)
    decreases k
  {
    if k > 0 {
      var r := Bitwise(op, a, b, width);
      BitOfBitwise(op, a / 2, b / 2, width - 1, k - 1);
      assert r / 2 == Bitwise(op, a / 2, b / 2, width - 1);
      DivideTwice(r, 2, Pow2(k - 1));
      DivideTwice(a, 2, Pow2(k - 1));
      DivideTwice(b, 2, Pow2(k - 1));
    }
  }

  /** The sign bit is bit 15. */
  lemma SignBitIsBit15(w: Word)
    ensures SignBit(w) <==> BitAt(w, 15)
  {
    Pow2Values();
  }

  /** The sign bit of a ^ b is set exactly when a and b differ in sign. */
  lemma XorSignBit(a: Word, b: Word)
    ensures SignBit(BitXor(a, b)) <==> SignBit(a) != SignBit(b)
  {
    Pow2Values();
    BitOfBitwise(XorOp, a, b, 16, 15);
    SignBitIsBit15(a);
    SignBitIsBit15(b);
    SignBitIsBit15(BitXor(a, b));
  }

  /**
   * Bit k of AND, ORR and XOR results is the and, or and exclusive or of
   * bit k of the operands; NOT is the complement within 16 bits.
   */
  lemma LogicBits(a: Word, b: Word)
    ensures BitNot(a) == 0xFFFF - a
    ensures forall k :: 0 <= k < 16 ==>
      && (BitAt(BitAnd(a, b), k) <==> BitAt(a, k) && BitAt(b, k))
      && (BitAt(BitOr(a, b), k) <==> BitAt(a, k) || BitAt(b, k))
      && (BitAt(BitXor(a, b), k) <==> BitAt(a, k) != BitAt(b, k))
  {
    forall k | 0 <= k < 16
      ensures && (BitAt(BitAnd(a, b), k) <==> BitAt(a, k) && BitAt(b, k))
              && (BitAt(BitOr(a, b), k) <==> BitAt(a, k) || BitAt(b, k))
              && (BitAt(BitXor(a, b), k) <==> BitAt(a, k) != BitAt(b, k))
    {
      BitOfBitwise(AndOp, a, b, 16, k);
      BitOfBitwise(OrOp, a, b, 16, k);
      BitOfBitwise(XorOp, a, b, 16, k);
    }
  }

  /**
   * AND, ORR, NOT and XOR write rd with the operator's result and set Z
   * and S from it, keeping C, Ov and everything else.
   */
  lemma LogicSemantics(m: Machine)
    requires StackInWindow(m.sp) && 7 <= Opcode(m.ir) <= 10
    ensures var (status, r) := Execute(m);
      var op, a, b := Opcode(m.ir), m.regs[Rm(m.ir)], m.regs[Rn(m.ir)];
      var v := if op == 7 then BitAnd(a, b) else if op == 8 then BitOr(a, b)
               else if op == 9 then BitNot(a) else BitXor(a, b);
      && status == Running
      && r == m.(regs := m.regs[Rd(m.ir) := v], flags := m.flags.(Z := v == 0, S := v >= 0x8000))
  {
  }

  // ---------------------------------------------------------------------
  // Compare and branch

  /**
   * A jump word (opcode 0 with bit 11 set) changes nothing but pc: JMP
   * always adds its 9-bit offset, modulo 2^16; JEQ when Z is set and S
   * clear; JLT when Z is clear and S set; JGT when both are clear.
   */
  lemma JumpSemantics(m: Machine, w: Word)
    requires StackInWindow(m.sp) && Opcode(w) == 0 && Bit11(w)
    ensures 0 <= JumpOffset(w) < 0x200
    ensures var f, kind := m.flags, Low2(w);
            var taken := kind == 0 || (kind == 1 && f.Z && !f.S) || (kind == 2 && !f.Z && f.S)
                         || (kind == 3 && !f.Z && !f.S);
            ExecWord(m, w) == (Running, m.(ir := w, pc := if taken then (m.pc + JumpOffset(w)) % 0x1_0000 else m.pc))
  {
    assert w != 0;
  }

  /**
   * CMP rm, rn followed by a jump: the jump moves pc by its offset (modulo
   * 2^16) exactly when JMP, or JEQ and rm == rn, or JLT and rm < rn, or JGT
   * and rm > rn (unsigned); CMP sets Z and S and nothing else changes.
   */
  lemma CompareThenBranch(m: Machine, cmp: Word, jump: Word)
    requires StackInWindow(m.sp)
    requires Opcode(cmp) == 0 && !Bit11(cmp) && Low2(cmp) == 3
    requires Opcode(jump) == 0 && Bit11(jump)
    ensures var a, b := m.regs[Rm(cmp)], m.regs[Rn(cmp)];
            var kind := Low2(jump);
            var taken := kind == 0 || (kind == 1 && a == b) || (kind == 2 && a < b) || (kind == 3 && a > b);
            var (s1, m1) := ExecWord(m, cmp);
            var (s2, m2) := ExecWord(m1, jump);
            && s1 == Running && s2 == Running
            && m2 == m.(ir := jump, flags := m.flags.(Z := a == b, S := a < b),
                        pc := if taken then (m.pc + JumpOffset(jump)) % 0x1_0000 else m.pc)
  {
    assert cmp != 0 && jump != 0;
  }

  // ---------------------------------------------------------------------
  // The stack

  /**
   * PSH rn then POP rd, with room on the stack: rd receives the old rn, sp
   * returns to its value, and the pushed word stays in data memory at the
   * old sp.
   */
  lemma PushThenPop(m: Machine, psh: Word, pop: Word)
    requires StackInWindow(m.sp) && m.sp > STACK_FLOOR
    requires Opcode(psh) == 0 && !Bit11(psh) && Low2(psh) == 1
    requires Opcode(pop) == 0 && !Bit11(pop) && Low2(pop) == 2
    ensures var (s1, m1) := ExecWord(m, psh);
            var (s2, m2) := ExecWord(m1, pop);
            && s1 == Running && s2 == Running
            && m2 == m.(ir := pop, data := WriteWord(m.data, m.sp, m.regs[Rn(psh)]),
                        regs := m.regs[Rd(pop) := m.regs[Rn(psh)]])
  {
    assert psh != 0 && pop != 0;
    var (s1, m1) := ExecWord(m, psh);
    assert m1.sp == m.sp - 2 && m1.data == WriteWord(m.data, m.sp, m.regs[Rn(psh)]);
    var (s2, m2) := ExecWord(m1, pop);
    assert m2.sp == m.sp;
    assert m2.regs == m.regs[Rd(pop) := ReadWord(m1.data, m.sp)];
  }

  /** Hence a PSH of a register followed by a POP into the same register restores it and sp. */
  lemma PushPopRestores(m: Machine, psh: Word, pop: Word)
    requires StackInWindow(m.sp) && m.sp > STACK_FLOOR
    requires Opcode(psh) == 0 && !Bit11(psh) && Low2(psh) == 1
    requires Opcode(pop) == 0 && !Bit11(pop) && Low2(pop) == 2
    requires Rd(pop) == Rn(psh)
    ensures var m2 := ExecWord(ExecWord(m, psh).1, pop).1;
            m2.regs == m.regs && m2.sp == m.sp && m2.flags == m.flags && m2.pc == m.pc
  {
    PushThenPop(m, psh, pop);
    assert m.regs[Rd(pop) := m.regs[Rn(psh)]] == m.regs;
  }

  /** A PSH on a full stack and a POP on an empty one change nothing but ir. */
  lemma StackLimitsAreSilent(m: Machine, w: Word)
    requires StackInWindow(m.sp)
    requires Opcode(w) == 0 && !Bit11(w)
    requires (Low2(w) == 1 && m.sp == STACK_FLOOR) || (Low2(w) == 2 && m.sp == STACK_START)
    ensures ExecWord(m, w) == (Running, m.(ir := w))
  {
    assert w != 0;
  }

  // ---------------------------------------------------------------------
  // Store and load

  /**
   * MOV writes rd and nothing else: with bit 11 set, the low byte of the
   * word zero-extended; otherwise the value of rm.
   */
  lemma MovSemantics(m: Machine, w: Word)
    requires StackInWindow(m.sp) && Opcode(w) == 1
    ensures var value := if Bit11(w) then w % 0x100 else m.regs[Rm(w)];
            ExecWord(m, w) == (Running, m.(ir := w, regs := m.regs[Rd(w) := value]))
  {
  }

  /**
   * STR to the address in rm followed by LDR rd from the address in the
   * same register: rd receives the stored word (the immediate or rn), the
   * word sits little-endian in data memory, and flags, pc, sp and
   * instruction memory are unchanged.
   */
  lemma StoreThenLoad(m: Machine, str: Word, ldr: Word)
    requires StackInWindow(m.sp)
    requires Opcode(str) == 2 && Opcode(ldr) == 3 && Rm(ldr) == Rm(str)
    requires AddressOk(m.regs[Rm(str)])
    ensures var base := m.regs[Rm(str)];
            var value := if Bit11(str) then StrImmediate(str) else m.regs[Rn(str)];
            var (s1, m1) := ExecWord(m, str);
            var (s2, m2) := ExecWord(m1, ldr);
            && s1 == Running && s2 == Running
            && m2 == m.(ir := ldr, data := WriteWord(m.data, base, value),
                        regs := m.regs[Rd(ldr) := value])
  {
  }

  // ---------------------------------------------------------------------
  // Shifts and rotates

  /**
   * SHR by imm, with a destination distinct from rm: rd is rm divided by
   * 2^imm, rounding down; C is the last bit shifted out, so it is set
   * exactly when the discarded low imm bits reach 2^(imm - 1); Ov is kept.
   */
  lemma ShiftRightSemantics(m: Machine)
    requires ShrOk(Imm5(m.ir)) && Rd(m.ir) != Rm(m.ir)
    ensures var a, k, r := m.regs[Rm(m.ir)], Imm5(m.ir), ExecShr(m);
            && r.regs[Rd(m.ir)] == a / Pow2(k)
            && (r.flags.C <==> a % Pow2(k) >= Pow2(k - 1))
            && r.flags.Ov == m.flags.Ov && r.flags.Z == (a / Pow2(k) == 0)
  {
    LastBitShiftedOut(m.regs[Rm(m.ir)], Imm5(m.ir));
  }

  /** Bit k - 1 of a is set exactly when the low k bits of a reach 2^(k - 1). */
  lemma LastBitShiftedOut(a: Word, k: nat)
    requires k >= 1
    ensures BitAt(a, k - 1) <==> a % Pow2(k) >= Pow2(k - 1)
  {
    DivideTwice(a, Pow2(k - 1), 2);
    assert Pow2(k - 1) * 2 == Pow2(k);
  }

  /**
   * SHL sets C and Ov from the same bit 16 - imm of rm, so they agree for
   * every defined shift amount, and both are clear for a shift by zero.
   */
  lemma ShiftLeftCarryIsOverflow(m: Machine)
    requires ShlOk(Imm5(m.ir))
    ensures ExecShl(m).flags.C == ExecShl(m).flags.Ov
    ensures Imm5(m.ir) == 0 ==> !ExecShl(m).flags.C
  {
    if Imm5(m.ir) == 0 {
      var w := ExecShl(m).regs[Rm(m.ir)];
      assert Pow2(16) == 0x1_0000 by {
        assert Pow2(8) == 0x100;
      }
      assert w / Pow2(16) == 0;
    }
  }

  /**
   * ROL undoes ROR: ROR rd, rm then ROL rx, rd puts the old rm in rx, and
   * the carry ROL leaves is the bit ROR rotated out.
   */
  lemma RotateLeftUndoesRotateRight(m: Machine, ror: Word, rol: Word)
    requires StackInWindow(m.sp)
    requires Opcode(ror) == 13 && Opcode(rol) == 14 && Rm(rol) == Rd(ror)
    ensures var (s1, m1) := ExecWord(m, ror);
            var (s2, m2) := ExecWord(m1, rol);
            && s1 == Running && s2 == Running
            && m2.regs[Rd(rol)] == m.regs[Rm(ror)]
            && m2.flags.C == m1.flags.C == (m.regs[Rm(ror)] % 2 == 1)
            && m2.flags.Ov == m.flags.Ov
  {
    var a := m.regs[Rm(ror)];
    var (s1, m1) := ExecWord(m, ror);
    var rotated := a / 2 + (if a % 2 == 1 then 0x8000 else 0);
    assert m1.regs[Rd(ror)] == rotated;
    assert SignBit(rotated) == (a % 2 == 1);
  }

  // ---------------------------------------------------------------------
  // Halting and execution

  /**
   * A step halts exactly at the end of the image (nothing changes) or on a
   * word whose high byte, at pc + 1, is 0xF0 or more: opcode 0b1111.
   */
  lemma StepHalts(m: Machine)
    requires StackInWindow(m.sp)
    ensures Step(m).0 == Halted <==> m.pc >= m.last || m.instr[m.pc + 1] >= 0xF0
    ensures m.pc >= m.last ==> Step(m) == (Halted, m)
    ensures m.pc < m.last && m.instr[m.pc + 1] >= 0xF0 ==> Step(m) == (Halted, Fetch(m))
  {
    if m.pc < m.last {
      var w := ReadWord(m.instr, m.pc);
      assert w / 0x1000 == m.instr[m.pc + 1] / 0x10;
    }
  }

  /** Execution never writes instruction memory or the image extent, and keeps sp in its window. */
  lemma {:induction false} RunKeepsImage(m: Machine, fuel: nat)
    requires StackInWindow(m.sp)
    ensures var r := Run(m, fuel).1;
            r.instr == m.instr && r.last == m.last && StackInWindow(r.sp)
    decreases fuel
  {
    if fuel > 0 {
      var (status, next) := Step(m);
      if status == Running {
        RunKeepsImage(next, fuel - 1);
      }
    }
  }

  /** Once execution has stopped, more fuel changes neither the status nor the state. */
  lemma {:induction false} RunStopsForGood(m: Machine, fuel: nat, more: nat)
    requires StackInWindow(m.sp)
    requires Run(m, fuel).0 != Running
    ensures Run(m, fuel + more) == Run(m, fuel)
    decreases fuel
  {
    var (status, next) := Step(m);
    if status == Running {
      RunStopsForGood(next, fuel - 1, more);
    }
  }

  /**
   * Execution can diverge: with every 512-byte boundary holding JMP +510
   * (0x0FF8) and last_instruction 0xFFFF, pc runs through the boundaries and
   * wraps around forever, so no amount of fuel reaches a halt.
   */
  lemma {:induction false} JumpChainNeverHalts(m: Machine, fuel: nat)
    requires StackInWindow(m.sp) && m.last == 0xFFFF && m.pc % 0x200 == 0
    requires forall a :: 0 <= a < 0xFFFF && a % 0x200 == 0 ==> ReadWord(m.instr, a) == 0x0FF8
    ensures Run(m, fuel).0 == Running
    decreases fuel
  {
    if fuel > 0 {
      var f := Fetch(m);
      assert f.ir == 0x0FF8;
      assert Opcode(f.ir) == 0 && Bit11(f.ir) && Low2(f.ir) == 0 && JumpOffset(f.ir) == 510;
      var (status, next) := Step(m);
      assert next.pc == (m.pc + 0x200) % 0x1_0000;
      assert next.pc % 0x200 == 0;
      RunKeepsImage(m, 1);
      JumpChainNeverHalts(next, fuel - 1);
    }
  }

  /**
   * run() on a loaded machine starts every time from the same state except
   * for data memory, which the previous run may have written: pc, sp,
   * registers, flags, instruction memory and last_instruction are reset or
   * kept.
   */
  lemma RerunStartsFromSameImage(m: Machine, fuel: nat)
    ensures StackInWindow(Reset(m).sp)
    ensures var after := Run(Reset(m), fuel).1;
            Reset(after) == Reset(m).(data := after.data, ir := after.ir)
  {
    RunKeepsImage(Reset(m), fuel);
  }

  // ---------------------------------------------------------------------
  // Loading an image

  /**
   * After loading, last_instruction is the last line's address + 2 modulo
   * 2^16, whatever the other addresses were, and nothing but the two
   * memories and last_instruction changed.
   */
  lemma {:induction false} LoadSetsExtent(m: Machine, lines: seq<ImageLine>)
    requires Storable(lines)
    ensures var r := LoadLines(m, lines);
            && r.last == (if lines == [] then m.last else (lines[|lines| - 1].address + 2) % 0x1_0000)
            && r == m.(data := r.data, instr := r.instr, last := r.last)
    decreases |lines|
  {
    if lines != [] {
      LoadSetsExtent(m, lines[..|lines| - 1]);
    }
  }

  /**
   * A line whose word no later line overlaps reads back from both data and
   * instruction memory after loading.
   */
  lemma {:induction false} LoadedWordReadsBack(m: Machine, lines: seq<ImageLine>, i: nat)
    requires Storable(lines) && i < |lines|
    requires forall j :: i < j < |lines| ==>
               lines[j].address + 1 < lines[i].address || lines[j].address > lines[i].address + 1
    ensures var r := LoadLines(m, lines);
            && ReadWord(r.data, lines[i].address) == lines[i].content
            && ReadWord(r.instr, lines[i].address) == lines[i].content
    decreases |lines|
  {
    var n := |lines| - 1;
    if i < n {
      var prefix := lines[..n];
      assert forall j :: i < j < n ==> prefix[j] == lines[j];
      LoadedWordReadsBack(m, prefix, i);
      StoreLineKeepsOtherWords(LoadLines(m, prefix), lines[n], lines[i].address);
    }
  }

  /** Storing one line leaves the word at any address it does not overlap unchanged in both memories. */
  lemma StoreLineKeepsOtherWords(m: Machine, line: ImageLine, a: int)
    requires line.address < 0xFFFF && 0 <= a < MEMORY_SIZE - 1
    requires line.address + 1 < a || line.address > a + 1
    ensures ReadWord(StoreLine(m, line).data, a) == ReadWord(m.data, a)
    ensures ReadWord(StoreLine(m, line).instr, a) == ReadWord(m.instr, a)
  {
    var r := StoreLine(m, line);
    assert r.data[a] == m.data[a] && r.data[a + 1] == m.data[a + 1];
    assert r.instr[a] == m.instr[a] && r.instr[a + 1] == m.instr[a + 1];
  }

  /** Loading into a machine whose two memories agree leaves them agreeing. */
  lemma {:induction false} LoadKeepsMemoriesEqual(m: Machine, lines: seq<ImageLine>)
    requires Storable(lines) && m.data == m.instr
    ensures LoadLines(m, lines).data == LoadLines(m, lines).instr
    decreases |lines|
  {
    if lines != [] {
      LoadKeepsMemoriesEqual(m, lines[..|lines| - 1]);
    }
  }

  /**
   * A fresh load whose last line is at 0xFFFE ends with last_instruction 0,
   * which loadMemory reports as "no instruction loaded", however many
   * lines were stored.
   */
  lemma LastLineAtTopOfMemoryFailsToLoad(lines: seq<ImageLine>)
    requires Storable(lines) && lines != [] && lines[|lines| - 1].address == 0xFFFE
    ensures LoadLines(Initial(), lines).last == 0
  {
    LoadSetsExtent(Initial(), lines);
  }

  // ---------------------------------------------------------------------
  // One-line images

  /**
   * The image "0000: 0x1007" run from reset halts after one instruction
   * with R0 still 0 and every flag clear: bit 11 of 0x1007 is clear, so the
   * word is MOV R0, R0.  "0000: 0x1807", the immediate form, leaves R0 = 7.
   */
  lemma OneLineImages()
    ensures var image := LoadLines(Initial(), [ImageLine(0, 0x1007)]);
            var (status, r) := Run(Reset(image), 2);
            status == Halted && r.regs[0] == 0 && r.flags == CLEAR_FLAGS && r.pc == 2
    ensures var image := LoadLines(Initial(), [ImageLine(0, 0x1807)]);
            var (status, r) := Run(Reset(image), 2);
            status == Halted && r.regs[0] == 7 && r.flags == CLEAR_FLAGS && r.pc == 2
  {
    var lines := [ImageLine(0, 0x1007)];
    var image := Reset(LoadLines(Initial(), lines));
    assert lines[..0] == [];
    assert image.last == 2 && image.instr[0] == 0x07 && image.instr[1] == 0x10;
    var f := Fetch(image);
    assert f.ir == 0x1007 && !Bit11(f.ir) && Rd(f.ir) == 0 && Rm(f.ir) == 0;
    var (s1, m1) := Step(image);
    assert m1.regs[0] == 0 && m1.pc == 2 && s1 == Running;

    var lines' := [ImageLine(0, 0x1807)];
    var image' := Reset(LoadLines(Initial(), lines'));
    assert lines'[..0] == [];
    assert image'.last == 2 && image'.instr[0] == 0x07 && image'.instr[1] == 0x18;
    var f' := Fetch(image');
    assert f'.ir == 0x1807 && Bit11(f'.ir) && Rd(f'.ir) == 0 && Imm8(f'.ir) == 7;
    var (s1', m1') := Step(image');
    assert m1'.regs[0] == 7 && m1'.pc == 2 && s1' == Running;
  }
}
