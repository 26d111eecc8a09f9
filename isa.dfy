/**
 * Pure semantics of the 16-bit machine executed by CPUSimulator
 * (Simulador/Assembly.h): machine state as a value, the effect of each
 * instruction handler, one fetch-decode-execute step, and execution with a
 * fuel bound.
 *
 * Bytes and words are integers in 0..0xFF and 0..0xFFFF.  Every place where
 * the source truncates to uint16_t is written out with Wrap.  The bitwise
 * operators are defined bit by bit on those integers.
 */
module Isa {

  import opened Arithmetic

  type Byte = x: int | 0 <= x < 0x100
  type Word = x: int | 0 <= x < 0x1_0000
  type RegIndex = i: int | 0 <= i < 8
  /** The two low bits of an instruction, which select within the zero group. */
  type Low2Bits = k: int | 0 <= k < 4

  const MEMORY_SIZE: nat := 0x1_0000
  const STACK_SIZE: nat := 16
  const STACK_START: Word := 0x8200
  /** STACK_START - STACK_SIZE: the lowest value the stack pointer takes. */
  const STACK_FLOOR: Word := 0x81F0
  /** INT_MAX of the 32-bit int the uint16_t operands are promoted to. */
  const INT_MAX: int := 0x7FFF_FFFF

  type Memory = s: seq<Byte> | |s| == MEMORY_SIZE witness seq(MEMORY_SIZE, _ => 0)
  type RegisterFile = s: seq<Word> | |s| == 8 witness seq(8, _ => 0)

  /** The Flags struct; its constructor clears all four. */
  datatype Flags = Flags(C: bool, Ov: bool, Z: bool, S: bool)
  const CLEAR_FLAGS: Flags := Flags(false, false, false, false)

  /**
   * Every field of a CPUSimulator the handlers use: data memory,
   * instruction memory, the register file, pc, ir, sp, the flags and
   * last_instruction.
   */
  datatype Machine = Machine(
    data: Memory,
    instr: Memory,
    regs: RegisterFile,
    pc: Word,
    ir: Word,
    sp: Word,
    flags: Flags,
    last: Word)

  /**
   * How execution stopped: still Running (fuel ran out), Halted (end of
   * image or opcode 0b1111), or Undefined (the next instruction has
   * undefined behaviour in the source, so the model does not execute it).
   */
  datatype Status = Running | Halted | Undefined

  /** Truncation of an int to uint16_t. */
  function Wrap(x: int): Word { x % 0x1_0000 }

  // ---------------------------------------------------------------------
  // Words, bits and the little-endian memory layout

  /** A word's sign bit, (w >> 15) & 1. */
  predicate SignBit(w: Word) { w / 0x8000 == 1 }

  /** Bit k of w, (w >> k) & 1 on the int the word is promoted to. */
  predicate BitAt(w: Word, k: nat) { w / Pow2(k) % 2 == 1 }

  /** The two's-complement value of a word. */
  function Signed(w: Word): int { if w < 0x8000 then w else w - 0x1_0000 }

  predicate FitsSigned16(x: int) { -0x8000 <= x < 0x8000 }

  /** The operators &, | and ^, which act on each bit position on its own. */
  datatype BitOperator = AndOp | OrOp | XorOp

  function ApplyBit(op: BitOperator, x: bool, y: bool): bool
  {
    match op
    case AndOp => x && y
    case OrOp => x || y
    case XorOp => x != y
  }

  /** op applied to the low width bits of a and b, least significant bit first. */
  function Bitwise(op: BitOperator, a: nat, b: nat, width: nat): (r: nat)
    ensures r < Pow2(width)
  {
    if width == 0 then 0
    else (if ApplyBit(op, a % 2 == 1, b % 2 == 1) then 1 else 0) + 2 * Bitwise(op, a / 2, b / 2, width - 1)
  }

  // On the non-negative ints that uint16_t operands are promoted to, &, |
  // and ^ act on the 16 low bits only, so the results are words again.
  function BitAnd(a: Word, b: Word): Word { Pow2Values(); Bitwise(AndOp, a, b, 16) }
  function BitOr(a: Word, b: Word): Word { Pow2Values(); Bitwise(OrOp, a, b, 16) }
  function BitXor(a: Word, b: Word): Word { Pow2Values(); Bitwise(XorOp, a, b, 16) }

  /** ~a on the promoted int is -a - 1, truncated to uint16_t. */
  function BitNot(a: Word): Word { Wrap(-(a as int) - 1) }

  /** The word stored little-endian at addr and addr + 1. */
  function ReadWord(mem: Memory, addr: int): (w: Word)
    requires 0 <= addr < MEMORY_SIZE - 1
    ensures w / 0x100 == mem[addr + 1] && w % 0x100 == mem[addr]
  {
    mem[addr] as int + 0x100 * mem[addr + 1] as int
  }

  /** Stores w little-endian: low byte at addr, high byte at addr + 1. */
  function WriteWord(mem: Memory, addr: int, w: Word): (r: Memory)
    requires 0 <= addr < MEMORY_SIZE - 1
    ensures ReadWord(r, addr) == w
    ensures forall i :: 0 <= i < MEMORY_SIZE && i != addr && i != addr + 1 ==> r[i] == mem[i]
  {
    mem[addr := w % 0x100][addr + 1 := w / 0x100]
  }

  // ---------------------------------------------------------------------
  // Instruction fields, at the fixed positions every handler extracts them

  /** (ir >> 12) & 0b1111 */
  function Opcode(ir: Word): int { ir / 0x1000 }
  /** (ir >> 11) & 0b1 */
  predicate Bit11(ir: Word) { ir / 0x800 % 2 == 1 }
  /** rd, (ir >> 8) & 0b111 */
  function Rd(ir: Word): RegIndex { ir / 0x100 % 8 }
  /** rm, (ir >> 5) & 0b111 */
  function Rm(ir: Word): RegIndex { ir / 0x20 % 8 }
  /** rn, (ir >> 2) & 0b111 */
  function Rn(ir: Word): RegIndex { ir / 4 % 8 }
  /** ir & 0b11 */
  function Low2(ir: Word): Low2Bits { ir % 4 }
  /** The shift amount, ir & 0b11111. */
  function Imm5(ir: Word): int { ir % 0x20 }
  /** MOV's immediate, ir & 0b11111111. */
  function Imm8(ir: Word): Word { ir % 0x100 }
  /** The jump offset, (ir >> 2) & 0b111111111. */
  function JumpOffset(ir: Word): Word { ir / 4 % 0x200 }
  /** STR's immediate, ((ir >> 8) & 0b111) << 5 | (ir & 0b11111); the two parts do not overlap. */
  function StrImmediate(ir: Word): Word { ir / 0x100 % 8 * 0x20 + ir % 0x20 }

  // ---------------------------------------------------------------------
  // Machine-wide facts

  /**
   * The stack pointer starts at STACK_START and moves in steps of two
   * between STACK_FLOOR and STACK_START, so PSH and POP stay inside memory.
   */
  predicate StackInWindow(sp: Word)
  {
    STACK_FLOOR <= sp <= STACK_START && sp % 2 == 0
  }

  /** The state a freshly constructed CPUSimulator holds. */
  function Initial(): Machine
  {
    Machine(seq(MEMORY_SIZE, _ => 0), seq(MEMORY_SIZE, _ => 0), seq(8, _ => 0),
            0, 0, STACK_START, CLEAR_FLAGS, 0)
  }

  /** What run() clears before it executes: pc, sp, the registers and the flags. */
  function Reset(m: Machine): Machine
  {
    m.(pc := 0, sp := STACK_START, regs := seq(8, _ => 0), flags := CLEAR_FLAGS)
  }

  // ---------------------------------------------------------------------
  // The handlers.  Each changes only the components it names in m.(...).

  /** Z and S describe the word just written into rd. */
  function ZeroSign(f: Flags, r: Word): Flags
  {
    f.(Z := r == 0, S := SignBit(r))
  }

  /** JMP, JEQ, JLT, JGT: add the offset to the already advanced pc. */
  function ExecJump(m: Machine, last2b: Low2Bits): Machine
  {
    var f := m.flags;
    var taken :=
      if last2b == 0 then true             // JMP
      else if last2b == 1 then f.Z && !f.S  // JEQ
      else if last2b == 2 then !f.Z && f.S  // JLT
      else !f.Z && !f.S;                   // JGT
    if taken then m.(pc := Wrap(m.pc + JumpOffset(m.ir))) else m
  }

  /** PSH, POP and CMP; a zero group word whose low bits are 00 does nothing. */
  function ExecStackAndCompare(m: Machine, last2b: Low2Bits): Machine
    requires StackInWindow(m.sp)
  {
    if last2b == 1 then
      // PSH: store at sp, then move sp down
      if m.sp > STACK_FLOOR then
        m.(data := WriteWord(m.data, m.sp, m.regs[Rn(m.ir)]), sp := m.sp - 2)
      else m
    else if last2b == 2 then
      // POP: move sp up, then load from it
      if STACK_FLOOR <= m.sp < STACK_START then
        var sp := m.sp + 2;
        m.(sp := sp, regs := m.regs[Rd(m.ir) := ReadWord(m.data, sp)])
      else m
    else if last2b == 3 then
      // CMP
      var a, b := m.regs[Rm(m.ir)], m.regs[Rn(m.ir)];
      m.(flags := m.flags.(Z := a == b, S := a < b))
    else m
  }

  /** Opcode 0b0000: NOP (the state dump is output only), jumps, stack and compare. */
  function ExecZeroGroup(m: Machine): Machine
    requires StackInWindow(m.sp)
  {
    if m.ir == 0 then m
    else if Bit11(m.ir) then ExecJump(m, Low2(m.ir))
    else ExecStackAndCompare(m, Low2(m.ir))
  }

  function ExecMov(m: Machine): Machine
  {
    var rd := Rd(m.ir);
    if Bit11(m.ir) then m.(regs := m.regs[rd := Imm8(m.ir)])
    else m.(regs := m.regs[rd := m.regs[Rm(m.ir)]])
  }

  /** A word access at base touches base + 1, which must be below MEMORY_SIZE. */
  predicate AddressOk(base: Word) { base < 0xFFFF }

  function ExecStr(m: Machine): Machine
    requires AddressOk(m.regs[Rm(m.ir)])
  {
    var value := if Bit11(m.ir) then StrImmediate(m.ir) else m.regs[Rn(m.ir)];
    m.(data := WriteWord(m.data, m.regs[Rm(m.ir)], value))
  }

  function ExecLdr(m: Machine): Machine
    requires AddressOk(m.regs[Rm(m.ir)])
  {
    m.(regs := m.regs[Rd(m.ir) := ReadWord(m.data, m.regs[Rm(m.ir)])])
  }

  // ADD, SUB and MUL write rd first and then read the flags' operands
  // from the updated register file, as the source does.

  function ExecAdd(m: Machine): Machine
  {
    var rd, rm, rn := Rd(m.ir), Rm(m.ir), Rn(m.ir);
    var regs := m.regs[rd := Wrap(m.regs[rm] as int + m.regs[rn])];
    m.(regs := regs, flags := Flags(
      C := regs[rm] > 0xFFFF - regs[rn],
      Ov := SignBit(regs[rm]) == SignBit(regs[rn]) && SignBit(regs[rm]) != SignBit(regs[rd]),
      Z := regs[rd] == 0,
      S := SignBit(regs[rd])))
  }

  function ExecSub(m: Machine): Machine
  {
    var rd, rm, rn := Rd(m.ir), Rm(m.ir), Rn(m.ir);
    var regs := m.regs[rd := Wrap(m.regs[rm] as int - m.regs[rn])];
    m.(regs := regs, flags := Flags(
      C := regs[rm] < regs[rn],
      Ov := SignBit(regs[rm]) != SignBit(regs[rn]) && SignBit(regs[rm]) != SignBit(regs[rd]),
      Z := regs[rd] == 0,
      S := SignBit(regs[rd])))
  }

  /** The product of the operands, both promoted to int. */
  function Product(a: Word, b: Word): int { a as int * b }

  /** The int product of the promoted operands must not overflow. */
  predicate MulOk(a: Word, b: Word) { Product(a, b) <= INT_MAX }

  function ExecMul(m: Machine): Machine
    requires MulOk(m.regs[Rm(m.ir)], m.regs[Rn(m.ir)])
  {
    var rd, rm, rn := Rd(m.ir), Rm(m.ir), Rn(m.ir);
    var regs := m.regs[rd := Wrap(Product(m.regs[rm], m.regs[rn]))];
    m.(regs := regs, flags := Flags(
      C := regs[rm] > 0xFFFF - regs[rn],
      Ov := !SignBit(BitXor(regs[rm], regs[rn])) && SignBit(BitXor(regs[rn], regs[rd])),
      Z := regs[rd] == 0,
      S := SignBit(regs[rd])))
  }

  /** AND, ORR, NOT and XOR: write rd, then set Z and S only. */
  function ExecLogic(m: Machine, value: Word): Machine
  {
    var regs := m.regs[Rd(m.ir) := value];
    m.(regs := regs, flags := ZeroSign(m.flags, regs[Rd(m.ir)]))
  }

  function ExecAnd(m: Machine): Machine
  {
    ExecLogic(m, BitAnd(m.regs[Rm(m.ir)], m.regs[Rn(m.ir)]))
  }

  function ExecOrr(m: Machine): Machine
  {
    ExecLogic(m, BitOr(m.regs[Rm(m.ir)], m.regs[Rn(m.ir)]))
  }

  function ExecNot(m: Machine): Machine
  {
    ExecLogic(m, BitNot(m.regs[Rm(m.ir)]))
  }

  function ExecXor(m: Machine): Machine
  {
    ExecLogic(m, BitXor(m.regs[Rm(m.ir)], m.regs[Rn(m.ir)]))
  }

  /** SHR reads bit imm - 1 for the carry: a shift by -1 when imm is 0. */
  predicate ShrOk(imm: int) { imm >= 1 }

  function ExecShr(m: Machine): Machine
    requires ShrOk(Imm5(m.ir))
  {
    var rd, rm, imm := Rd(m.ir), Rm(m.ir), Imm5(m.ir);
    QuotientBounded(m.regs[rm], Pow2(imm));
    var regs := m.regs[rd := m.regs[rm] / Pow2(imm)];
    m.(regs := regs, flags := ZeroSign(m.flags.(C := BitAt(regs[rm], imm - 1)), regs[rd]))
  }

  /** SHL shifts by 16 - imm for its flags: a negative shift when imm exceeds 16. */
  predicate ShlOk(imm: int) { imm <= 16 }

  function ExecShl(m: Machine): Machine
    requires 0 <= Imm5(m.ir) && ShlOk(Imm5(m.ir))
  {
    var rd, rm, imm := Rd(m.ir), Rm(m.ir), Imm5(m.ir);
    var regs := m.regs[rd := Wrap(m.regs[rm] * Pow2(imm))];
    // C reads bit 16 - imm by a shift, Ov the same bit through the mask 1 << (16 - imm)
    m.(regs := regs, flags := m.flags.(
      C := BitAt(regs[rm], 16 - imm),
      Z := regs[rd] == 0,
      S := SignBit(regs[rd]),
      Ov := BitAt(regs[rm], 16 - imm)))
  }

  /** ROR and ROL take the carry from rm before rd is written. */
  function ExecRor(m: Machine): Machine
  {
    var rd, rm := Rd(m.ir), Rm(m.ir);
    var c := m.regs[rm] % 2 == 1;
    var regs := m.regs[rd := m.regs[rm] / 2 + (if c then 0x8000 else 0)];
    m.(regs := regs, flags := ZeroSign(m.flags.(C := c), regs[rd]))
  }

  function ExecRol(m: Machine): Machine
  {
    var rd, rm := Rd(m.ir), Rm(m.ir);
    var c := SignBit(m.regs[rm]);
    var regs := m.regs[rd := Wrap(m.regs[rm] as int * 2 + (if c then 1 else 0))];
    m.(regs := regs, flags := ZeroSign(m.flags.(C := c), regs[rd]))
  }

  // ---------------------------------------------------------------------
  // Dispatch, fetch, step and run

  /**
   * The switch on the opcode of the word in ir.  No handler writes
   * instruction memory or the image extent, and the stack pointer stays in
   * its window.
   */
  function Execute(m: Machine): (r: (Status, Machine))
    requires StackInWindow(m.sp)
    ensures StackInWindow(r.1.sp)
    ensures r.1.instr == m.instr && r.1.last == m.last
  {
    var ir := m.ir;
    var op := Opcode(ir);
    if op == 0 then (Running, ExecZeroGroup(m))
    else if op == 1 then (Running, ExecMov(m))
    else if op == 2 then
      if AddressOk(m.regs[Rm(ir)]) then (Running, ExecStr(m)) else (Undefined, m)
    else if op == 3 then
      if AddressOk(m.regs[Rm(ir)]) then (Running, ExecLdr(m)) else (Undefined, m)
    else if op == 4 then (Running, ExecAdd(m))
    else if op == 5 then (Running, ExecSub(m))
    else if op == 6 then
      if MulOk(m.regs[Rm(ir)], m.regs[Rn(ir)]) then (Running, ExecMul(m)) else (Undefined, m)
    else if op == 7 then (Running, ExecAnd(m))
    else if op == 8 then (Running, ExecOrr(m))
    else if op == 9 then (Running, ExecNot(m))
    else if op == 10 then (Running, ExecXor(m))
    else if op == 11 then
      if ShrOk(Imm5(ir)) then (Running, ExecShr(m)) else (Undefined, m)
    else if op == 12 then
      if ShlOk(Imm5(ir)) then (Running, ExecShl(m)) else (Undefined, m)
    else if op == 13 then (Running, ExecRor(m))
    else if op == 14 then (Running, ExecRol(m))
    else (Halted, m)
  }

  /** Loads ir from instruction memory at pc and advances pc by 2. */
  function Fetch(m: Machine): Machine
    requires m.pc < m.last
  {
    m.(ir := ReadWord(m.instr, m.pc), pc := Wrap(m.pc + 2))
  }

  /** One iteration of decodeAndExecute's loop. */
  function Step(m: Machine): (r: (Status, Machine))
    requires StackInWindow(m.sp)
    ensures StackInWindow(r.1.sp)
    ensures r.1.instr == m.instr && r.1.last == m.last
  {
    if m.pc >= m.last then (Halted, m) else Execute(Fetch(m))
  }

  /** decodeAndExecute bounded by fuel steps; Running means the fuel ran out. */
  function Run(m: Machine, fuel: nat): (Status, Machine)
    requires StackInWindow(m.sp)
    decreases fuel
  {
    if fuel == 0 then (Running, m)
    else
      var (status, next) := Step(m);
      if status == Running then Run(next, fuel - 1) else (status, next)
  }

  // ---------------------------------------------------------------------
  // Loading an image

  /** One line "address: 0xcontent" of the image file, already parsed. */
  datatype ImageLine = ImageLine(address: Word, content: Word)

  /** Addresses whose word does not reach past the end of memory. */
  predicate Storable(lines: seq<ImageLine>)
  {
    forall i :: 0 <= i < |lines| ==> lines[i].address < 0xFFFF
  }

  /** The store step for one line: both memories, then last_instruction. */
  function StoreLine(m: Machine, line: ImageLine): Machine
    requires line.address < 0xFFFF
  {
    m.(data := WriteWord(m.data, line.address, line.content),
       instr := WriteWord(m.instr, line.address, line.content),
       last := Wrap(line.address as int + 2))
  }

  /** The store steps for all lines, in file order. */
  function LoadLines(m: Machine, lines: seq<ImageLine>): Machine
    requires Storable(lines)
    decreases |lines|
  {
    if lines == [] then m
    else StoreLine(LoadLines(m, lines[..|lines| - 1]), lines[|lines| - 1])
  }
}
