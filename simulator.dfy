/**
 * The CPUSimulator class of Simulador/Assembly.h: its fields, each
 * instruction handler, the fetch-decode-execute loop, run() and the store
 * step of loadMemory.  Every method is proved against the function of
 * module Isa that gives its effect on the whole machine state.
 */
module Simulator {
  import opened Arithmetic
  import opened Isa

  class CPUSimulator {
    var memoryData: array<Byte>
    var memoryInstructions: array<Byte>
    var registers: array<Word>
    var pc: Word
    var ir: Word
    var sp: Word
    var flags: Flags
    var lastInstruction: Word

    ghost predicate Valid()
      reads this
    {
      && memoryData.Length == MEMORY_SIZE
      && memoryInstructions.Length == MEMORY_SIZE
      && registers.Length == 8
      && memoryData != memoryInstructions
      && StackInWindow(sp)
    }

    /** The whole machine state as a value. */
    ghost function Snapshot(): Machine
      reads this, memoryData, memoryInstructions, registers
      requires Valid()
    {
      Machine(memoryData[..], memoryInstructions[..], registers[..],
              pc, ir, sp, flags, lastInstruction)
    }

    /** Both memories zero-filled, the registers zero, pc 0, sp at STACK_START, flags clear. */
    constructor ()
      ensures Valid() && Snapshot() == Initial()
      ensures fresh(memoryData) && fresh(memoryInstructions) && fresh(registers)
    {
      memoryData := new Byte[MEMORY_SIZE](_ => 0);
      memoryInstructions := new Byte[MEMORY_SIZE](_ => 0);
      registers := new Word[8](_ => 0);
      pc, ir, sp := 0, 0, STACK_START;
      flags := CLEAR_FLAGS;
      lastInstruction := 0;
      new;
      assert memoryData[..] == seq(MEMORY_SIZE, _ => 0);
      assert memoryInstructions[..] == seq(MEMORY_SIZE, _ => 0);
      assert registers[..] == seq(8, _ => 0);
    }

    // -------------------------------------------------------------------
    // The zero group

    method HandleJumpInstructions(last2b: Low2Bits)
      requires Valid()
      modifies this`pc
      ensures Valid() && Snapshot() == ExecJump(old(Snapshot()), last2b)
    {
      var imm := JumpOffset(ir);
      if last2b == 0 {
        pc := Wrap(pc + imm);
      } else if last2b == 1 {
        if flags.Z && !flags.S { pc := Wrap(pc + imm); }
      } else if last2b == 2 {
        if !flags.Z && flags.S { pc := Wrap(pc + imm); }
      } else {
        if !flags.Z && !flags.S { pc := Wrap(pc + imm); }
      }
    }

    method HandleStackAndCompareInstructions(last2b: Low2Bits)
      requires Valid()
      modifies memoryData, registers, this`sp, this`flags
      ensures Valid() && Snapshot() == ExecStackAndCompare(old(Snapshot()), last2b)
    {
      if last2b == 1 {
        // PSH
        if sp > STACK_FLOOR {
          var rn := Rn(ir);
          memoryData[sp] := registers[rn] % 0x100;
          memoryData[sp + 1] := registers[rn] / 0x100;
          sp := sp - 2;
        }
      } else if last2b == 2 {
        // POP
        if STACK_FLOOR <= sp < STACK_START {
          sp := sp + 2;
          var rd := Rd(ir);
          registers[rd] := memoryData[sp] as int + memoryData[sp + 1] as int * 0x100;
        }
      } else if last2b == 3 {
        // CMP
        var rm, rn := Rm(ir), Rn(ir);
        flags := flags.(Z := registers[rm] == registers[rn]);
        flags := flags.(S := registers[rm] < registers[rn]);
      }
    }

    method HandleZeroGroup()
      requires Valid()
      modifies memoryData, registers, this`pc, this`sp, this`flags
      ensures Valid() && Snapshot() == ExecZeroGroup(old(Snapshot()))
    {
      if ir == 0 {
        // NOP: the source prints the machine state here
        return;
      }
      var last2b := Low2(ir);
      if Bit11(ir) {
        HandleJumpInstructions(last2b);
      } else {
        HandleStackAndCompareInstructions(last2b);
      }
    }

    // -------------------------------------------------------------------
    // Data movement

    method HandleMov()
      requires Valid()
      modifies registers
      ensures Valid() && Snapshot() == ExecMov(old(Snapshot()))
    {
      var rd := Rd(ir);
      if Bit11(ir) {
        registers[rd] := Imm8(ir);
      } else {
        var rm := Rm(ir);
        registers[rd] := registers[rm];
      }
    }

    method HandleStr()
      requires Valid() && AddressOk(registers[Rm(ir)])
      modifies memoryData
      ensures Valid() && Snapshot() == ExecStr(old(Snapshot()))
    {
      var rm := Rm(ir);
      if Bit11(ir) {
        var imm := StrImmediate(ir);
        memoryData[registers[rm]] := imm % 0x100;
        memoryData[registers[rm] + 1] := imm / 0x100;
      } else {
        var rn := Rn(ir);
        memoryData[registers[rm]] := registers[rn] % 0x100;
        memoryData[registers[rm] + 1] := registers[rn] / 0x100;
      }
    }

    method HandleLdr()
      requires Valid() && AddressOk(registers[Rm(ir)])
      modifies registers
      ensures Valid() && Snapshot() == ExecLdr(old(Snapshot()))
    {
      var rd, rm := Rd(ir), Rm(ir);
      registers[rd] := memoryData[registers[rm]] as int + memoryData[registers[rm] + 1] as int * 0x100;
    }

    // -------------------------------------------------------------------
    // Arithmetic: rd is written first, the flags then read the registers

    method HandleAdd()
      requires Valid()
      modifies registers, this`flags
      ensures Valid() && Snapshot() == ExecAdd(old(Snapshot()))
    {
      var rd, rm, rn := Rd(ir), Rm(ir), Rn(ir);
      ghost var before := old(Snapshot());
      registers[rd] := Wrap(registers[rm] as int + registers[rn]);
      assert registers[..] == ExecAdd(before).regs;
      flags := flags.(C := registers[rm] > 0xFFFF - registers[rn]);
      flags := flags.(Z := registers[rd] == 0);
      flags := flags.(S := SignBit(registers[rd]));
      flags := flags.(Ov := SignBit(registers[rm]) == SignBit(registers[rn])
                         && SignBit(registers[rm]) != SignBit(registers[rd]));
    }

    method HandleSub()
      requires Valid()
      modifies registers, this`flags
      ensures Valid() && Snapshot() == ExecSub(old(Snapshot()))
    {
      var rd, rm, rn := Rd(ir), Rm(ir), Rn(ir);
      ghost var before := old(Snapshot());
      registers[rd] := Wrap(registers[rm] as int - registers[rn]);
      assert registers[..] == ExecSub(before).regs;
      flags := flags.(C := registers[rm] < registers[rn]);
      flags := flags.(Z := registers[rd] == 0);
      flags := flags.(S := SignBit(registers[rd]));
      flags := flags.(Ov := SignBit(registers[rm]) != SignBit(registers[rn])
                         && SignBit(registers[rm]) != SignBit(registers[rd]));
    }

    method HandleMul()
      requires Valid() && MulOk(registers[Rm(ir)], registers[Rn(ir)])
      modifies registers, this`flags
      ensures Valid() && Snapshot() == ExecMul(old(Snapshot()))
    {
      var rd, rm, rn := Rd(ir), Rm(ir), Rn(ir);
      ghost var before := old(Snapshot());
      registers[rd] := Wrap(Product(registers[rm], registers[rn]));
      assert registers[..] == ExecMul(before).regs;
      flags := flags.(C := registers[rm] > 0xFFFF - registers[rn]);
      flags := flags.(Z := registers[rd] == 0);
      flags := flags.(S := SignBit(registers[rd]));
      var sameSignRmRn := !SignBit(BitXor(registers[rm], registers[rn]));
      var differentSignResult := SignBit(BitXor(registers[rn], registers[rd]));
      flags := flags.(Ov := sameSignRmRn && differentSignResult);
    }

    // -------------------------------------------------------------------
    // Logic: Z and S only

    method HandleAnd()
      requires Valid()
      modifies registers, this`flags
      ensures Valid() && Snapshot() == ExecAnd(old(Snapshot()))
    {
      var rd, rm, rn := Rd(ir), Rm(ir), Rn(ir);
      registers[rd] := BitAnd(registers[rm], registers[rn]);
      flags := flags.(Z := registers[rd] == 0);
      flags := flags.(S := SignBit(registers[rd]));
    }

    method HandleOrr()
      requires Valid()
      modifies registers, this`flags
      ensures Valid() && Snapshot() == ExecOrr(old(Snapshot()))
    {
      var rd, rm, rn := Rd(ir), Rm(ir), Rn(ir);
      registers[rd] := BitOr(registers[rm], registers[rn]);
      flags := flags.(Z := registers[rd] == 0);
      flags := flags.(S := SignBit(registers[rd]));
    }

    method HandleNot()
      requires Valid()
      modifies registers, this`flags
      ensures Valid() && Snapshot() == ExecNot(old(Snapshot()))
    {
      var rd, rm := Rd(ir), Rm(ir);
      registers[rd] := BitNot(registers[rm]);
      flags := flags.(Z := registers[rd] == 0);
      flags := flags.(S := SignBit(registers[rd]));
    }

    method HandleXor()
      requires Valid()
      modifies registers, this`flags
      ensures Valid() && Snapshot() == ExecXor(old(Snapshot()))
    {
      var rd, rm, rn := Rd(ir), Rm(ir), Rn(ir);
      registers[rd] := BitXor(registers[rm], registers[rn]);
      flags := flags.(Z := registers[rd] == 0);
      flags := flags.(S := SignBit(registers[rd]));
    }

    // -------------------------------------------------------------------
    // Shifts and rotates

    method HandleShr()
      requires Valid() && ShrOk(Imm5(ir))
      modifies registers, this`flags
      ensures Valid() && Snapshot() == ExecShr(old(Snapshot()))
    {
      var rd, rm, imm := Rd(ir), Rm(ir), Imm5(ir);
      QuotientBounded(registers[rm], Pow2(imm));
      registers[rd] := registers[rm] / Pow2(imm);
      flags := flags.(C := BitAt(registers[rm], imm - 1));
      flags := flags.(Z := registers[rd] == 0);
      flags := flags.(S := SignBit(registers[rd]));
    }

    method HandleShl()
      requires Valid() && ShlOk(Imm5(ir))
      modifies registers, this`flags
      ensures Valid() && Snapshot() == ExecShl(old(Snapshot()))
    {
      var rd, rm, imm := Rd(ir), Rm(ir), Imm5(ir);
      registers[rd] := Wrap(registers[rm] as int * Pow2(imm));
      flags := flags.(C := BitAt(registers[rm], 16 - imm));
      flags := flags.(Z := registers[rd] == 0);
      flags := flags.(S := SignBit(registers[rd]));
      flags := flags.(Ov := BitAt(registers[rm], 16 - imm));
    }

    method HandleRor()
      requires Valid()
      modifies registers, this`flags
      ensures Valid() && Snapshot() == ExecRor(old(Snapshot()))
    {
      var rd, rm := Rd(ir), Rm(ir);
      flags := flags.(C := registers[rm] % 2 == 1);
      registers[rd] := registers[rm] / 2 + (if flags.C then 0x8000 else 0);
      flags := flags.(Z := registers[rd] == 0);
      flags := flags.(S := SignBit(registers[rd]));
    }

    method HandleRol()
      requires Valid()
      modifies registers, this`flags
      ensures Valid() && Snapshot() == ExecRol(old(Snapshot()))
    {
      var rd, rm := Rd(ir), Rm(ir);
      flags := flags.(C := SignBit(registers[rm]));
      registers[rd] := Wrap(registers[rm] as int * 2 + (if flags.C then 1 else 0));
      flags := flags.(Z := registers[rd] == 0);
      flags := flags.(S := SignBit(registers[rd]));
    }

    // -------------------------------------------------------------------
    // The engine loop

    /**
     * The switch of decodeAndExecute on the opcode in ir.  A word whose
     * handler would have undefined behaviour is not executed and reports
     * Undefined; opcode 0b1111 reports Halted.
     */
    method Dispatch() returns (status: Status)
      requires Valid()
      modifies memoryData, registers, this`pc, this`sp, this`flags
      ensures Valid() && (status, Snapshot()) == Execute(old(Snapshot()))
    {
      status := Running;
      var opcode := Opcode(ir);
      if opcode == 0 {
        HandleZeroGroup();
      } else if opcode == 1 {
        HandleMov();
      } else if opcode == 2 {
        if !AddressOk(registers[Rm(ir)]) { return Undefined; }
        HandleStr();
      } else if opcode == 3 {
        if !AddressOk(registers[Rm(ir)]) { return Undefined; }
        HandleLdr();
      } else if opcode == 4 {
        HandleAdd();
      } else if opcode == 5 {
        HandleSub();
      } else if opcode == 6 {
        if !MulOk(registers[Rm(ir)], registers[Rn(ir)]) { return Undefined; }
        HandleMul();
      } else if opcode == 7 {
        HandleAnd();
      } else if opcode == 8 {
        HandleOrr();
      } else if opcode == 9 {
        HandleNot();
      } else if opcode == 10 {
        HandleXor();
      } else if opcode == 11 {
        if !ShrOk(Imm5(ir)) { return Undefined; }
        HandleShr();
      } else if opcode == 12 {
        if !ShlOk(Imm5(ir)) { return Undefined; }
        HandleShl();
      } else if opcode == 13 {
        HandleRor();
      } else if opcode == 14 {
        HandleRol();
      } else {
        // HALT
        return Halted;
      }
    }

    /**
     * decodeAndExecute, for at most fuel iterations: each stops at the end
     * of the image, or fetches the little-endian word at pc from
     * instruction memory, advances pc by 2 and dispatches.
     */
    method DecodeAndExecute(fuel: nat) returns (status: Status)
      requires Valid()
      modifies memoryData, registers, this`pc, this`ir, this`sp, this`flags
      ensures Valid() && (status, Snapshot()) == Isa.Run(old(Snapshot()), fuel)
    {
      var remaining := fuel;
      while remaining > 0
        invariant Valid()
        invariant Isa.Run(Snapshot(), remaining) == Isa.Run(old(Snapshot()), fuel)
        decreases remaining
      {
        ghost var before := Snapshot();
        if pc >= lastInstruction {
          assert Step(before) == (Halted, before);
          return Halted;
        }
        ir := memoryInstructions[pc + 1] as int * 0x100 + memoryInstructions[pc] as int;
        pc := Wrap(pc + 2);
        assert Snapshot() == Fetch(before);
        status := Dispatch();
        assert Step(before) == (status, Snapshot());
        if status != Running {
          return;
        }
        remaining := remaining - 1;
      }
      return Running;
    }

    /** run(): clear pc, sp, the registers and the flags, then execute. */
    method Run(fuel: nat) returns (status: Status)
      requires Valid()
      modifies memoryData, registers, this`pc, this`ir, this`sp, this`flags
      ensures Valid() && (status, Snapshot()) == Isa.Run(Reset(old(Snapshot())), fuel)
    {
      pc := 0;
      sp := STACK_START;
      for i := 0 to 8
        modifies registers
        invariant forall j :: 0 <= j < i ==> registers[j] == 0
      {
        registers[i] := 0;
      }
      flags := CLEAR_FLAGS;
      assert registers[..] == seq(8, _ => 0);
      assert Snapshot() == Reset(old(Snapshot()));
      status := DecodeAndExecute(fuel);
    }

    // -------------------------------------------------------------------
    // Loading

    /**
     * The store step of loadMemory over lines already parsed from the file.
     * loaded is false where the source throws "no instruction loaded".
     */
    method LoadMemory(lines: seq<ImageLine>) returns (loaded: bool)
      requires Valid() && Storable(lines)
      modifies memoryData, memoryInstructions, this`lastInstruction
      ensures Valid() && Snapshot() == LoadLines(old(Snapshot()), lines)
      ensures loaded == (lastInstruction != 0)
    {
      for i := 0 to |lines|
        invariant Valid()
        invariant Snapshot() == LoadLines(old(Snapshot()), lines[..i])
      {
        var address, content := lines[i].address, lines[i].content;
        memoryData[address] := content % 0x100;
        memoryData[address + 1] := content / 0x100;
        memoryInstructions[address] := content % 0x100;
        memoryInstructions[address + 1] := content / 0x100;
        lastInstruction := Wrap(address as int + 2);
        assert lines[..i + 1][..i] == lines[..i];
      }
      assert lines[..|lines|] == lines;
      loaded := lastInstruction != 0;
    }
  }
}
