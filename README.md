# CPUSimulator in Dafny

A model of the instruction-set simulator in `Simulador/Assembly.h`, with proofs about it. The simulator runs a small 16-bit machine. It has:

- eight 16-bit registers, `pc`, `sp` and four flags: C (carry), Ov (overflow), Z (zero) and S (sign);
- a 64 KiB data memory and a separate 64 KiB instruction memory;
- `last_instruction`, which marks where the loaded image ends.

`decodeAndExecute` repeatedly fetches a little-endian word from instruction memory, adds 2 to `pc` and dispatches on bits 15:12. The fifteen handlers are:

- the zero group: NOP, JMP/JEQ/JLT/JGT, PSH, POP and CMP;
- MOV, STR, LDR, ADD, SUB, MUL, AND, ORR, NOT, XOR, SHR, SHL, ROR and ROL.

`run()` resets the registers, flags, `pc` and `sp`, then executes. `loadMemory` stores each parsed `address: 0xword` line into both memories.

The model also covers the prototype register file `Assembly` in `Simulador/Assembly.cpp`. That class has string `pc`/`sp`, eight `int` registers, `binToDecimal` on bitsets and two `mov` overloads.

The project has five files:

- `arithmetic.dfy` (module `Arithmetic`): powers of two, and how quotients and remainders by products decompose.
- `isa.dfy` (module `Isa`): the machine state as a value (`Machine`) and one function per handler (`ExecJump`, `ExecStackAndCompare`, `ExecMov` … `ExecRol`).
  - `Execute` is the opcode switch and `Fetch` is the fetch.
  - `Step` is one loop iteration; `Run` is the loop, bounded by fuel.
  - `Reset` is what `run()` clears; `StoreLine`/`LoadLines` are the store step of `loadMemory`.
- `simulator.dfy` (module `Simulator`): class `CPUSimulator`, with the source's fields as Dafny fields and arrays and one method per handler.
  - Every handler is proved to leave the object in exactly the state that the matching `Isa` function gives: `Snapshot() == ExecX(old(Snapshot()))`.
  - Each handler may modify only the fields the source handler writes.
  - `DecodeAndExecute`, `Run` and `LoadMemory` are the loops of the source, proved against `Isa.Run`, `Isa.Reset` and `Isa.LoadLines`.
- `properties.dfy` (module `IsaProperties`): what the semantics promise:
  - instruction layout and the frame of every opcode;
  - flag meanings for ADD, SUB, MUL, the logic operators and the shifts;
  - instruction pairs that undo or complete each other;
  - halting and divergence;
  - loading.
- `prototype.dfy` (module `Prototype`): class `Assembly` and `binToDecimal`.

Words and bytes are integers in 0..0xFFFF and 0..0xFF.
- Every store into a `uint16_t` is truncated with `Wrap` (`x % 0x1_0000`).
- Shifts are division and multiplication by powers of two.
- `&`, `|` and `^` are defined bit by bit (`Bitwise`). `~` is `-a - 1` truncated to 16 bits.

The class invariant `StackInWindow` says `sp` stays even, in `0x81F0..0x8200`. `Execute` is proved to preserve it. Under this invariant PSH and POP always stay inside data memory.

## Model

| member | source | states |
|---|---|---|
| Isa.ReadWord | Simulador/Assembly.h:56 | the word built from `mem[addr]` and `mem[addr+1]` has `mem[addr+1]` as its high byte and `mem[addr]` as its low byte |
| Isa.WriteWord | Simulador/Assembly.h:216-223 | after the little-endian store, the same address reads back the stored word, and every other byte is unchanged |
| Isa.Execute | Simulador/Assembly.h:59-111 | the opcode switch keeps `sp` in the stack window, and no opcode changes instruction memory or `last_instruction` |
| Isa.Step | Simulador/Assembly.h:51-111 | one loop iteration keeps `sp` in the stack window, and it never writes instruction memory or `last_instruction` |
| Simulator.CPUSimulator.constructor | Simulador/Assembly.h:381-387 | both memories zero-filled, registers 0, `pc` 0, `sp` 0x8200, flags clear, fresh arrays |
| Simulator.CPUSimulator.HandleZeroGroup | Simulador/Assembly.h:115-134 | `ir == 0` (NOP) changes nothing; bit 11 selects the jumps, otherwise PSH/POP/CMP; new state is `ExecZeroGroup` of the old one |
| Simulator.CPUSimulator.HandleJumpInstructions | Simulador/Assembly.h:136-157 | only `pc` may change, by `ExecJump`: offset bits 10:2 added modulo 2^16 under the JMP/JEQ/JLT/JGT condition |
| Simulator.CPUSimulator.HandleStackAndCompareInstructions | Simulador/Assembly.h:159-192 | PSH stores rn at sp then lowers sp only above the floor; POP raises sp then loads rd (3-bit field) only inside the window; CMP sets Z and S only |
| Simulator.CPUSimulator.HandleMov | Simulador/Assembly.h:194-207 | only rd changes: the zero-extended byte 7:0 with bit 11 set, else the value of rm |
| Simulator.CPUSimulator.HandleStr | Simulador/Assembly.h:209-225 | only data memory changes: the immediate or rn, stored little-endian at the address in rm |
| Simulator.CPUSimulator.HandleLdr | Simulador/Assembly.h:227-233 | only rd changes, to the little-endian word in data memory at the address in rm |
| Simulator.CPUSimulator.HandleAdd | Simulador/Assembly.h:235-248 | rd is the sum modulo 2^16, and the flags are computed after rd is written, exactly as `ExecAdd` says |
| Simulator.CPUSimulator.HandleSub | Simulador/Assembly.h:250-263 | rd is the difference modulo 2^16, and the flags are computed after the write, as `ExecSub` says |
| Simulator.CPUSimulator.HandleMul | Simulador/Assembly.h:265-280 | rd is the product modulo 2^16 when the int product cannot overflow; the flags are computed after the write, as `ExecMul` says |
| Simulator.CPUSimulator.HandleAnd | Simulador/Assembly.h:282-292 | rd is `rm & rn`; only Z and S change among the flags |
| Simulator.CPUSimulator.HandleOrr | Simulador/Assembly.h:294-304 | rd is the bitwise or of rm and rn; only Z and S change among the flags |
| Simulator.CPUSimulator.HandleNot | Simulador/Assembly.h:306-315 | rd is `~rm` truncated to 16 bits; only Z and S change among the flags |
| Simulator.CPUSimulator.HandleXor | Simulador/Assembly.h:317-327 | rd is `rm ^ rn`; only Z and S change among the flags |
| Simulator.CPUSimulator.HandleShr | Simulador/Assembly.h:329-340 | for a shift amount of at least 1, rd is rm shifted right and C is bit imm-1 of the updated rm; Ov is kept |
| Simulator.CPUSimulator.HandleShl | Simulador/Assembly.h:342-354 | for a shift amount of at most 16, rd is `rm << imm` truncated; C and Ov are bit 16-imm of the updated rm |
| Simulator.CPUSimulator.HandleRor | Simulador/Assembly.h:356-366 | C is bit 0 of rm, taken before the write; rd is rm rotated right by one; Ov is kept |
| Simulator.CPUSimulator.HandleRol | Simulador/Assembly.h:368-378 | C is bit 15 of rm, taken before the write; rd is rm rotated left by one; Ov is kept |
| Simulator.CPUSimulator.Dispatch | Simulador/Assembly.h:59-111 | status and new state are `Execute` of the old state: Halted for opcode 0b1111, Undefined where the handler's behaviour is undefined |
| Simulator.CPUSimulator.DecodeAndExecute | Simulador/Assembly.h:49-113 | the fetch loop (stop at `last_instruction`, fetch the little-endian word, pc += 2, dispatch) ends in the state and status of `Isa.Run` for the same fuel |
| Simulator.CPUSimulator.Run | Simulador/Assembly.h:417-426 | clears pc, sp (to 0x8200), all registers and the flags, keeping both memories, ir and `last_instruction`, then behaves as `DecodeAndExecute` |
| Simulator.CPUSimulator.LoadMemory | Simulador/Assembly.h:398-414 | stores every line, in order, into both memories; `last_instruction` is the last line's address + 2 modulo 2^16, and `loaded` is false when that is 0 |
| IsaProperties.FieldsTileTheWord | Simulador/Assembly.h:59-346 | opcode, bit 11, rd, rm, rn and the low bits tile the word; MOV's byte, the shift amount and the jump offset are those fields joined; STR's immediate is below 0x100 |
| IsaProperties.HandlerFrames | Simulador/Assembly.h:115-378 | what each opcode leaves alone:<br>• MOV/STR/LDR and all zero-group words but CMP keep the flags<br>• CMP keeps C and Ov; the logic ops keep C and Ov; SHR/ROR/ROL keep Ov<br>• only the zero group moves pc or sp; only STR and PSH write data memory<br>• no register but rd is written, by any opcode<br>• in the zero group NOP, the jumps, POP and CMP keep data memory, and only POP writes a register<br>• STR writes no register |
| IsaProperties.AddSemantics | Simulador/Assembly.h:235-248 | unaliased ADD:<br>• rd is the sum modulo 2^16<br>• C holds iff the unsigned sum reaches 2^16<br>• Ov holds iff the signed sum leaves 16 bits, and without overflow rd is the signed sum<br>• Z and S describe rd |
| IsaProperties.SubSemantics | Simulador/Assembly.h:250-263 | unaliased SUB:<br>• rd is the difference modulo 2^16<br>• C holds iff rm < rn (borrow)<br>• Ov holds iff the signed difference leaves 16 bits, and without overflow rd is the signed difference<br>• Z holds iff rm == rn |
| IsaProperties.MulSemantics | Simulador/Assembly.h:265-280 | unaliased MUL:<br>• rd is the product modulo 2^16<br>• C is the ADD carry test `rm + rn > 0xFFFF`<br>• Ov holds iff rm and rn have the same sign and rd's sign differs from rn's<br>• Z and S describe rd |
| IsaProperties.AliasedAddDropsCarry | Simulador/Assembly.h:241-243 | `ADD R0, R0, R1` with R0 = 0xFFFF and R1 = 1 wraps R0 to 0 but leaves C clear, because C reads R0 after the write |
| IsaProperties.AddThenSub | Simulador/Assembly.h:235-263 | ADD rd, rm, rn followed by SUB rx, rd, rn puts the old rm in rx (rd distinct from rn) |
| IsaProperties.LogicBits | Simulador/Assembly.h:282-327 | bit k of the bitwise and, or and exclusive or of a and b is the and, or and exclusive or of bit k of a and b, and `~a` is `0xFFFF - a` |
| IsaProperties.XorSignBit | Simulador/Assembly.h:277-278 | the sign bit of `a ^ b` is set iff a and b differ in sign |
| IsaProperties.LogicSemantics | Simulador/Assembly.h:282-327 | AND, ORR, NOT and XOR:<br>• rd gets the operator's result<br>• Z and S are set from it<br>• C, Ov and every other part of the state stay as they were |
| IsaProperties.JumpSemantics | Simulador/Assembly.h:136-157 | a jump word changes only pc:<br>• the 9-bit offset (below 0x200) is added modulo 2^16<br>• JMP always jumps; JEQ when Z and not S; JLT when S and not Z; JGT when neither |
| IsaProperties.CompareThenBranch | Simulador/Assembly.h:136-190 | CMP rm, rn followed by a jump:<br>• the jump is taken iff JMP, or JEQ and rm == rn, or JLT and rm < rn, or JGT and rm > rn (unsigned)<br>• nothing but Z, S, pc and ir changes |
| IsaProperties.PushThenPop | Simulador/Assembly.h:163-180 | PSH rn then POP rd with room on the stack gives rd the old rn and restores sp; the word stays in data memory at the old sp |
| IsaProperties.PushPopRestores | Simulador/Assembly.h:163-180 | PSH r then POP r leaves all registers, sp, pc and the flags as they were |
| IsaProperties.StackLimitsAreSilent | Simulador/Assembly.h:164-174 | PSH with a full stack and POP with an empty one change nothing but ir |
| IsaProperties.MovSemantics | Simulador/Assembly.h:194-207 | MOV writes rd only: the low byte of the word zero-extended when bit 11 is set, else the value of rm |
| IsaProperties.StoreThenLoad | Simulador/Assembly.h:209-233 | STR then LDR with the same base register loads the stored word (the immediate or rn); flags, pc, sp and instruction memory are unchanged |
| IsaProperties.ShiftRightSemantics | Simulador/Assembly.h:329-340 | unaliased SHR:<br>• rd is rm divided by 2^imm<br>• C holds iff the discarded low imm bits reach 2^(imm-1), so C is the last bit shifted out<br>• Ov is kept |
| IsaProperties.LastBitShiftedOut | Simulador/Assembly.h:337 | bit k-1 of a word is set iff its low k bits reach 2^(k-1) |
| IsaProperties.ShiftLeftCarryIsOverflow | Simulador/Assembly.h:350-353 | SHL sets C and Ov to the same value for every defined shift amount, and both are clear for a shift by 0 |
| IsaProperties.RotateLeftUndoesRotateRight | Simulador/Assembly.h:356-378 | ROR rd, rm then ROL rx, rd puts the old rm in rx; ROL's carry equals the bit ROR rotated out; Ov is unchanged |
| IsaProperties.StepHalts | Simulador/Assembly.h:51-111 | a step halts iff pc has reached `last_instruction` (no change at all) or the fetched word's opcode is 0b1111 (only the fetch happened) |
| IsaProperties.RunKeepsImage | Simulador/Assembly.h:49-113 | any number of steps leaves instruction memory and `last_instruction` unchanged and sp in its window |
| IsaProperties.RunStopsForGood | Simulador/Assembly.h:49-113 | once execution has halted or stopped, more fuel changes neither the status nor the state |
| IsaProperties.JumpChainNeverHalts | Simulador/Assembly.h:49-157 | an image with JMP +510 at every 512-byte boundary and extent 0xFFFF wraps pc around forever: no fuel is enough to halt |
| IsaProperties.RerunStartsFromSameImage | Simulador/Assembly.h:417-426 | a second `run()` starts from the same state as the first, except for data memory (and ir) written by the first |
| IsaProperties.LoadSetsExtent | Simulador/Assembly.h:398-409 | after loading, `last_instruction` is the last line's address + 2 modulo 2^16, not the largest one, and only the two memories and the extent change |
| IsaProperties.LoadedWordReadsBack | Simulador/Assembly.h:403-406 | a line that no later line overlaps reads back from both data and instruction memory |
| IsaProperties.StoreLineKeepsOtherWords | Simulador/Assembly.h:403-406 | storing one line leaves every non-overlapping word of both memories unchanged |
| IsaProperties.LoadKeepsMemoriesEqual | Simulador/Assembly.h:403-406 | loading into two equal memories leaves them equal |
| IsaProperties.LastLineAtTopOfMemoryFailsToLoad | Simulador/Assembly.h:407-414 | a fresh load whose last line is at 0xFFFE ends with `last_instruction` 0, which `loadMemory` reports as "no instruction loaded" |
| IsaProperties.OneLineImages | Simulador/Assembly.h:194-207 | run from reset, `0000: 0x1007` halts with R0 still 0 and the flags clear, since bit 11 is clear (MOV R0, R0); `0000: 0x1807` leaves R0 = 7 |
| Prototype.Value | Simulador/Assembly.cpp:36-44 | the unsigned value of a bitset is below 2^width |
| Prototype.ToString | Simulador/Assembly.cpp:38 | `to_string` has one character per bit, with bit width-1-i at position i |
| Prototype.ToStringParses | Simulador/Assembly.cpp:38 | `to_string` produces only binary digits, and base-2 `stoi` of it is the bitset's value |
| Prototype.BinToDecimal | Simulador/Assembly.cpp:36-44 | both overloads return the bitset's unsigned value, below 2^width (16 for bitset<4>, 256 for bitset<8>) |
| Prototype.FromValue | Simulador/Assembly.cpp:64-65 | `std::bitset<N>(n)`, the way the demo builds the operands of `mov`, has N bits |
| Prototype.FromValueRoundTrip | Simulador/Assembly.cpp:64-65 | constructing a bitset from n, as the demo does for `mov`'s operands, and taking its value gives n modulo 2^N |
| Prototype.Assembly.constructor | Simulador/Assembly.cpp:14-19 | pc "0000", sp "8200", c = s = ov = 0, and a fresh array of 8 registers whose contents are unspecified |
| Prototype.Assembly.SetPC | Simulador/Assembly.cpp:21-24 | pc becomes the given string and nothing else changes |
| Prototype.Assembly.GetRegister | Simulador/Assembly.cpp:26-29 | returns register index |
| Prototype.Assembly.SetRegister | Simulador/Assembly.cpp:31-34 | register index becomes valor and every other register is unchanged |
| Prototype.Assembly.MovRegister | Simulador/Assembly.cpp:46-50 | register rD takes the old value of register rM and no other register changes |
| Prototype.Assembly.MovImmediate | Simulador/Assembly.cpp:52-56 | register rD takes the immediate's unsigned value, in 0..255, and no other register changes |

## Left out

- `displayContent` (Simulador/Assembly.h:428-477) prints the state, so the model leaves it out. The NOP it is called from is a step that changes nothing.
- The file handling and text parsing of `loadMemory` (Simulador/Assembly.h:391-401) are I/O. `LoadMemory` takes the lines already parsed into (address, word) pairs.
- The `stack` vector of word pointers and `initializeStack` (Simulador/Assembly.h:30, 40-47) are not modelled. No handler reads them.
- The two `main` functions, in `Simulador/main.cpp` and Simulador/Assembly.cpp:60-68, are console drivers. `Simulador/main.cpp` is not part of this model. Of the demo at Assembly.cpp:60-68 only the bitset constructions it passes to `mov` are modelled (`FromValue`, `FromValueRoundTrip`); its console output is not.
- Simulator.CPUSimulator.DecodeAndExecute runs at most `fuel` iterations and reports `Running` when the fuel runs out. The source loops without bound, and `JumpChainNeverHalts` shows a program that never halts.
- Simulator.CPUSimulator.Dispatch does not model what the source does after undefined behaviour. It stops with status `Undefined`, in the state after the fetch, before each of these:
  - a MUL whose int product exceeds `INT_MAX`;
  - an SHR by 0, a shift by -1;
  - an SHL by more than 16, a negative shift;
  - an STR or LDR whose base register is 0xFFFF, which touches index 65536.
- Simulator.CPUSimulator.HandleMul, HandleShr, HandleShl, HandleStr and HandleLdr require the same conditions. `Dispatch` checks them.
- Simulator.CPUSimulator.LoadMemory requires every address to be below 0xFFFF. A line at 0xFFFF would write index 65536 of both memories, which is undefined behaviour.
- Prototype.Assembly.GetRegister, SetRegister, MovRegister and MovImmediate require indices that name one of the 8 registers. Other indices are out of bounds in the source, and a bitset<4> can name 8..15.
- Prototype.Assembly.constructor promises nothing about the register contents. `new int[8]` leaves them indeterminate.
- Simulator.CPUSimulator.HandleShl uses one bit position for both C and Ov. The source writes Ov as a mask test, `rm & (1 << (16 - imm))`, and C as a shift, but both test bit 16 - imm for every defined amount.
- The undefined cases follow the C++14 (and later) shift rules: shifting an int by a negative amount, or by 32 or more, is undefined. Under those rules every other shift here, on a uint16_t promoted to int, is defined. Under C++11 one more is undefined: SHL of a register at or above 0x8000 by 16 (Simulador/Assembly.h:348) goes past INT_MAX, and the model gives it the C++14 result instead.

Where the code and its documentation disagree, the model follows the code:
- The documented image `0000: 0x1007` is said to set R0 to 7. Bit 11 of 0x1007 is clear, so the word is MOV R0, R0 and R0 stays 0 (`OneLineImages`). The immediate form is 0x1807.
- Data and instruction memory are two separate arrays. STR writes only data memory and fetch reads only instruction memory, so stores never modify the program. A rerun therefore executes the same instructions (`RerunStartsFromSameImage`).
- POP's destination is the 3-bit field 10:8, not bits 9:8.
- STR's immediate joins bits 10:8 and 4:0, and is below 0x100 (`FieldsTileTheWord`). The high byte it stores is always 0.
- ADD, SUB, MUL, SHR and SHL compute their flags from the registers after rd is written. When rd is also a source, the flags describe the new value (`AliasedAddDropsCarry`).
- The load error tests only `last_instruction == 0`. That value is not reset between loads, it comes from the last line rather than the highest address, and a final line at 0xFFFE also yields 0 (`LastLineAtTopOfMemoryFailsToLoad`).
