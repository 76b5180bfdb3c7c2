# CHIP-8 interpreter core in Dafny

This project models the core of a small CHIP-8 emulator written in C.

The machine state is the `Emulator` record:
- 4096 bytes of memory;
- sixteen 8-bit registers V0..VF;
- a stack of sixteen 16-bit return addresses, with its stack pointer;
- a 16-bit program counter;
- a 16-bit index register;
- a separate carry flag.

The engine has three layers:
- guarded accessors for registers, memory and the stack;
- `writeIns` and `fetch`, which store and read big-endian instruction words;
- `getNibble`, which decodes the opcode fields, and `execute`, which dispatches on the top field.

`start` repeats fetch and execute while the program counter is inside memory.

The project is split into six modules:

- `Machine` (`machine.dfy`) has the constants `MEM_SIZE`, `TOTAL_REGISTERS`, `ROM_START_ADDR` and `STACK_SIZE`. It also has:
  - `u8`/`u16` for `uint8_t`/`uint16_t`;
  - the fatal conditions as an `Error` datatype;
  - `Result` and `Outcome`;
  - the record as a `State` value, with its size invariant `WellFormed`;
  - the zero-filled `Fresh()` state of `createEmulator`.
- `Semantics` (`semantics.dfy`) holds every engine routine as a function on `State`. A `throwError` path becomes an `Err`. `execute` takes the random byte of `Cxkk` as a parameter. `start` becomes `Step` plus a fuel-bounded `Run`, whose loop body is `Advance`, and step t draws the random byte `rng(t)`. A faulted run records the error, the state in which it happened and the step number.
- `Properties` (`properties.dfy`) proves what the routines promise:
  - register and stack round trips;
  - the `writeIns`/`fetch` round trip;
  - field decoding in both directions;
  - the effect of every instruction family.
- `Runs` (`runs.dfy`) proves facts about whole runs:
  - a finished run does not depend on extra fuel;
  - the step a faulted run reports really fails with its error;
  - the self-jump halt;
  - call/return;
  - a fresh machine halts;
  - the `main.c` test program halts;
  - a reachable out-of-bounds fetch.
- `Interpreter` (`interpreter.dfy`) is the record as a class with `array` fields. Each routine is a method that updates those fields in place. On success every method is proved to leave the object in exactly the state its `Semantics` function computes. On failure most methods leave the object unchanged, with two exceptions, each stated in its own contract:
  - `WriteIns` may already have stored the high byte at pc when the low byte's address is out of range, just as the C code does;
  - `Step` and `Start` keep the fetch's advance of pc when `execute` fails. `Start`'s contract gives this state as `Semantics.AfterFault` of the state in which the run faulted.

  `Start` is the run loop, and `LoadRom` copies bytes in a loop.
- `Driver` (`driver.dfy`) runs `main.c`'s `testInstruction` program on the class.

The C code masks and shifts unsigned words. The model writes these as division and remainder by powers of two. Storing into a `uint8_t` or `uint16_t` becomes a remainder by 2^8 or 2^16. Bitwise OR, AND and XOR go through `bv8`.

The model follows the C code where it departs from the conventional CHIP-8 instruction set (Cowgod's Chip-8 Technical Reference, section 3.1):
- The flag of 8xy4/8xy5/8xy6/8xy7/8xyE goes to the separate `carry_flag` field, never to VF.
- A `1nnn` that jumps to its own address sets pc to 4096, which ends the run.
- `5xyN` and `9xyN` ignore N.
- These opcodes do nothing:
  - 0nnn other than 00E0/00EE, including the 0FFF register dump;
  - 8xyN with N outside 0..7 and E;
  - Exkk with kk other than 9E/A1.
- `Bnnn` can send pc past memory (up to 0x10FE), which ends the run.
- 00E0, Dxyn, Ex9E, ExA1 and every Fxxx are fatal.

## Model

| member | source | states |
|---|---|---|
| `Machine.Fresh` | src/emulator.c:8-13 | a new machine has all memory, registers and stack slots zero, and pc, index, flag and stack pointer 0 |
| `Semantics.ReadRegister` | src/emulator.c:19-22 | succeeds exactly for index < 16; otherwise fails with `RegisterOutOfRange(index)` |
| `Semantics.WriteRegister` | src/emulator.c:24-27 | succeeds exactly for index < 16 and keeps the record well formed; otherwise `RegisterOutOfRange(index)` and no new state |
| `Semantics.WriteMemory` | src/emulator.c:113-116 | succeeds exactly for address < 4096, and then cell `address` holds the byte, every other cell keeps its value and no other field changes; otherwise `MemoryOutOfRange(address)` |
| `Semantics.Push` | src/emulator.c:128-134 | succeeds exactly when sp < 16, and then sp grows by one; at sp = 16 it fails with `StackOverflow` |
| `Semantics.Pop` | src/emulator.c:136-139 | succeeds exactly when sp > 0, and then sp shrinks by one; at sp = 0 it fails with `StackUnderflow` |
| `Semantics.WriteIns` | src/emulator.c:118-126 | succeeds exactly when pc + 1 < 4096 and then advances pc by 2; otherwise reports the first address out of range |
| `Semantics.FetchAsWritten` | src/emulator.c:78-84 | the unchecked fetch: pc advances by 2, and the word's high byte is memory[pc] and its low byte memory[pc+1]; defined only while pc + 1 < 4096 |
| `Semantics.Fetch` | src/emulator.c:78-84 | a fetch succeeds exactly when pc + 1 < 4096, leaves memory unchanged, and otherwise fails with `FetchOutOfRange(pc)` |
| `Semantics.GetNibble` | src/emulator.c:86-111 | fields 1..5 succeed and any other field number fails with `NibbleOutOfRange`; fields 1..4 are below 16 and field 5 below 0x1000 |
| `Semantics.Alu` | src/emulator.c:208-276 | 8xyN changes only Vx and the carry flag, never any other register |
| `Semantics.Execute` | src/emulator.c:148-320 | memory never changes and the record stays well formed; the only fatal outcomes are `Unimplemented(opcode)`, `StackOverflow` and `StackUnderflow` |
| `Semantics.Step` | src/emulator.c:141-146 | one loop turn keeps the record well formed and never changes memory |
| `Semantics.Run` | src/emulator.c:141-146 | a halted run ends with pc >= 4096; a run out of fuel stops with pc < 4096; memory is unchanged throughout; a fault names the state inside memory where it happened and a step number within the budget |
| `Semantics.Advance` | src/emulator.c:143-144 | the loop body from inside memory with fuel left ends the same way `Run` does, and a fault it reports lies within the remaining budget |
| `Semantics.RunStops` | src/emulator.c:142 | the loop test: with pc >= 4096 the run has halted in that state, and with pc < 4096 and no fuel it is out of fuel in that state |
| `Semantics.AfterFault` | src/emulator.c:141-146 | the state a failing step leaves differs from the state before it only in pc |
| `Semantics.RunStep` | src/emulator.c:143-144 | a successful step continues the run from the new state with one step fewer; a failing one is the run's fault, at that state and step, and leaves the machine in the state the failed step left behind |
| `Semantics.LoadRom` | src/emulator.c:51-64 | an image is accepted exactly when it has at most 3584 bytes; cell a then holds rom[a - 0x200] inside the image's range and its old value elsewhere; pc becomes 0x200 and nothing else changes |
| `Properties.WriteThenRead` | src/emulator.c:19-27 | after writing v to register i, reading register j gives v when j == i and the old value otherwise; only the register file changes |
| `Properties.PushThenPop` | src/emulator.c:128-139 | a push at sp < 16 stores a at stack[sp] and changes no other slot; popping then returns a and restores sp |
| `Properties.LastInFirstOut` | src/emulator.c:128-139 | push a, push b, pop, pop returns b then a and restores sp |
| `Properties.StackBounds` | src/emulator.c:128-139 | a push at sp = 16 is `StackOverflow`; a pop at sp = 0 is `StackUnderflow` |
| `Properties.WriteInsThenFetch` | src/emulator.c:78-126 | writeIns stores op / 256 at pc and op % 256 at pc+1, touches no other cell and adds 2 to pc; fetch from the same pc returns op, adds 2 to pc and leaves memory unchanged |
| `Properties.DecodeEncode` | src/emulator.c:86-111 | an opcode built from fields a, x, y, n decodes back to a, x, y, n, and field 5 is its low 12 bits |
| `Properties.EncodeDecode` | src/emulator.c:86-111 | the four fields of any opcode recombine (n1·2^12 + n2·2^8 + n3·2^4 + n4) to the opcode |
| `Properties.DecodeExample` | src/emulator.c:86-111 | 0x8AB4 decodes to 8, A, B, 4 |
| `Properties.Return` | src/emulator.c:157-160 | 00EE pops the top return address into pc, or fails with `StackUnderflow` |
| `Properties.Jump` | src/emulator.c:165-170 | 1nnn sets pc to nnn, or to 4096 when nnn is the opcode's own address (pc - 2 after the fetch) |
| `Properties.Call` | src/emulator.c:172-176 | 2nnn pushes the already advanced pc and sets pc to nnn, or fails with `StackOverflow` at sp = 16 |
| `Properties.ConditionalSkips` | src/emulator.c:178-193 | 3xkk, 4xkk, 5xyN and 9xyN (lines 278-281) add exactly 2 to pc when their condition holds and otherwise change nothing; N is ignored |
| `Properties.LoadAndAddImmediate` | src/emulator.c:195-206 | 6xkk sets Vx := kk; 7xkk sets Vx := (Vx + kk) mod 256 and leaves the carry flag untouched |
| `Properties.RegisterOperations` | src/emulator.c:208-276 | for each of 8xy0..8xy7 and 8xyE: the new Vx (copy, OR, AND, XOR, sum mod 256, differences mod 256, halving, doubling mod 256) and the flag (sum > 255, strict Vx > Vy, old bit 0, strict Vy > Vx, old bit 7, or unchanged); every other register is unchanged, and any other N is a no-op |
| `Properties.ArithmeticExamples` | src/emulator.c:232-249 | FF + 01 gives 00 with flag 1; 05 - 03 gives 02 with flag 1; 03 - 05 gives FE with flag 0 |
| `Properties.IndexJumpRandom` | src/emulator.c:283-297 | Annn sets the index register to nnn; Bnnn sets pc to nnn + V0 (at most 0x10FE); Cxkk sets Vx to the random byte AND kk |
| `Properties.UnimplementedAreFatal` | src/emulator.c:299-317 | 00E0 (line 156), Dxyn, Ex9E, ExA1 and every Fxxx fail with `Unimplemented(opcode)` |
| `Properties.IgnoredOpcodes` | src/emulator.c:155-162 | every 0nnn other than 00E0/00EE, and every Exkk with kk other than 9E/A1 (lines 304-312), leaves the state as the fetch left it |
| `Properties.FlagIsNotVF` | src/emulator/include/emulator.h:16-21 | an instruction whose x field is not F leaves VF unchanged, whatever it does to the carry flag |
| `Runs.RunMoreFuel` | src/emulator.c:141-146 | a run that halted or faulted ends the same way with any larger step budget |
| `Runs.FaultIsAFailingStep` | src/emulator.c:141-146 | the step a faulted run reports, taken from the state it reports with that step's random byte, fails with exactly the reported error |
| `Runs.ZeroFilledMemoryHalts` | src/emulator.c:141-146 | from an even pc with zeros up to the end of memory, the run halts after (4096 - pc) / 2 ignored steps with only pc changed, to 4096 |
| `Runs.FreshMachineHalts` | src/emulator.c:8-13 | `start` on a freshly created machine halts after 2048 steps with pc = 4096 and nothing else changed |
| `Runs.SelfJumpHalts` | src/emulator.c:165-170 | a 1nnn whose target is its own address ends the run at once with pc = 4096 |
| `Runs.CallThenReturn` | src/emulator.c:157-176 | a 2nnn at pc followed by a 00EE at nnn resumes at pc + 2 with sp restored; the return address stays in the free slot |
| `Runs.TestInstruction` | src/main.c:6-17 | the test program written with writeIns into a fresh machine is a well-formed state |
| `Runs.TestInstructionImage` | src/main.c:6-17 | that program leaves 24 00 0F FF 12 04 at 0x200 and 0F FF 00 EE at 0x400, with pc = 0x200 and sp = 0 |
| `Runs.MainProgramHalts` | src/main.c:19-27 | running the test program halts after five steps with pc = 4096 and sp = 0 |
| `Runs.FetchOverrunReachable` | src/emulator.c:78-84 | after the image 1FFF is loaded and one step runs, pc = 4095: the loop test passes but the unchecked fetch's low byte lies past memory; the checked run faults with `FetchOutOfRange(4095)` |
| `Interpreter.Emulator.Snapshot` | src/emulator/include/emulator.h:14-24 | the object's arrays and counters form a well-formed record value |
| `Interpreter.Emulator.constructor` | src/emulator.c:8-13 | a new emulator has fresh arrays and equals `Fresh()` |
| `Interpreter.Emulator.ReadRegister` | src/emulator.c:19-22 | returns exactly what `Semantics.ReadRegister` gives for the current state |
| `Interpreter.Emulator.WriteRegister` | src/emulator.c:24-27 | updates the register array in place to `Semantics.WriteRegister`'s state, or reports its error and changes nothing |
| `Interpreter.Emulator.WriteMemory` | src/emulator.c:113-116 | updates the memory array in place to `Semantics.WriteMemory`'s state, or reports its error and changes nothing |
| `Interpreter.Emulator.WriteIns` | src/emulator.c:118-126 | on success it reaches `Semantics.WriteIns`'s state; on failure pc is unchanged and only the high byte at pc may have been stored |
| `Interpreter.Emulator.Fetch` | src/emulator.c:78-84 | advances pc in place and returns the opcode as `Semantics.Fetch` does, or returns its error with nothing changed |
| `Interpreter.Emulator.PushStack` | src/emulator.c:128-134 | writes the stack slot and pointer in place as `Semantics.Push` does, or reports overflow with nothing changed |
| `Interpreter.Emulator.PopStack` | src/emulator.c:136-139 | lowers the pointer in place and returns the slot as `Semantics.Pop` does, or reports underflow with nothing changed |
| `Interpreter.Emulator.ExecuteAlu` | src/emulator.c:208-276 | the in-place register operations reach the state `Semantics.Alu` gives |
| `Interpreter.Emulator.Execute` | src/emulator.c:148-320 | the in-place dispatch reaches `Semantics.Execute`'s state, or reports its error with nothing changed |
| `Interpreter.Emulator.Step` | src/emulator.c:143-144 | fetch then execute as `Semantics.Step` does; if execute fails, only the fetch's advance of pc has happened |
| `Interpreter.Emulator.Turn` | src/emulator.c:143-144 | one turn of the loop on the object continues the predicted run from the new state, or is where that run faults, leaving `AfterFault` of the state before the turn |
| `Interpreter.Emulator.Start` | src/emulator.c:141-146 | the while loop returns exactly `Semantics.Run` of the initial state; the object then holds the halted or current state, or, after a fault, `Semantics.AfterFault` of the state in which the run faulted |
| `Interpreter.Emulator.LoadRom` | src/emulator.c:51-64 | the byte-copy loop reaches `Semantics.LoadRom`'s state, or refuses an oversized image and changes nothing |
| `Driver.TestInstruction` | src/main.c:6-17 | the five writeIns calls on a fresh emulator build exactly `Runs.TestInstruction()` |
| `Driver.RunTestProgram` | src/main.c:19-27 | a fresh emulator running the test program halts with pc = 4096 and sp = 0 |

## Left out

- `dumpRegister`, `dumpMemory` and the register dump of opcode 0FFF only print. 0FFF is modelled as an instruction with no effect on the state.
- `throwError` prints a message, frees the record and exits the process. An error is modelled as an `Err`/`Fail` value. The object keeps the state it had when the error was raised. That state is specified for every method, including the two exceptions described above, where it is not the state before the call: `Interpreter.Emulator.WriteIns` after a low-byte failure, and `Interpreter.Emulator.Step`/`Interpreter.Emulator.Start` after a failed `execute`.
- The file I/O of `loadRom` (`fopen`, `fseek`/`ftell`, `fread`, `fclose`) and its failures are left out. `LoadRom` starts from the image's bytes.
- `rand()` and `srand(time(NULL))` are not modelled. The random byte of Cxkk is a parameter, and a run draws byte `rng(t)` at step t.
- The memory lifecycle of `createEmulator`/`freeEmulator` (`calloc`, `free`) is left out. A constructor zero-fills the arrays.
- The assembler is an empty stub with a file open and has no behaviour to model.
- `INSTRUCTION_PER_SEC` is an unused float.
- The display, keyboard, timers and sound are not implemented in the C code. Their opcodes are fatal there and fatal in the model.
- Semantics.Run: `start` itself has no bound and can loop forever, for example on a two-instruction jump cycle. `Run` and `Interpreter.Emulator.Start` take a fuel bound and report `OutOfFuel` when it runs out.
- Interpreter.Emulator.Execute reads and writes the register array directly instead of calling `readRegister`/`writeRegister`. Its register indices are nibbles, below 16 by `GetNibble`'s contract, so that guard can never fire.
- The `default` branch of `execute` (unknown instruction) cannot be reached, because the top nibble is always below 16. It has no counterpart in the model.
- `stack_pointer` is a `uint8_t` in C but a `nat` here. It never exceeds 16, so its width never matters.

## Findings

| source | as written | input that shows it | evidently intended | confidence | as-written member | corrected member |
|---|---|---|---|---|---|---|
| src/emulator.c:78-84 | `fetch` reads `memory[pc]` and `memory[pc + 1]` with no bounds check. The run loop at lines 141-146 only checks pc < 4096, so at pc = 4095 the low byte is read from `memory[4096]`, past the array (undefined behaviour in C) | the image 1FFF loaded at 0x200: its jump sets pc = 4095, the loop continues, and the next fetch reads address 4096 | a fetch whose bytes are not both inside memory is a fatal out-of-range error, like every other memory access | high; not executed | `Semantics.FetchAsWritten`, shown by `Runs.FetchOverrunReachable` | `Semantics.Fetch` |
