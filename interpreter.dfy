/** The `Emulator` record as a heap object whose arrays and counters the
    engine's routines update in place. Every method is proved to leave the
    object in exactly the state its `Semantics` counterpart computes. */
module Interpreter {
  import opened Machine
  import Semantics

  class Emulator {
    var memory: array<u8>
    var registers: array<u8>
    var stack: array<u16>
    var indexRegister: u16
    var programCounter: u16
    var carryFlag: u8
    var stackPointer: nat

    /** The array sizes of the record, and a stack pointer within the stack. */
    ghost predicate Valid()
      reads this
    {
      memory.Length == MEM_SIZE &&
      registers.Length == TOTAL_REGISTERS &&
      stack.Length == STACK_SIZE &&
      memory != registers &&
      stackPointer <= STACK_SIZE
    }

    /** The object's current contents as a `Machine.State` value. */
    function Snapshot(): (s: State)
      requires Valid()
      reads this, memory, registers, stack
      ensures WellFormed(s)
    {
      State(memory[..], registers[..], stack[..], indexRegister, programCounter, carryFlag, stackPointer)
    }

    /** `createEmulator`: everything zero, the stack empty. */
    constructor ()
      ensures Valid() && fresh(memory) && fresh(registers) && fresh(stack)
      ensures Snapshot() == Fresh()
    {
      memory := new u8[MEM_SIZE](_ => 0);
      registers := new u8[TOTAL_REGISTERS](_ => 0);
      stack := new u16[STACK_SIZE](_ => 0);
      indexRegister, programCounter, carryFlag, stackPointer := 0, 0, 0, 0;
    }

    /** `readRegister` */
    method ReadRegister(index: nat) returns (r: Result<u8>)
      requires Valid()
      ensures r == Semantics.ReadRegister(Snapshot(), index)
    {
      if index >= TOTAL_REGISTERS {
        return Err(RegisterOutOfRange(index));
      }
      return Ok(registers[index]);
    }

    /** `writeRegister` */
    method WriteRegister(index: nat, value: u8) returns (o: Outcome)
      requires Valid()
      modifies registers
      ensures Valid()
      ensures Applied(o, old(Snapshot()), Semantics.WriteRegister(old(Snapshot()), index, value), Snapshot())
    {
      if index >= TOTAL_REGISTERS {
        return Fail(RegisterOutOfRange(index));
      }
      registers[index] := value;
      return Pass;
    }

    /** `writeMemory` */
    method WriteMemory(address: u16, byte: u8) returns (o: Outcome)
      requires Valid()
      modifies memory
      ensures Valid()
      ensures Applied(o, old(Snapshot()), Semantics.WriteMemory(old(Snapshot()), address, byte), Snapshot())
    {
      if address >= MEM_SIZE {
        return Fail(MemoryOutOfRange(address));
      }
      memory[address] := byte;
      return Pass;
    }

    /** `writeIns`. When only the low byte's address is out of range, the high
        byte has already been stored when the error is raised. */
    method WriteIns(opcode: u16) returns (o: Outcome)
      requires Valid()
      modifies this`programCounter, memory
      ensures Valid()
      ensures var r := Semantics.WriteIns(old(Snapshot()), opcode);
        r.Ok? ==> o == Pass && Snapshot() == r.value
      ensures var r := Semantics.WriteIns(old(Snapshot()), opcode);
        r.Err? ==> (o == Fail(r.error) && programCounter == old(programCounter) &&
                    memory[..] == if old(programCounter) < MEM_SIZE
                                   then old(memory[..])[old(programCounter) := (opcode / 0x100) % 0x100]
                                   else old(memory[..]))
    {
      var high := (opcode / 0x100) % 0x100;
      var low := opcode % 0x100;
      o := WriteMemory(programCounter, high);
      if o.Fail? {
        return;
      }
      o := WriteMemory((programCounter + 1) % 0x1_0000, low);
      if o.Fail? {
        return;
      }
      programCounter := (programCounter + 2) % 0x1_0000;
    }

    /** `fetch`, with the bounds check the C code lacks. */
    method Fetch() returns (r: Result<u16>)
      requires Valid()
      modifies this`programCounter
      ensures Valid()
      ensures Returned(r, old(Snapshot()), Semantics.Fetch(old(Snapshot())), Snapshot())
    {
      if programCounter + 1 >= MEM_SIZE {
        return Err(FetchOutOfRange(programCounter));
      }
      var high := memory[programCounter];
      var low := memory[programCounter + 1];
      programCounter := programCounter + 2;
      return Ok(high as int * 0x100 + low);
    }

    /** `pushStack` */
    method PushStack(value: u16) returns (o: Outcome)
      requires Valid()
      modifies this`stackPointer, stack
      ensures Valid()
      ensures Applied(o, old(Snapshot()), Semantics.Push(old(Snapshot()), value), Snapshot())
    {
      if stackPointer >= STACK_SIZE {
        return Fail(StackOverflow);
      }
      stack[stackPointer] := value;
      stackPointer := stackPointer + 1;
      return Pass;
    }

    /** `popStack` */
    method PopStack() returns (r: Result<u16>)
      requires Valid()
      modifies this`stackPointer
      ensures Valid()
      ensures Returned(r, old(Snapshot()), Semantics.Pop(old(Snapshot())), Snapshot())
    {
      if stackPointer == 0 {
        return Err(StackUnderflow);
      }
      stackPointer := stackPointer - 1;
      return Ok(stack[stackPointer]);
    }

    /** The 8xyN arm of `execute`. */
    method ExecuteAlu(x: nat, y: nat, n: u16)
      requires Valid() && x < TOTAL_REGISTERS && y < TOTAL_REGISTERS
      modifies this`carryFlag, registers
      ensures Valid()
      ensures Snapshot() == Semantics.Alu(old(Snapshot()), x, y, n)
    {
      var vx, vy := registers[x], registers[y];
      if n == 0x0 {
        registers[x] := vy;
      } else if n == 0x1 {
        registers[x] := Semantics.Or8(vx, vy);
      } else if n == 0x2 {
        registers[x] := Semantics.And8(vx, vy);
      } else if n == 0x3 {
        registers[x] := Semantics.Xor8(vx, vy);
      } else if n == 0x4 {
        var sum := vx as int + vy;
        registers[x] := sum % 0x100;
        carryFlag := if sum > 255 then 1 else 0;
      } else if n == 0x5 {
        registers[x] := (vx as int - vy) % 0x100;
        carryFlag := if vx > vy then 1 else 0;
      } else if n == 0x6 {
        registers[x] := vx / 2;
        carryFlag := if vx % 2 == 1 then 1 else 0;
      } else if n == 0x7 {
        registers[x] := (vy as int - vx) % 0x100;
        carryFlag := if vy > vx then 1 else 0;
      } else if n == 0xE {
        registers[x] := (vx as int * 2) % 0x100;
        carryFlag := if vx >= 0x80 then 1 else 0;
      }
    }

    /** `execute`: dispatch on the top nibble. A register index is a nibble, so
        it is always below TOTAL_REGISTERS and `readRegister`'s guard never fires. */
    method Execute(opcode: u16, rnd: u8) returns (o: Outcome)
      requires Valid()
      modifies this`programCounter, this`indexRegister, this`carryFlag, this`stackPointer, registers, stack
      ensures Valid()
      ensures Applied(o, old(Snapshot()), Semantics.Execute(old(Snapshot()), opcode, rnd), Snapshot())
    {
      var nibble1 := Semantics.GetNibble(opcode, 1).value;
      var x := Semantics.GetNibble(opcode, 2).value;
      var y := Semantics.GetNibble(opcode, 3).value;
      var nibble4 := Semantics.GetNibble(opcode, 4).value;
      var byte := opcode % 0x100;
      var address := opcode % 0x1000;
      o := Pass;
      if nibble1 == 0x0 {
        if opcode == 0x00E0 {
          o := Fail(Unimplemented(opcode));
        } else if opcode == 0x00EE {
          var popped := PopStack();
          if popped.Err? {
            return Fail(popped.error);
          }
          programCounter := popped.value;
        }
        // 0x0FFF prints the registers; every other 0nnn is ignored
      } else if nibble1 == 0x1 {
        programCounter := if address == programCounter - 2 then MEM_SIZE else address;
      } else if nibble1 == 0x2 {
        o := PushStack(programCounter);
        if o.Fail? {
          return;
        }
        programCounter := address;
      } else if nibble1 == 0x3 {
        if registers[x] == byte {
          programCounter := (programCounter + 2) % 0x1_0000;
        }
      } else if nibble1 == 0x4 {
        if registers[x] != byte {
          programCounter := (programCounter + 2) % 0x1_0000;
        }
      } else if nibble1 == 0x5 {
        if registers[x] == registers[y] {
          programCounter := (programCounter + 2) % 0x1_0000;
        }
      } else if nibble1 == 0x6 {
        registers[x] := byte;
      } else if nibble1 == 0x7 {
        registers[x] := (registers[x] + byte) % 0x100;
      } else if nibble1 == 0x8 {
        ExecuteAlu(x, y, nibble4);
      } else if nibble1 == 0x9 {
        if registers[x] != registers[y] {
          programCounter := (programCounter + 2) % 0x1_0000;
        }
      } else if nibble1 == 0xA {
        indexRegister := address;
      } else if nibble1 == 0xB {
        programCounter := address + registers[0];
      } else if nibble1 == 0xC {
        registers[x] := Semantics.And8(rnd, byte);
      } else if nibble1 == 0xD {
        o := Fail(Unimplemented(opcode));
      } else if nibble1 == 0xE {
        if byte == 0x9E || byte == 0xA1 {
          o := Fail(Unimplemented(opcode));
        }
      } else {
        o := Fail(Unimplemented(opcode));
      }
    }

    /** One turn of the `start` loop. If `execute` fails, the program counter
        has already been advanced by the fetch. */
    method Step(rnd: u8) returns (o: Outcome)
      requires Valid()
      modifies this`programCounter, this`indexRegister, this`carryFlag, this`stackPointer, registers, stack
      ensures Valid()
      ensures var f := Semantics.Fetch(old(Snapshot()));
        Applied(o, if f.Ok? then f.value.0 else old(Snapshot()), Semantics.Step(old(Snapshot()), rnd), Snapshot())
    {
      var opcode := Fetch();
      if opcode.Err? {
        return Fail(opcode.error);
      }
      o := Execute(opcode.value, rnd);
    }

    /** One turn of the `start` loop, stated as progress of the run `whole`
        that `Semantics.Run` predicts from here: a successful step leaves
        `remaining - 1` steps of it from the new state, a failing one is where
        it faults. */
    method Turn(ghost whole: Semantics.RunResult, now: State, remaining: nat, rng: nat -> u8, t: nat)
      returns (o: Outcome, next: State)
      requires Valid() && now == Snapshot() && now.programCounter < MEM_SIZE && remaining > 0
      requires whole == Semantics.Run(now, remaining, rng, t)
      modifies this`programCounter, this`indexRegister, this`carryFlag, this`stackPointer, registers, stack
      ensures Valid() && next == Snapshot()
      ensures o.Pass? ==> whole == Semantics.Run(next, remaining - 1, rng, t + 1)
      ensures o.Fail? ==> whole == Semantics.Faulted(o.error, now, t) && next == Semantics.AfterFault(now)
    {
      o := Step(rng(t));
      next := Snapshot();
      Semantics.RunStep(now, Semantics.AfterFault(now), o, next, remaining, rng, t);
    }

    /** `start`: run while the program counter is inside memory, for at most
        `fuel` steps, step number t drawing the random byte rng(t). */
    method Start(fuel: nat, rng: nat -> u8) returns (result: Semantics.RunResult)
      requires Valid()
      modifies this`programCounter, this`indexRegister, this`carryFlag, this`stackPointer, registers, stack
      ensures Valid()
      ensures result == Semantics.Run(old(Snapshot()), fuel, rng, 0)
      ensures result.Halted? ==> Snapshot() == result.final
      ensures result.OutOfFuel? ==> Snapshot() == result.current
      ensures result.Faulted? ==> Snapshot() == Semantics.AfterFault(result.at)
    {
      var now := Snapshot();
      ghost var whole := Semantics.Run(now, fuel, rng, 0);
      var t, remaining := 0, fuel;
      while now.programCounter < MEM_SIZE && remaining > 0
        invariant Valid() && now == Snapshot()
        invariant whole == Semantics.Run(now, remaining, rng, t)
        decreases remaining
      {
        var o, next := Turn(whole, now, remaining, rng, t);
        if o.Fail? {
          return Semantics.Faulted(o.error, now, t);
        }
        now, remaining, t := next, remaining - 1, t + 1;
      }
      Semantics.RunStops(now, remaining, rng, t);
      if now.programCounter < MEM_SIZE {
        return Semantics.OutOfFuel(now);
      }
      return Semantics.Halted(now);
    }

    /** The copy at the heart of `loadRom`, given the image's bytes. */
    method LoadRom(rom: seq<u8>) returns (o: Outcome)
      requires Valid()
      modifies this`programCounter, memory
      ensures Valid()
      ensures Applied(o, old(Snapshot()), Semantics.LoadRom(old(Snapshot()), rom), Snapshot())
    {
      if |rom| > MEM_SIZE - ROM_START_ADDR {
        return Fail(RomTooLarge(|rom|));
      }
      for i := 0 to |rom|
        invariant forall a :: 0 <= a < MEM_SIZE ==>
          memory[a] == if ROM_START_ADDR <= a < ROM_START_ADDR + i then rom[a - ROM_START_ADDR] else old(memory[a])
      {
        memory[ROM_START_ADDR + i] := rom[i];
      }
      programCounter := ROM_START_ADDR;
      ghost var loaded := Semantics.LoadRom(old(Snapshot()), rom).value;
      assert memory[..] == loaded.memory by {
        forall a | 0 <= a < MEM_SIZE
          ensures memory[..][a] == loaded.memory[a]
        {
        }
      }
      return Pass;
    }
  }
}
