/** The driver of `main.c` on the heap-based `Emulator`: write the test
    program with `writeIns`, then `start`. */
module Driver {
  import opened Machine
  import Semantics
  import Runs
  import opened Interpreter

  /** `testInstruction`: the five opcodes written with `writeIns` at 0x200 and
      0x400, then pc set back to 0x200. */
  method TestInstruction(e: Emulator)
    requires e.Valid() && e.Snapshot() == Fresh()
    modifies e, e.memory
    ensures e.Valid() && e.memory == old(e.memory) && e.registers == old(e.registers) && e.stack == old(e.stack)
    ensures e.Snapshot() == Runs.TestInstruction()
  {
    e.programCounter := ROM_START_ADDR;
    var o := e.WriteIns(0x2400);
    o := e.WriteIns(0x0FFF);
    o := e.WriteIns(0x1204);
    e.programCounter := 0x400;
    o := e.WriteIns(0x0FFF);
    o := e.WriteIns(0x00EE);
    e.programCounter := ROM_START_ADDR;
  }

  /** `main`: a fresh emulator running the test program halts with pc = MEM_SIZE
      and an empty stack; five steps suffice. */
  method RunTestProgram(rng: nat -> u8) returns (result: Semantics.RunResult)
    ensures result.Halted? && result.final.programCounter == MEM_SIZE && result.final.stackPointer == 0
  {
    var e := new Emulator();
    TestInstruction(e);
    result := e.Start(5, rng);
    Runs.MainProgramHalts(rng);
  }
}
