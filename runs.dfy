/** Properties of whole runs of `start`: more fuel never changes how a
    finished run ended, call/return pairs, the self-jump halt, the halt of a
    freshly created machine, the driver program of `main.c`, and a reachable
    state in which the unguarded `fetch` would read past memory. */
module Runs {
  import opened Machine
  import opened Semantics
  import Properties

  /** A run that has ended (halted or faulted) ends the same way with any larger
      step budget: the budget only cuts runs short. */
  lemma {:induction false} RunMoreFuel(s: State, fuel: nat, extra: nat, rng: nat -> u8, t: nat)
    requires WellFormed(s)
    requires !Run(s, fuel, rng, t).OutOfFuel?
    ensures Run(s, fuel + extra, rng, t) == Run(s, fuel, rng, t)
    decreases fuel
  {
    if s.programCounter < MEM_SIZE && fuel > 0 {
      match Step(s, rng(t))
      case Err(_) =>
      case Ok(next) => RunMoreFuel(next, fuel - 1, extra, rng, t + 1);
    }
  }

  /** A faulted run names the state and step number at which it stopped: the
      step taken there, with that step's random byte, fails with the reported
      error. */
  lemma {:induction false} FaultIsAFailingStep(s: State, fuel: nat, rng: nat -> u8, t: nat)
    requires WellFormed(s)
    requires Run(s, fuel, rng, t).Faulted?
    ensures var r := Run(s, fuel, rng, t); Step(r.at, rng(r.step)) == Err(r.error)
    decreases fuel
  {
    match Step(s, rng(t))
    case Err(_) =>
    case Ok(next) => FaultIsAFailingStep(next, fuel - 1, rng, t + 1);
  }

  /** Starting at an even address below which nothing matters, with zeros from
      there to the end of memory, every step fetches 0x0000 (ignored), so the
      run walks off the end of memory and halts with nothing else changed. */
  lemma {:induction false} ZeroFilledMemoryHalts(s: State, rng: nat -> u8, t: nat)
    requires WellFormed(s) && s.programCounter % 2 == 0 && s.programCounter <= MEM_SIZE
    requires forall a :: s.programCounter <= a < MEM_SIZE ==> s.memory[a] == 0
    ensures Run(s, (MEM_SIZE - s.programCounter) / 2, rng, t) == Halted(s.(programCounter := MEM_SIZE))
    decreases MEM_SIZE - s.programCounter
  {
    if s.programCounter < MEM_SIZE {
      var next := s.(programCounter := s.programCounter + 2);
      assert Fetch(s) == Ok((next, 0));
      assert Step(s, rng(t)) == Ok(next);
      ZeroFilledMemoryHalts(next, rng, t + 1);
    }
  }

  /** `start` on a machine fresh from `createEmulator` (all zero, pc = 0) halts
      after 2048 ignored 0x0000 instructions with pc = MEM_SIZE. */
  lemma FreshMachineHalts(rng: nat -> u8)
    ensures Run(Fresh(), MEM_SIZE / 2, rng, 0) == Halted(Fresh().(programCounter := MEM_SIZE))
  {
    ZeroFilledMemoryHalts(Fresh(), rng, 0);
  }

  /** A jump to its own address halts the run at once, leaving pc = MEM_SIZE. */
  lemma SelfJumpHalts(s: State, fuel: nat, rng: nat -> u8, t: nat)
    requires WellFormed(s) && fuel > 0 && s.programCounter + 1 < MEM_SIZE
    requires s.memory[s.programCounter] == 0x10 + s.programCounter / 0x100
    requires s.memory[s.programCounter + 1] == s.programCounter % 0x100
    ensures Step(s, rng(t)) == Ok(s.(programCounter := MEM_SIZE))
    ensures Run(s, fuel, rng, t) == Halted(s.(programCounter := MEM_SIZE))
  {
    var next := s.(programCounter := s.programCounter + 2);
    var op := s.memory[s.programCounter] as int * 0x100 + s.memory[s.programCounter + 1];
    assert Fetch(s) == Ok((next, op));
    assert op / 0x1000 == 1 && op % 0x1000 == s.programCounter;
    assert Advance(s, fuel, rng, t) == Run(s.(programCounter := MEM_SIZE), fuel - 1, rng, t + 1);
  }

  /** A call 2nnn at pc followed by a return 00EE at nnn resumes at pc + 2 with
      the stack pointer restored; the only other trace is the return address
      left in the stack slot above the pointer. */
  lemma CallThenReturn(s: State, nnn: nat, rnd1: u8, rnd2: u8)
    requires WellFormed(s) && s.programCounter + 1 < MEM_SIZE && s.stackPointer < STACK_SIZE
    requires nnn + 1 < MEM_SIZE
    requires s.memory[s.programCounter] == 0x20 + nnn / 0x100 && s.memory[s.programCounter + 1] == nnn % 0x100
    requires s.memory[nnn] == 0x00 && s.memory[nnn + 1] == 0xEE
    ensures Step(s, rnd1).Ok? && Step(s, rnd1).value.programCounter == nnn
    ensures Step(Step(s, rnd1).value, rnd2) ==
      Ok(s.(stack := s.stack[s.stackPointer := s.programCounter + 2], programCounter := s.programCounter + 2))
  {
    var pc := s.programCounter;
    var op := s.memory[pc] as int * 0x100 + s.memory[pc + 1];
    assert op / 0x1000 == 2 && op % 0x1000 == nnn;
    var called := s.(stack := s.stack[s.stackPointer := pc + 2], stackPointer := s.stackPointer + 1, programCounter := nnn);
    assert Fetch(s) == Ok((s.(programCounter := pc + 2), op));
    assert Step(s, rnd1) == Ok(called);
    assert Fetch(called) == Ok((called.(programCounter := nnn + 2), 0x00EE));
  }

  /** The program `testInstruction` in `main.c` writes into a fresh machine:
      at 0x200 a call of 0x400, a register dump (0x0FFF) and a self-jump; at
      0x400 a dump and a return. pc is then set back to 0x200. */
  function TestInstruction(): (p: State)
    ensures WellFormed(p)
  {
    var s0 := Fresh().(programCounter := ROM_START_ADDR);
    var s1 := WriteIns(s0, 0x2400).value;
    var s2 := WriteIns(s1, 0x0FFF).value;
    var s3 := WriteIns(s2, 0x1204).value;
    var s4 := WriteIns(s3.(programCounter := 0x400), 0x0FFF).value;
    var s5 := WriteIns(s4, 0x00EE).value;
    s5.(programCounter := ROM_START_ADDR)
  }

  /** What the test program leaves in memory, byte by byte. */
  lemma {:induction false} TestInstructionImage()
    ensures var p := TestInstruction();
      p.programCounter == 0x200 && p.stackPointer == 0 &&
      p.memory[0x200] == 0x24 && p.memory[0x201] == 0x00 && p.memory[0x202] == 0x0F &&
      p.memory[0x203] == 0xFF && p.memory[0x204] == 0x12 && p.memory[0x205] == 0x04 &&
      p.memory[0x400] == 0x0F && p.memory[0x401] == 0xFF && p.memory[0x402] == 0x00 && p.memory[0x403] == 0xEE
  {
    var s0 := Fresh().(programCounter := ROM_START_ADDR);
    Properties.WriteInsThenFetch(s0, 0x2400);
    var s1 := WriteIns(s0, 0x2400).value;
    Properties.WriteInsThenFetch(s1, 0x0FFF);
    var s2 := WriteIns(s1, 0x0FFF).value;
    Properties.WriteInsThenFetch(s2, 0x1204);
    var s3 := WriteIns(s2, 0x1204).value;
    Properties.WriteInsThenFetch(s3.(programCounter := 0x400), 0x0FFF);
    var s4 := WriteIns(s3.(programCounter := 0x400), 0x0FFF).value;
    Properties.WriteInsThenFetch(s4, 0x00EE);
  }

  /** `main`: the test program runs five instructions (call, dump, return,
      dump, self-jump) and halts with pc = MEM_SIZE and an empty stack,
      whatever the random bytes. */
  lemma MainProgramHalts(rng: nat -> u8)
    ensures var r := Run(TestInstruction(), 5, rng, 0);
      r.Halted? && r.final.programCounter == MEM_SIZE && r.final.stackPointer == 0
  {
    TestInstructionImage();
    var p := TestInstruction();
    // call 0x400
    var q1 := p.(stack := p.stack[0 := 0x202], stackPointer := 1, programCounter := 0x400);
    assert Fetch(p) == Ok((p.(programCounter := 0x202), 0x2400));
    assert Step(p, rng(0)) == Ok(q1);
    // 0x0FFF only prints
    var q2 := q1.(programCounter := 0x402);
    assert Fetch(q1) == Ok((q2, 0x0FFF));
    assert Step(q1, rng(1)) == Ok(q2);
    // return to 0x202
    var q3 := q2.(stackPointer := 0, programCounter := 0x202);
    assert Fetch(q2) == Ok((q2.(programCounter := 0x404), 0x00EE));
    assert Step(q2, rng(2)) == Ok(q3);
    // 0x0FFF only prints
    var q4 := q3.(programCounter := 0x204);
    assert Fetch(q3) == Ok((q4, 0x0FFF));
    assert Step(q3, rng(3)) == Ok(q4);
    // 0x1204 at 0x204 jumps to itself: halt
    var q5 := q4.(programCounter := MEM_SIZE);
    assert Fetch(q4) == Ok((q4.(programCounter := 0x206), 0x1204));
    assert Step(q4, rng(4)) == Ok(q5);
  }

  /** The one-instruction image 1FFF, loaded at 0x200, jumps to 0xFFF = 4095:
      the loop's `pc < MEM_SIZE` test passes, but `fetch` as written would read
      the second byte at address 4096, past the end of memory. With the bounds
      check the run ends in `FetchOutOfRange(4095)`. */
  lemma FetchOverrunReachable(rng: nat -> u8)
    ensures LoadRom(Fresh(), [0x1F, 0xFF]).Ok?
    ensures var s0 := LoadRom(Fresh(), [0x1F, 0xFF]).value;
      var s1 := Step(s0, rng(0));
      s1.Ok? && s1.value.programCounter == 0xFFF &&
      s1.value.programCounter < MEM_SIZE && !(s1.value.programCounter + 1 < MEM_SIZE) &&
      Fetch(s1.value) == Err(FetchOutOfRange(0xFFF)) &&
      Run(s0, 2, rng, 0) == Faulted(FetchOutOfRange(0xFFF), s1.value, 1)
  {
    var s0 := LoadRom(Fresh(), [0x1F, 0xFF]).value;
    assert s0.memory[0x200] == 0x1F && s0.memory[0x201] == 0xFF;
    var s1 := s0.(programCounter := 0xFFF);
    assert Fetch(s0) == Ok((s0.(programCounter := 0x202), 0x1FFF));
    assert Step(s0, rng(0)) == Ok(s1);
  }
}
