/** The fetch-decode-execute engine of the CHIP-8 interpreter as functions on
    `Machine.State`: each function is one routine of the engine, with the C
    code's fatal `throwError` paths returned as `Err`. The C masks and shifts
    on unsigned words are written as division and remainder by powers of two,
    and a store into a `uint8_t`/`uint16_t` as a remainder by 2^8/2^16. */
module Semantics {
  import opened Machine

  // ---------------------------------------------------------------------------
  // Guarded accessors
  // ---------------------------------------------------------------------------

  /** `readRegister`: the value of register `index`, or an error past V15. */
  function ReadRegister(s: State, index: nat): (r: Result<u8>)
    requires WellFormed(s)
    ensures r.Ok? <==> index < TOTAL_REGISTERS
    ensures r.Err? ==> r.error == RegisterOutOfRange(index)
  {
    if index >= TOTAL_REGISTERS then Err(RegisterOutOfRange(index))
    else Ok(s.registers[index])
  }

  /** `writeRegister`: overwrite register `index`, or an error past V15. */
  function WriteRegister(s: State, index: nat, value: u8): (r: Result<State>)
    requires WellFormed(s)
    ensures r.Ok? <==> index < TOTAL_REGISTERS
    ensures r.Err? ==> r.error == RegisterOutOfRange(index)
    ensures r.Ok? ==> WellFormed(r.value)
  {
    if index >= TOTAL_REGISTERS then Err(RegisterOutOfRange(index))
    else Ok(s.(registers := s.registers[index := value]))
  }

  /** `writeMemory`: overwrite one memory cell, or an error at or past MEM_SIZE. */
  function WriteMemory(s: State, address: u16, byte: u8): (r: Result<State>)
    requires WellFormed(s)
    ensures r.Ok? <==> address < MEM_SIZE
    ensures r.Err? ==> r.error == MemoryOutOfRange(address)
    ensures r.Ok? ==> WellFormed(r.value)
    ensures r.Ok? ==> r.value.memory[address] == byte
    ensures r.Ok? ==> forall a :: 0 <= a < MEM_SIZE && a != address ==> r.value.memory[a] == s.memory[a]
    ensures r.Ok? ==> r.value == s.(memory := r.value.memory)
  {
    if address >= MEM_SIZE then Err(MemoryOutOfRange(address))
    else Ok(s.(memory := s.memory[address := byte]))
  }

  /** `pushStack`: store `value` in the next free slot and bump the pointer,
      or report an overflow when all sixteen slots are in use. */
  function Push(s: State, value: u16): (r: Result<State>)
    requires WellFormed(s)
    ensures r.Ok? <==> s.stackPointer < STACK_SIZE
    ensures r.Err? ==> r.error == StackOverflow
    ensures r.Ok? ==> WellFormed(r.value) && r.value.stackPointer == s.stackPointer + 1
  {
    if s.stackPointer >= STACK_SIZE then Err(StackOverflow)
    else Ok(s.(stack := s.stack[s.stackPointer := value], stackPointer := s.stackPointer + 1))
  }

  /** `popStack`: drop the pointer by one and give back the slot it now names,
      or report an underflow on an empty stack. */
  function Pop(s: State): (r: Result<(State, u16)>)
    requires WellFormed(s)
    ensures r.Ok? <==> s.stackPointer > 0
    ensures r.Err? ==> r.error == StackUnderflow
    ensures r.Ok? ==> WellFormed(r.value.0) && r.value.0.stackPointer + 1 == s.stackPointer
  {
    if s.stackPointer == 0 then Err(StackUnderflow)
    else Ok((s.(stackPointer := s.stackPointer - 1), s.stack[s.stackPointer - 1]))
  }

  // ---------------------------------------------------------------------------
  // Instruction words in memory
  // ---------------------------------------------------------------------------

  /** `writeIns`: store `opcode` big-endian at the program counter and advance it
      past the two bytes. The high byte is written before the low byte's address
      is checked. */
  function WriteIns(s: State, opcode: u16): (r: Result<State>)
    requires WellFormed(s)
    ensures r.Ok? <==> s.programCounter + 1 < MEM_SIZE
    ensures r.Ok? ==> r.value.programCounter == s.programCounter + 2
    ensures r.Err? ==> r.error == MemoryOutOfRange(if s.programCounter < MEM_SIZE then s.programCounter + 1 else s.programCounter)
    ensures r.Ok? ==> WellFormed(r.value)
  {
    var high := (opcode / 0x100) % 0x100;
    var low := opcode % 0x100;
    var s1 :- WriteMemory(s, s.programCounter, high);
    var s2 :- WriteMemory(s1, (s.programCounter + 1) % 0x1_0000, low);
    Ok(s2.(programCounter := (s.programCounter + 2) % 0x1_0000))
  }

  /** `fetch` as the C code has it: read the big-endian word at the program
      counter and advance the counter by 2. It has no bounds check of its own;
      its two reads stay inside memory only while pc + 1 < MEM_SIZE. */
  function FetchAsWritten(s: State): (r: (State, u16))
    requires WellFormed(s)
    requires s.programCounter + 1 < MEM_SIZE
    ensures r.0 == s.(programCounter := s.programCounter + 2)
    ensures r.1 / 0x100 == s.memory[s.programCounter] && r.1 % 0x100 == s.memory[s.programCounter + 1]
  {
    var high := s.memory[s.programCounter];
    var low := s.memory[s.programCounter + 1];
    (s.(programCounter := s.programCounter + 2), (high as int) * 0x100 + low)
  }

  /** `fetch` with the bounds check the run loop needs: a program counter of
      4095 passes the loop's `pc < MEM_SIZE` test but would read past memory. */
  function Fetch(s: State): (r: Result<(State, u16)>)
    requires WellFormed(s)
    ensures r.Ok? <==> s.programCounter + 1 < MEM_SIZE
    ensures r.Err? ==> r.error == FetchOutOfRange(s.programCounter)
    ensures r.Ok? ==> WellFormed(r.value.0) && r.value.0.memory == s.memory
  {
    if s.programCounter + 1 >= MEM_SIZE then Err(FetchOutOfRange(s.programCounter))
    else Ok(FetchAsWritten(s))
  }

  // ---------------------------------------------------------------------------
  // Decoding
  // ---------------------------------------------------------------------------

  /** `getNibble`: fields 1..4 are the opcode's four 4-bit fields from the most
      significant one down; field 5 is the low 12 bits (the address nnn). */
  function GetNibble(opcode: u16, nibble: nat): (r: Result<u16>)
    ensures r.Ok? <==> 1 <= nibble <= 5
    ensures r.Err? ==> r.error == NibbleOutOfRange(nibble)
    ensures 1 <= nibble <= 4 ==> r.Ok? && r.value < 0x10
    ensures nibble == 5 ==> r.Ok? && r.value < 0x1000
  {
    if nibble == 1 then Ok(opcode / 0x1000)
    else if nibble == 2 then Ok((opcode / 0x100) % 0x10)
    else if nibble == 3 then Ok((opcode / 0x10) % 0x10)
    else if nibble == 4 then Ok(opcode % 0x10)
    else if nibble == 5 then Ok(opcode % 0x1000)
    else Err(NibbleOutOfRange(nibble))
  }

  // ---------------------------------------------------------------------------
  // Execution
  // ---------------------------------------------------------------------------

  /** Bit-wise OR, AND and XOR of two bytes. */
  function Or8(a: u8, b: u8): u8 { ((a as bv8) | (b as bv8)) as int }
  function And8(a: u8, b: u8): u8 { ((a as bv8) & (b as bv8)) as int }
  function Xor8(a: u8, b: u8): u8 { ((a as bv8) ^ (b as bv8)) as int }

  /** The register operations 8xyN. Only Vx and the carry flag can change; the
      flag is the record's own `carry_flag` field, never VF. An N outside 0..7
      and E changes nothing. */
  function Alu(s: State, x: nat, y: nat, n: u16): (r: State)
    requires WellFormed(s) && x < TOTAL_REGISTERS && y < TOTAL_REGISTERS
    ensures WellFormed(r)
    ensures r == s.(registers := r.registers, carryFlag := r.carryFlag)
    ensures forall i :: 0 <= i < TOTAL_REGISTERS && i != x ==> r.registers[i] == s.registers[i]
  {
    var vx := s.registers[x];
    var vy := s.registers[y];
    if n == 0x0 then s.(registers := s.registers[x := vy])
    else if n == 0x1 then s.(registers := s.registers[x := Or8(vx, vy)])
    else if n == 0x2 then s.(registers := s.registers[x := And8(vx, vy)])
    else if n == 0x3 then s.(registers := s.registers[x := Xor8(vx, vy)])
    else if n == 0x4 then
      var sum := vx as int + vy;
      s.(registers := s.registers[x := sum % 0x100], carryFlag := if sum > 255 then 1 else 0)
    else if n == 0x5 then
      s.(registers := s.registers[x := (vx as int - vy) % 0x100], carryFlag := if vx > vy then 1 else 0)
    else if n == 0x6 then
      s.(registers := s.registers[x := vx / 2], carryFlag := if vx % 2 == 1 then 1 else 0)
    else if n == 0x7 then
      s.(registers := s.registers[x := (vy as int - vx) % 0x100], carryFlag := if vy > vx then 1 else 0)
    else if n == 0xE then
      s.(registers := s.registers[x := (vx as int * 2) % 0x100], carryFlag := if vx >= 0x80 then 1 else 0)
    else s
  }

  /** `execute`: apply one already-fetched opcode, `rnd` standing for the byte
      `rand() % 256` that Cxkk draws. The program counter already points past
      the opcode. Memory never changes, and the only fatal outcomes are the
      unimplemented instructions and a stack overflow or underflow. */
  function Execute(s: State, opcode: u16, rnd: u8): (r: Result<State>)
    requires WellFormed(s)
    ensures r.Ok? ==> WellFormed(r.value) && r.value.memory == s.memory
    ensures r.Err? ==> r.error in {Unimplemented(opcode), StackOverflow, StackUnderflow}
  {
    var n1 := GetNibble(opcode, 1).value;
    var x := GetNibble(opcode, 2).value;
    var y := GetNibble(opcode, 3).value;
    var n4 := GetNibble(opcode, 4).value;
    var kk := opcode % 0x100;
    var nnn := opcode % 0x1000;
    if n1 == 0x0 then
      if opcode == 0x00E0 then Err(Unimplemented(opcode))
      else if opcode == 0x00EE then
        var popped :- Pop(s);
        Ok(popped.0.(programCounter := popped.1))
      else
        // 0x0FFF only prints the registers; every other 0nnn is ignored
        Ok(s)
    else if n1 == 0x1 then
      // a jump to its own address halts the run by moving pc to the end of memory
      Ok(s.(programCounter := if nnn == s.programCounter - 2 then MEM_SIZE else nnn))
    else if n1 == 0x2 then
      var pushed :- Push(s, s.programCounter);
      Ok(pushed.(programCounter := nnn))
    else if n1 == 0x3 then
      Ok(if s.registers[x] == kk then s.(programCounter := (s.programCounter + 2) % 0x1_0000) else s)
    else if n1 == 0x4 then
      Ok(if s.registers[x] != kk then s.(programCounter := (s.programCounter + 2) % 0x1_0000) else s)
    else if n1 == 0x5 then
      Ok(if s.registers[x] == s.registers[y] then s.(programCounter := (s.programCounter + 2) % 0x1_0000) else s)
    else if n1 == 0x6 then
      Ok(s.(registers := s.registers[x := kk]))
    else if n1 == 0x7 then
      Ok(s.(registers := s.registers[x := (s.registers[x] + kk) % 0x100]))
    else if n1 == 0x8 then
      Ok(Alu(s, x, y, n4))
    else if n1 == 0x9 then
      Ok(if s.registers[x] != s.registers[y] then s.(programCounter := (s.programCounter + 2) % 0x1_0000) else s)
    else if n1 == 0xA then
      Ok(s.(indexRegister := nnn))
    else if n1 == 0xB then
      // at most 0xFFF + 0xFF = 0x10FE: no uint16_t truncation happens
      Ok(s.(programCounter := nnn + s.registers[0]))
    else if n1 == 0xC then
      Ok(s.(registers := s.registers[x := And8(rnd, kk)]))
    else if n1 == 0xD then
      Err(Unimplemented(opcode))
    else if n1 == 0xE then
      if kk == 0x9E || kk == 0xA1 then Err(Unimplemented(opcode)) else Ok(s)
    else
      // n1 == 0xF: timers, sound, BCD and fonts are not implemented
      Err(Unimplemented(opcode))
  }

  /** One turn of the `start` loop: fetch, then execute. */
  function Step(s: State, rnd: u8): (r: Result<State>)
    requires WellFormed(s)
    ensures r.Ok? ==> WellFormed(r.value) && r.value.memory == s.memory
  {
    var fetched :- Fetch(s);
    Execute(fetched.0, fetched.1, rnd)
  }

  /** How a bounded run of `start` ends: the program counter left memory, a fatal
      error stopped it (in state `at`, at step number `step`), or the step budget
      ran out first. */
  datatype RunResult = Halted(final: State) | Faulted(error: Error, at: State, step: nat) | OutOfFuel(current: State)

  /** `start`, bounded by `fuel` steps: loop while pc < MEM_SIZE. Step number `t`
      draws the random byte `rng(t)`. */
  function Run(s: State, fuel: nat, rng: nat -> u8, t: nat): (r: RunResult)
    requires WellFormed(s)
    ensures r.Halted? ==> WellFormed(r.final) && r.final.programCounter >= MEM_SIZE && r.final.memory == s.memory
    ensures r.OutOfFuel? ==> WellFormed(r.current) && r.current.programCounter < MEM_SIZE && r.current.memory == s.memory
    ensures (r.Halted? && fuel == 0) ==> r.final == s
    ensures r.Faulted? ==> fuel > 0 && WellFormed(r.at) && r.at.programCounter < MEM_SIZE && r.at.memory == s.memory
    ensures r.Faulted? ==> t <= r.step < t + fuel
    decreases fuel, 1
  {
    if s.programCounter >= MEM_SIZE then Halted(s)
    else if fuel == 0 then OutOfFuel(s)
    else Advance(s, fuel, rng, t)
  }

  /** The body of the `start` loop inside memory with fuel left: take step
      number `t`, then either stop on its error or run on from its state. */
  function Advance(s: State, fuel: nat, rng: nat -> u8, t: nat): (r: RunResult)
    requires WellFormed(s) && s.programCounter < MEM_SIZE && fuel > 0
    ensures r.Halted? ==> WellFormed(r.final) && r.final.programCounter >= MEM_SIZE && r.final.memory == s.memory
    ensures r.OutOfFuel? ==> WellFormed(r.current) && r.current.programCounter < MEM_SIZE && r.current.memory == s.memory
    ensures r.Faulted? ==> WellFormed(r.at) && r.at.programCounter < MEM_SIZE && r.at.memory == s.memory
    ensures r.Faulted? ==> t <= r.step < t + fuel
    decreases fuel, 0
  {
    match Step(s, rng(t))
    case Err(e) => Faulted(e, s, t)
    case Ok(next) => Run(next, fuel - 1, rng, t + 1)
  }

  /** Where `Run` stops without taking a step: outside memory it has halted, and
      inside memory with no fuel left it is out of fuel. */
  lemma RunStops(s: State, fuel: nat, rng: nat -> u8, t: nat)
    requires WellFormed(s) && (s.programCounter >= MEM_SIZE || fuel == 0)
    ensures Run(s, fuel, rng, t) == if s.programCounter >= MEM_SIZE then Halted(s) else OutOfFuel(s)
  {
  }

  /** The state a failing step from `s` leaves behind: a failed fetch changes
      nothing, a failed `execute` leaves the fetch's advance of pc. */
  function AfterFault(s: State): (r: State)
    requires WellFormed(s)
    ensures WellFormed(r) && r == s.(programCounter := r.programCounter)
  {
    match Fetch(s)
    case Ok(fetched) => fetched.0
    case Err(_) => s
  }

  /** One turn of `Run` from inside memory with fuel left, whose step left the
      machine in `after` with outcome `o`: a failing step ends the run there,
      leaving the machine as it was when the step failed; a successful one
      continues from `after`. */
  lemma RunStep(s: State, mid: State, o: Outcome, after: State, fuel: nat, rng: nat -> u8, t: nat)
    requires WellFormed(s) && s.programCounter < MEM_SIZE && fuel > 0
    requires Applied(o, mid, Step(s, rng(t)), after)
    ensures o.Pass? ==> WellFormed(after) && Run(s, fuel, rng, t) == Run(after, fuel - 1, rng, t + 1)
    ensures o.Fail? ==> after == mid && Run(s, fuel, rng, t) == Faulted(o.error, s, t)
  {
  }

  // ---------------------------------------------------------------------------
  // Program image
  // ---------------------------------------------------------------------------

  /** The part of `loadRom` after the file has been read: refuse an image that
      does not fit between ROM_START_ADDR and the end of memory, otherwise copy
      it to ROM_START_ADDR and point the program counter there. */
  function LoadRom(s: State, rom: seq<u8>): (r: Result<State>)
    requires WellFormed(s)
    ensures r.Ok? <==> |rom| <= 3584
    ensures r.Err? ==> r.error == RomTooLarge(|rom|)
    ensures r.Ok? ==> WellFormed(r.value)
    ensures r.Ok? ==> r.value == s.(memory := r.value.memory, programCounter := 0x200)
    ensures r.Ok? ==> forall a :: 0 <= a < MEM_SIZE ==>
      r.value.memory[a] == if ROM_START_ADDR <= a < ROM_START_ADDR + |rom| then rom[a - ROM_START_ADDR] else s.memory[a]
  {
    if |rom| > MEM_SIZE - ROM_START_ADDR then Err(RomTooLarge(|rom|))
    else
      var image := s.memory[..ROM_START_ADDR] + rom + s.memory[ROM_START_ADDR + |rom|..];
      Ok(s.(memory := image, programCounter := ROM_START_ADDR))
  }
}
