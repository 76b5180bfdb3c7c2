/** What the engine promises, stated over `Semantics`: accessor round trips,
    the stack's LIFO discipline, the instruction-word encoding, the decoding of
    opcode fields, and the effect of every instruction family. */
module Properties {
  import opened Machine
  import opened Semantics

  // ---------------------------------------------------------------------------
  // Registers
  // ---------------------------------------------------------------------------

  /** Writing register i and reading register j gives the written value when
      j == i and the old contents otherwise; nothing but the register file changes. */
  lemma WriteThenRead(s: State, i: nat, v: u8, j: nat)
    requires WellFormed(s) && i < TOTAL_REGISTERS && j < TOTAL_REGISTERS
    ensures WriteRegister(s, i, v).Ok?
    ensures ReadRegister(WriteRegister(s, i, v).value, j) == Ok(if j == i then v else s.registers[j])
    ensures WriteRegister(s, i, v).value == s.(registers := WriteRegister(s, i, v).value.registers)
  {
  }

  // ---------------------------------------------------------------------------
  // Stack
  // ---------------------------------------------------------------------------

  /** A push followed by a pop gives back the pushed value and the old stack
      pointer; the push changed only the slot at the old pointer. */
  lemma PushThenPop(s: State, a: u16)
    requires WellFormed(s) && s.stackPointer < STACK_SIZE
    ensures Push(s, a).Ok?
    ensures var pushed := Push(s, a).value;
      pushed.stack[s.stackPointer] == a &&
      (forall k :: 0 <= k < STACK_SIZE && k != s.stackPointer ==> pushed.stack[k] == s.stack[k]) &&
      pushed == s.(stack := pushed.stack, stackPointer := s.stackPointer + 1) &&
      Pop(pushed) == Ok((s.(stack := pushed.stack), a))
  {
  }

  /** Two pushes then two pops give the values back in reverse order and
      restore the stack pointer. */
  lemma {:induction false} LastInFirstOut(s: State, a: u16, b: u16)
    requires WellFormed(s) && s.stackPointer + 2 <= STACK_SIZE
    ensures var s1 := Push(s, a).value;
      var s2 := Push(s1, b).value;
      var p1 := Pop(s2).value;
      var p2 := Pop(p1.0).value;
      p1.1 == b && p2.1 == a && p2.0.stackPointer == s.stackPointer
  {
    PushThenPop(s, a);
    var s1 := Push(s, a).value;
    PushThenPop(s1, b);
  }

  /** The stack refuses a seventeenth entry and a pop when empty. */
  lemma StackBounds(s: State, a: u16)
    requires WellFormed(s)
    ensures s.stackPointer == STACK_SIZE ==> Push(s, a) == Err(StackOverflow)
    ensures s.stackPointer == 0 ==> Pop(s) == Err(StackUnderflow)
  {
  }

  // ---------------------------------------------------------------------------
  // Instruction words
  // ---------------------------------------------------------------------------

  /** `writeIns` at pc stores the high byte at pc and the low byte at pc + 1,
      touches no other cell and advances pc by 2; `fetch` from the same pc then
      gives the opcode back, advancing pc by 2 and leaving memory alone. */
  lemma WriteInsThenFetch(s: State, opcode: u16)
    requires WellFormed(s) && s.programCounter + 1 < MEM_SIZE
    ensures WriteIns(s, opcode).Ok?
    ensures var w := WriteIns(s, opcode).value;
      var pc := s.programCounter;
      w.memory[pc] == opcode / 0x100 && w.memory[pc + 1] == opcode % 0x100 &&
      (forall a :: 0 <= a < MEM_SIZE && a != pc && a != pc + 1 ==> w.memory[a] == s.memory[a]) &&
      w == s.(memory := w.memory, programCounter := pc + 2) &&
      Fetch(w.(programCounter := pc)) == Ok((w, opcode))
  {
  }

  // ---------------------------------------------------------------------------
  // Decoding
  // ---------------------------------------------------------------------------

  /** An opcode assembled from four 4-bit fields a, x, y, n (most significant first). */
  function Encode(a: nat, x: nat, y: nat, n: nat): (op: u16)
    requires a < 0x10 && x < 0x10 && y < 0x10 && n < 0x10
  {
    a * 0x1000 + x * 0x100 + y * 0x10 + n
  }

  lemma DivMod16(q: int, r: int)
    requires 0 <= r < 0x10
    ensures (q * 0x10 + r) / 0x10 == q && (q * 0x10 + r) % 0x10 == r
  {
  }

  lemma DivMod256(q: int, r: int)
    requires 0 <= r < 0x100
    ensures (q * 0x100 + r) / 0x100 == q && (q * 0x100 + r) % 0x100 == r
  {
  }

  lemma DivMod4096(q: int, r: int)
    requires 0 <= r < 0x1000
    ensures (q * 0x1000 + r) / 0x1000 == q && (q * 0x1000 + r) % 0x1000 == r
  {
  }

  /** `getNibble` takes an assembled opcode apart into the fields it was built
      from; field 5 is the low twelve bits. */
  lemma {:induction false} DecodeEncode(a: nat, x: nat, y: nat, n: nat)
    requires a < 0x10 && x < 0x10 && y < 0x10 && n < 0x10
    ensures var op := Encode(a, x, y, n);
      GetNibble(op, 1) == Ok(a) && GetNibble(op, 2) == Ok(x) &&
      GetNibble(op, 3) == Ok(y) && GetNibble(op, 4) == Ok(n) &&
      GetNibble(op, 5) == Ok(x * 0x100 + y * 0x10 + n)
  {
    DivMod4096(a, x * 0x100 + y * 0x10 + n);
    DivMod256(a * 0x10 + x, y * 0x10 + n);
    DivMod16(a, x);
    DivMod16(a * 0x100 + x * 0x10 + y, n);
    DivMod16(a * 0x10 + x, y);
  }

  /** The four fields of any opcode put back together give the opcode:
      no bit is lost or counted twice. */
  lemma EncodeDecode(op: u16)
    ensures Encode(GetNibble(op, 1).value, GetNibble(op, 2).value, GetNibble(op, 3).value, GetNibble(op, 4).value) == op
  {
    var high, low := op / 0x100, op % 0x100;
    assert high == (op / 0x1000) * 0x10 + (op / 0x100) % 0x10;
    assert low == ((op / 0x10) % 0x10) * 0x10 + op % 0x10;
  }

  /** The worked example: 0x8AB4 has fields 8, A, B, 4. */
  lemma DecodeExample()
    ensures GetNibble(0x8AB4, 1) == Ok(8) && GetNibble(0x8AB4, 2) == Ok(0xA)
    ensures GetNibble(0x8AB4, 3) == Ok(0xB) && GetNibble(0x8AB4, 4) == Ok(4)
  {
    DecodeEncode(8, 0xA, 0xB, 4);
  }

  // ---------------------------------------------------------------------------
  // Instructions
  // ---------------------------------------------------------------------------

  /** The program counter two bytes further on, in 16-bit arithmetic. */
  function Skipped(s: State): (r: State)
  {
    s.(programCounter := (s.programCounter + 2) % 0x1_0000)
  }

  /** 00EE returns: it pops the return address into pc, or fails on an empty stack. */
  lemma Return(s: State, rnd: u8)
    requires WellFormed(s)
    ensures Execute(s, 0x00EE, rnd) ==
      if s.stackPointer == 0 then Err(StackUnderflow)
      else Ok(s.(stackPointer := s.stackPointer - 1, programCounter := s.stack[s.stackPointer - 1]))
  {
  }

  /** 1nnn jumps to nnn, except that a jump to the opcode's own address (pc - 2,
      pc having been advanced by the fetch) moves pc to MEM_SIZE. */
  lemma Jump(s: State, op: u16, rnd: u8)
    requires WellFormed(s) && op / 0x1000 == 0x1
    ensures Execute(s, op, rnd) ==
      Ok(s.(programCounter := if op % 0x1000 + 2 == s.programCounter then MEM_SIZE else op % 0x1000))
  {
  }

  /** 2nnn calls: it pushes the current (already advanced) pc and jumps to nnn,
      or fails when the stack is full. */
  lemma Call(s: State, op: u16, rnd: u8)
    requires WellFormed(s) && op / 0x1000 == 0x2
    ensures Execute(s, op, rnd) ==
      if s.stackPointer == STACK_SIZE then Err(StackOverflow)
      else Ok(s.(stack := s.stack[s.stackPointer := s.programCounter],
                 stackPointer := s.stackPointer + 1,
                 programCounter := op % 0x1000))
  {
  }

  /** 3xkk, 4xkk, 5xyN and 9xyN skip the next instruction (pc + 2) when their
      condition holds and otherwise change nothing; the N of 5xyN and 9xyN is ignored. */
  lemma ConditionalSkips(s: State, op: u16, rnd: u8)
    requires WellFormed(s)
    ensures var x, y, kk := (op / 0x100) % 0x10, (op / 0x10) % 0x10, op % 0x100;
      (op / 0x1000 == 0x3 ==> Execute(s, op, rnd) == Ok(if s.registers[x] == kk then Skipped(s) else s)) &&
      (op / 0x1000 == 0x4 ==> Execute(s, op, rnd) == Ok(if s.registers[x] != kk then Skipped(s) else s)) &&
      (op / 0x1000 == 0x5 ==> Execute(s, op, rnd) == Ok(if s.registers[x] == s.registers[y] then Skipped(s) else s)) &&
      (op / 0x1000 == 0x9 ==> Execute(s, op, rnd) == Ok(if s.registers[x] != s.registers[y] then Skipped(s) else s))
  {
  }

  /** 6xkk sets Vx to kk; 7xkk adds kk to Vx modulo 256 and leaves the carry flag alone. */
  lemma LoadAndAddImmediate(s: State, op: u16, rnd: u8)
    requires WellFormed(s)
    ensures var x, kk := (op / 0x100) % 0x10, op % 0x100;
      (op / 0x1000 == 0x6 ==> Execute(s, op, rnd) == Ok(s.(registers := s.registers[x := kk]))) &&
      (op / 0x1000 == 0x7 ==> Execute(s, op, rnd) == Ok(s.(registers := s.registers[x := (s.registers[x] + kk) % 256])))
  {
  }

  /** 8xyN: the effect on Vx and on the carry flag of each register operation;
      nothing else changes, and an N outside 0..7 and E is a no-op. */
  lemma RegisterOperations(s: State, op: u16, rnd: u8)
    requires WellFormed(s) && op / 0x1000 == 0x8
    ensures var x, y, n := (op / 0x100) % 0x10, (op / 0x10) % 0x10, op % 0x10;
      var vx, vy, r := s.registers[x] as int, s.registers[y] as int, Execute(s, op, rnd);
      r.Ok? && r.value == s.(registers := r.value.registers, carryFlag := r.value.carryFlag) &&
      (forall i :: 0 <= i < TOTAL_REGISTERS && i != x ==> r.value.registers[i] == s.registers[i]) &&
      (n == 0x0 ==> r.value.registers[x] == vy && r.value.carryFlag == s.carryFlag) &&
      (n == 0x1 ==> r.value.registers[x] == Or8(vx, vy) && r.value.carryFlag == s.carryFlag) &&
      (n == 0x2 ==> r.value.registers[x] == And8(vx, vy) && r.value.carryFlag == s.carryFlag) &&
      (n == 0x3 ==> r.value.registers[x] == Xor8(vx, vy) && r.value.carryFlag == s.carryFlag) &&
      (n == 0x4 ==> r.value.registers[x] == (vx + vy) % 256 && (r.value.carryFlag == 1 <==> vx + vy > 255)) &&
      (n == 0x5 ==> r.value.registers[x] == (vx - vy) % 256 && (r.value.carryFlag == 1 <==> vx > vy)) &&
      (n == 0x6 ==> r.value.registers[x] == vx / 2 && r.value.carryFlag == vx % 2) &&
      (n == 0x7 ==> r.value.registers[x] == (vy - vx) % 256 && (r.value.carryFlag == 1 <==> vy > vx)) &&
      (n == 0xE ==> r.value.registers[x] == (2 * vx) % 256 && r.value.carryFlag == vx / 128) &&
      (n !in {0x0, 0x1, 0x2, 0x3, 0x4, 0x5, 0x6, 0x7, 0xE} ==> r.value == s)
  {
  }

  /** The worked examples of 8xy4 and 8xy5 with x = 1, y = 2. */
  lemma ArithmeticExamples(s: State, rnd: u8)
    requires WellFormed(s)
    ensures s.registers[1] == 0xFF && s.registers[2] == 0x01 ==>
      Execute(s, 0x8124, rnd) == Ok(s.(registers := s.registers[1 := 0x00], carryFlag := 1))
    ensures s.registers[1] == 0x05 && s.registers[2] == 0x03 ==>
      Execute(s, 0x8125, rnd) == Ok(s.(registers := s.registers[1 := 0x02], carryFlag := 1))
    ensures s.registers[1] == 0x03 && s.registers[2] == 0x05 ==>
      Execute(s, 0x8125, rnd) == Ok(s.(registers := s.registers[1 := 0xFE], carryFlag := 0))
  {
  }

  /** Annn loads the index register; Bnnn jumps to nnn + V0, which can lie past
      the end of memory (up to 0x10FE); Cxkk sets Vx to the random byte masked by kk. */
  lemma IndexJumpRandom(s: State, op: u16, rnd: u8)
    requires WellFormed(s)
    ensures var x, kk, nnn := (op / 0x100) % 0x10, op % 0x100, op % 0x1000;
      (op / 0x1000 == 0xA ==> Execute(s, op, rnd) == Ok(s.(indexRegister := nnn))) &&
      (op / 0x1000 == 0xB ==> Execute(s, op, rnd) == Ok(s.(programCounter := nnn + s.registers[0])) &&
                              nnn + s.registers[0] <= 0x10FE) &&
      (op / 0x1000 == 0xC ==> Execute(s, op, rnd) == Ok(s.(registers := s.registers[x := And8(rnd, kk)])))
  {
  }

  /** 00E0 (clear screen), Dxyn (draw), Ex9E and ExA1 (keys) and every Fxxx
      (timers, sound, BCD, fonts) are fatal. */
  lemma UnimplementedAreFatal(s: State, op: u16, rnd: u8)
    requires WellFormed(s)
    requires op == 0x00E0 || op / 0x1000 == 0xD || op / 0x1000 == 0xF ||
             (op / 0x1000 == 0xE && op % 0x100 in {0x9E, 0xA1})
    ensures Execute(s, op, rnd) == Err(Unimplemented(op))
  {
  }

  /** The opcodes the engine ignores: 0nnn other than 00E0 and 00EE (0FFF only
      prints), and Exkk with kk other than 9E and A1. Both leave the state as the
      fetch left it. */
  lemma IgnoredOpcodes(s: State, op: u16, rnd: u8)
    requires WellFormed(s)
    requires (op / 0x1000 == 0x0 && op != 0x00E0 && op != 0x00EE) ||
             (op / 0x1000 == 0xE && op % 0x100 !in {0x9E, 0xA1})
    ensures Execute(s, op, rnd) == Ok(s)
  {
  }

  /** The carry flag is its own field: an instruction that does not name VF as
      its destination register leaves VF unchanged, whatever it does to the flag. */
  lemma FlagIsNotVF(s: State, op: u16, rnd: u8)
    requires WellFormed(s)
    requires (op / 0x100) % 0x10 != 0xF
    ensures Execute(s, op, rnd).Ok? ==> Execute(s, op, rnd).value.registers[0xF] == s.registers[0xF]
  {
  }
}
