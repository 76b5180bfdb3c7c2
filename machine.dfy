/** Machine state of the CHIP-8 interpreter: the `Emulator` record, its size
    constants and the fatal conditions an operation on it can raise. */
module Machine {

  /** Bytes of addressable memory (valid addresses 0..4095). */
  const MEM_SIZE: nat := 4096
  /** General-purpose 8-bit registers V0..VF. */
  const TOTAL_REGISTERS: nat := 16
  /** Where a program image is placed and where execution of a loaded image starts. */
  const ROM_START_ADDR: nat := 0x200
  /** Capacity of the call stack. */
  const STACK_SIZE: nat := 16

  /** `uint8_t`: register contents, memory cells, the carry flag. */
  type u8 = x: int | 0 <= x < 0x100
  /** `uint16_t`: opcodes, addresses, the program counter, the index register, stack slots. */
  type u16 = x: int | 0 <= x < 0x1_0000

  /** Every fatal condition of the interpreter. The C code reports each one and
      exits the process; here it is a value returned to the caller. */
  datatype Error =
    | RegisterOutOfRange(index: nat)
    | MemoryOutOfRange(address: nat)
    | FetchOutOfRange(pc: nat)
    | StackOverflow
    | StackUnderflow
    | NibbleOutOfRange(nibble: nat)
    | Unimplemented(opcode: u16)
    | RomTooLarge(size: nat)

  /** A value, or the fatal error that stopped the computation. */
  datatype Result<+T> = Ok(value: T) | Err(error: Error) {
    predicate IsFailure() { Err? }

    function PropagateFailure<U>(): Result<U>
      requires Err?
    {
      Err(error)
    }

    function Extract(): T
      requires Ok?
    {
      value
    }
  }

  /** What a state-changing operation reports to its caller. */
  datatype Outcome = Pass | Fail(error: Error)

  /** The whole `Emulator` record as a value. */
  datatype State = State(
    memory: seq<u8>,
    registers: seq<u8>,
    stack: seq<u16>,
    indexRegister: u16,
    programCounter: u16,
    carryFlag: u8,
    stackPointer: nat)

  /** The record's fixed array sizes, and the stack pointer never past the stack's end. */
  predicate WellFormed(s: State) {
    |s.memory| == MEM_SIZE &&
    |s.registers| == TOTAL_REGISTERS &&
    |s.stack| == STACK_SIZE &&
    s.stackPointer <= STACK_SIZE
  }

  /** `createEmulator`: a zero-filled record (calloc) with an empty stack. */
  function Fresh(): (s: State)
    ensures WellFormed(s)
    ensures s.programCounter == 0 && s.indexRegister == 0 && s.carryFlag == 0 && s.stackPointer == 0
    ensures forall a :: 0 <= a < MEM_SIZE ==> s.memory[a] == 0
    ensures forall i :: 0 <= i < TOTAL_REGISTERS ==> s.registers[i] == 0
    ensures forall k :: 0 <= k < STACK_SIZE ==> s.stack[k] == 0
  {
    State(seq(MEM_SIZE, _ => 0), seq(TOTAL_REGISTERS, _ => 0), seq(STACK_SIZE, _ => 0), 0, 0, 0, 0)
  }

  /** How an operation that either fails or yields a new state left the machine:
      on success the new state, on failure the old one, untouched. */
  predicate Applied(o: Outcome, before: State, r: Result<State>, after: State) {
    if r.Ok? then o == Pass && after == r.value
    else o == Fail(r.error) && after == before
  }

  /** How an operation that fails or yields a value and a new state left the
      machine: on success that value and state, on failure the old state. */
  predicate Returned<T(==)>(r: Result<T>, before: State, spec: Result<(State, T)>, after: State) {
    if spec.Ok? then r == Ok(spec.value.1) && after == spec.value.0
    else r == Err(spec.error) && after == before
  }
}
