/** Day 5: the Intcode interpreter with input, output and parameter
    modes. Part 1 knows opcodes 1-4; part 2 adds the jumps (5, 6) and
    the comparisons (7, 8). Day 7 part 1 reuses the part 2 interpreter
    unchanged. A mode is a boolean: a nonzero digit means immediate. The
    loop runs until the whole word at `ip` is exactly 99. */
module DiagnosticIntcode {
  import opened Common

  /** Which opcodes the interpreter has branches for. */
  datatype Dialect = FourOpcodes | EightOpcodes

  predicate Knows(d: Dialect, opcode: int) {
    1 <= opcode <= 4 || (d == EightOpcodes && 5 <= opcode <= 8)
  }

  /** The interpreter's variables: the program list (updated in place), the
      instruction pointer, the inputs not yet consumed (in the order given)
      and the outputs so far. */
  datatype Machine = Machine(mem: seq<int>, ip: int, inputs: seq<int>, output: seq<int>)

  function Boot(program: seq<int>, inputs: seq<int>): Machine {
    Machine(program, 0, inputs, [])
  }

  /** How a run ends: at a 99, with an IndexError, or (only in this model)
      when the step budget is spent. */
  datatype Status = Halted | Crashed | OutOfFuel

  // ---------------------------------------------------------------------
  // Decoding.

  /** k mode flags read from q, lowest digit first; each step drops a digit
      by truncating division. */
  function ModeDigits(q: int, k: nat): (modes: seq<bool>)
    ensures |modes| == k
    decreases k
  {
    if k == 0 then [] else [q % 10 != 0] + ModeDigits(TruncDiv(q, 10), k - 1)
  }

  /** The three mode flags of an instruction word: the loop of
      `getParameterModes` written out. */
  function ParameterModes(word: int): (modes: seq<bool>)
    ensures |modes| == 3
  {
    var q := TruncDiv(word, 100);
    [q % 10 != 0, TruncDiv(q, 10) % 10 != 0, TruncDiv(TruncDiv(q, 10), 10) % 10 != 0]
  }

  /** Reading the three flags one digit at a time gives them all. */
  lemma ModeDigitsThree(word: int)
    ensures ModeDigits(TruncDiv(word, 100), 3) == ParameterModes(word)
  {
    var q := TruncDiv(word, 100);
    var q1 := TruncDiv(q, 10);
    var q2 := TruncDiv(q1, 10);
    assert ModeDigits(q2, 1) == [q2 % 10 != 0];
    assert ModeDigits(q1, 2) == [q1 % 10 != 0] + ModeDigits(q2, 1);
  }

  /** For a non-negative word the flags are its hundreds, thousands and
      ten-thousands digits, lowest parameter first. */
  lemma ParameterModesDigits(word: nat)
    ensures ParameterModes(word)
      == [(word / 100) % 10 != 0, (word / 1000) % 10 != 0, (word / 10000) % 10 != 0]
  {
    DropDigits(word);
  }

  /** `getParameterModes`. */
  method GetParameterModes(word: int) returns (modes: seq<bool>)
    ensures modes == ParameterModes(word)
  {
    var opcode := TruncDiv(word, 100);
    modes := [];
    ModeDigitsThree(word);
    for i := 0 to 3
      invariant modes + ModeDigits(opcode, 3 - i) == ParameterModes(word)
    {
      ghost var rest := ModeDigits(TruncDiv(opcode, 10), 2 - i);
      assert ModeDigits(opcode, 3 - i) == [opcode % 10 != 0] + rest;
      assert modes + ([opcode % 10 != 0] + rest) == (modes + [opcode % 10 != 0]) + rest;
      modes := modes + [opcode % 10 != 0];
      opcode := TruncDiv(opcode, 10);
    }
  }

  /** Parameter i of the instruction at ip: the word after the opcode, or
      the cell it points at when the mode is positional. */
  function Operand(mem: seq<int>, ip: int, i: nat, modes: seq<bool>): Option<int>
    requires i < |modes|
  {
    var raw :- Get(mem, ip + 1 + i);
    if modes[i] then Some(raw) else Get(mem, raw)
  }

  /** The first `count` parameters in order; None if any read raises. */
  function Operands(mem: seq<int>, ip: int, count: nat, modes: seq<bool>): (r: Option<seq<int>>)
    requires count <= |modes|
    ensures r.Some? ==> |r.value| == count
    decreases count
  {
    if count == 0 then Some([])
    else
      var init :- Operands(mem, ip, count - 1, modes);
      var last :- Operand(mem, ip, count - 1, modes);
      Some(init + [last])
  }

  /** `getParameters`, which also reads the opcode word itself. */
  function Parameters(mem: seq<int>, ip: int, count: nat, modes: seq<bool>): (r: Option<seq<int>>)
    requires count <= |modes|
    ensures r.Some? ==> |r.value| == count
  {
    if InRange(mem, ip) then Operands(mem, ip, count, modes) else None
  }

  /** Once a parameter read raises, asking for more parameters raises too. */
  lemma {:induction false} OperandsFailurePersists(mem: seq<int>, ip: int, i: nat, j: nat, modes: seq<bool>)
    requires i <= j <= |modes|
    requires Operands(mem, ip, i, modes).None?
    ensures Operands(mem, ip, j, modes).None?
    decreases j
  {
    if i < j {
      OperandsFailurePersists(mem, ip, i, j - 1, modes);
    }
  }

  /** Parameters read one by one each name the cell the mode selects. */
  lemma ParametersMeaning(mem: seq<int>, ip: int, count: nat, modes: seq<bool>, i: nat)
    requires count <= |modes| && i < count
    requires Parameters(mem, ip, count, modes).Some?
    ensures InRange(mem, ip + 1 + i)
    ensures var raw := mem[Slot(mem, ip + 1 + i)];
      modes[i] ==> Parameters(mem, ip, count, modes).value[i] == raw
    ensures var raw := mem[Slot(mem, ip + 1 + i)];
      !modes[i] ==> InRange(mem, raw) && Parameters(mem, ip, count, modes).value[i] == mem[Slot(mem, raw)]
    decreases count
  {
    if i < count - 1 {
      ParametersMeaning(mem, ip, count - 1, modes, i);
    }
  }

  /** `getParameters`. */
  method GetParameters(program: array<int>, ip: int, count: nat, modes: seq<bool>) returns (params: Option<seq<int>>)
    requires count <= |modes|
    ensures params == Parameters(program[..], ip, count, modes)
  {
    var opcode := ArrayGet(program, ip);
    if opcode.None? {
      return None;
    }
    var ps: seq<int> := [];
    var address := ip + 1;
    for i := 0 to count
      invariant address == ip + 1 + i
      invariant Operands(program[..], ip, i, modes) == Some(ps)
    {
      var value := ArrayGet(program, address);
      if value.None? {
        OperandsFailurePersists(program[..], ip, i + 1, count, modes);
        return None;
      }
      var v := value.value;
      if !modes[i] {
        var pointed := ArrayGet(program, v);
        if pointed.None? {
          OperandsFailurePersists(program[..], ip, i + 1, count, modes);
          return None;
        }
        v := pointed.value;
      }
      ps := ps + [v];
      address := address + 1;
    }
    return Some(ps);
  }

  // ---------------------------------------------------------------------
  // One pass of the loop body and the whole loop.

  /** The value opcodes 1, 2, 7 and 8 store. */
  function Compute(opcode: int, a: int, b: int): int {
    if opcode == 1 then a + b
    else if opcode == 2 then a * b
    else if opcode == 7 then (if a < b then 1 else 0)
    else (if a == b then 1 else 0)
  }

  /** A pass either moves to a new state or raises IndexError; on a raise
      the state is what the caller can still observe (the program list and
      the input list are shared with it). */
  datatype StepResult = Next(next: Machine) | Fault(at: Machine)

  /** The word k places after the instruction pointer. */
  function Word(m: Machine, k: int): int
    requires InRange(m.mem, m.ip + k)
  {
    m.mem[Slot(m.mem, m.ip + k)]
  }

  /** The branch for opcodes 1, 2, 7 and 8. */
  function ComputeBranch(m: Machine, opcode: int, modes: seq<bool>): StepResult
    requires |modes| == 3
  {
    match Parameters(m.mem, m.ip, 2, modes)
    case None => Fault(m)
    case Some(ps) =>
      match Get(m.mem, m.ip + 3)
      case None => Fault(m)
      case Some(dest) =>
        match Set(m.mem, dest, Compute(opcode, ps[0], ps[1]))
        case None => Fault(m)
        case Some(mem) => Next(m.(mem := mem, ip := m.ip + 4))
  }

  /** The branch for opcode 3. The input is popped before the store, so a
      store that raises has still consumed it. */
  function InputBranch(m: Machine): StepResult {
    match Get(m.mem, m.ip + 1)
    case None => Fault(m)
    case Some(dest) =>
      if |m.inputs| == 0 then Fault(m)
      else
        var popped := m.(inputs := m.inputs[1..]);
        match Set(m.mem, dest, m.inputs[0])
        case None => Fault(popped)
        case Some(mem) => Next(popped.(mem := mem, ip := m.ip + 2))
  }

  /** The branch for opcode 4. */
  function OutputBranch(m: Machine, modes: seq<bool>): StepResult
    requires |modes| == 3
  {
    match Parameters(m.mem, m.ip, 1, modes)
    case None => Fault(m)
    case Some(ps) => Next(m.(output := m.output + [ps[0]], ip := m.ip + 2))
  }

  /** The branch for opcodes 5 and 6. */
  function JumpBranch(m: Machine, opcode: int, modes: seq<bool>): StepResult
    requires |modes| == 3
  {
    match Parameters(m.mem, m.ip, 2, modes)
    case None => Fault(m)
    case Some(ps) =>
      var jump := if opcode == 5 then ps[0] != 0 else ps[0] == 0;
      Next(m.(ip := if jump then ps[1] else m.ip + 3))
  }

  /** One pass of the loop body on a word other than 99: the opcode picks
      at most one branch; an opcode no branch tests for changes nothing. */
  function Step(d: Dialect, m: Machine): StepResult
    requires InRange(m.mem, m.ip)
  {
    var word := Word(m, 0);
    var opcode := word % 100;
    var modes := ParameterModes(word);
    if opcode == 1 || opcode == 2 || (d == EightOpcodes && (opcode == 7 || opcode == 8)) then
      ComputeBranch(m, opcode, modes)
    else if opcode == 3 then InputBranch(m)
    else if opcode == 4 then OutputBranch(m, modes)
    else if d == EightOpcodes && (opcode == 5 || opcode == 6) then JumpBranch(m, opcode, modes)
    else Next(m)
  }

  /** The `while program[ip] != 99` loop, for at most `fuel` passes. */
  function Exec(d: Dialect, m: Machine, fuel: nat): (Machine, Status)
    decreases fuel, 0
  {
    if !InRange(m.mem, m.ip) then (m, Crashed)
    else if Word(m, 0) == 99 then (m, Halted)
    else if fuel == 0 then (m, OutOfFuel)
    else Pass(d, m, fuel - 1)
  }

  /** One pass from a state the loop enters, then the rest of the run
      with `fuel` passes left. */
  function Pass(d: Dialect, m: Machine, fuel: nat): (Machine, Status)
    requires InRange(m.mem, m.ip)
    decreases fuel, 1
  {
    match Step(d, m)
    case Fault(at) => (at, Crashed)
    case Next(next) => Exec(d, next, fuel)
  }

  /** A completed pass hands the rest of the run to the next state. */
  lemma ExecNext(d: Dialect, m: Machine, n: Machine, fuel: nat)
    requires InRange(m.mem, m.ip) && Word(m, 0) != 99 && fuel > 0
    requires Step(d, m) == Next(n)
    ensures Exec(d, m, fuel) == Exec(d, n, fuel - 1)
  {
  }

  /** The run stops before a pass when the word at ip cannot be read, is
      99, or the budget is spent. */
  lemma ExecStopped(d: Dialect, m: Machine, word: Option<int>, fuel: nat)
    requires word == Get(m.mem, m.ip)
    requires word.None? || word.value == 99 || fuel == 0
    ensures Exec(d, m, fuel)
      == (m, if word.None? then Crashed else if word.value == 99 then Halted else OutOfFuel)
  {
  }

  /** A pass that raises ends the run where it raised. */
  lemma ExecFault(d: Dialect, m: Machine, n: Machine, fuel: nat)
    requires InRange(m.mem, m.ip) && Word(m, 0) != 99 && fuel > 0
    requires Step(d, m) == Fault(n)
    ensures Exec(d, m, fuel) == (n, Crashed)
  {
  }

  /** The branch for opcodes 1, 2, 7 and 8. */
  method ExecuteCompute(d: Dialect, program: array<int>, ip: int, modes: seq<bool>, opcode: int,
                        ghost pending: seq<int>, ghost output: seq<int>)
    returns (ok: bool)
    requires InRange(program[..], ip)
    requires opcode == program[Slot(program[..], ip)] % 100
    requires opcode == 1 || opcode == 2 || (d == EightOpcodes && (opcode == 7 || opcode == 8))
    requires modes == ParameterModes(program[Slot(program[..], ip)])
    modifies program
    ensures Step(d, Machine(old(program[..]), ip, pending, output))
      == if ok then Next(Machine(program[..], ip + 4, pending, output))
         else Fault(Machine(program[..], ip, pending, output))
  {
    var ps := GetParameters(program, ip, 2, modes);
    if ps.None? {
      return false;
    }
    var dest := ArrayGet(program, ip + 3);
    if dest.None? {
      return false;
    }
    ok := ArraySet(program, dest.value, Compute(opcode, ps.value[0], ps.value[1]));
  }

  /** The branch for opcode 3: pops the next input and stores it. */
  method ExecuteInput(d: Dialect, program: array<int>, ip: int, stack: seq<int>,
                      ghost pending: seq<int>, ghost output: seq<int>)
    returns (ok: bool, stack': seq<int>, ghost pending': seq<int>)
    requires InRange(program[..], ip) && program[Slot(program[..], ip)] % 100 == 3
    requires stack == Reverse(pending)
    modifies program
    ensures stack' == Reverse(pending')
    ensures Step(d, Machine(old(program[..]), ip, pending, output))
      == if ok then Next(Machine(program[..], ip + 2, pending', output))
         else Fault(Machine(program[..], ip, pending', output))
  {
    var dest := ArrayGet(program, ip + 1);
    if dest.None? || |stack| == 0 {
      return false, stack, pending;
    }
    ReversePop(pending);
    var value := stack[|stack| - 1];
    stack' := stack[..|stack| - 1];
    pending' := pending[1..];
    ok := ArraySet(program, dest.value, value);
  }

  /** The branch for opcode 4. */
  method ExecuteOutput(d: Dialect, program: array<int>, ip: int, modes: seq<bool>, output: seq<int>,
                       ghost pending: seq<int>)
    returns (ok: bool, output': seq<int>)
    requires InRange(program[..], ip) && program[Slot(program[..], ip)] % 100 == 4
    requires modes == ParameterModes(program[Slot(program[..], ip)])
    ensures Step(d, Machine(program[..], ip, pending, output))
      == if ok then Next(Machine(program[..], ip + 2, pending, output'))
         else Fault(Machine(program[..], ip, pending, output'))
  {
    var ps := GetParameters(program, ip, 1, modes);
    if ps.None? {
      return false, output;
    }
    return true, output + [ps.value[0]];
  }

  /** The branch for opcodes 5 and 6. */
  method ExecuteJump(d: Dialect, program: array<int>, ip: int, modes: seq<bool>, opcode: int,
                     ghost pending: seq<int>, ghost output: seq<int>)
    returns (ok: bool, ip': int)
    requires d == EightOpcodes && InRange(program[..], ip)
    requires opcode == program[Slot(program[..], ip)] % 100 && (opcode == 5 || opcode == 6)
    requires modes == ParameterModes(program[Slot(program[..], ip)])
    ensures Step(d, Machine(program[..], ip, pending, output))
      == if ok then Next(Machine(program[..], ip', pending, output))
         else Fault(Machine(program[..], ip', pending, output))
  {
    var ps := GetParameters(program, ip, 2, modes);
    if ps.None? {
      return false, ip;
    }
    if (opcode == 5 && ps.value[0] != 0) || (opcode == 6 && ps.value[0] == 0) {
      ip' := ps.value[1];
    } else {
      ip' := ip + 3;
    }
    ok := true;
  }

  /** One pass of the loop body, dispatching on the opcode as the chain of
      `if opcode == ...` tests does; an opcode with no branch changes nothing. */
  method ExecuteInstruction(d: Dialect, program: array<int>, ip: int, stack: seq<int>, output: seq<int>,
                            ghost pending: seq<int>)
    returns (ok: bool, ip': int, stack': seq<int>, output': seq<int>, ghost pending': seq<int>)
    requires InRange(program[..], ip)
    requires stack == Reverse(pending)
    modifies program
    ensures stack' == Reverse(pending')
    ensures Step(d, Machine(old(program[..]), ip, pending, output))
      == if ok then Next(Machine(program[..], ip', pending', output'))
         else Fault(Machine(program[..], ip', pending', output'))
  {
    var word := program[Slot(program[..], ip)];
    var modes := GetParameterModes(word);
    var opcode := word % 100;
    ok, ip', stack', output', pending' := true, ip, stack, output, pending;
    if opcode == 1 || opcode == 2 || (d == EightOpcodes && (opcode == 7 || opcode == 8)) {
      ok := ExecuteCompute(d, program, ip, modes, opcode, pending, output);
      if ok {
        ip' := ip + 4;
      }
    } else if opcode == 3 {
      ok, stack', pending' := ExecuteInput(d, program, ip, stack, pending, output);
      if ok {
        ip' := ip + 2;
      }
    } else if opcode == 4 {
      ok, output' := ExecuteOutput(d, program, ip, modes, output, pending);
      if ok {
        ip' := ip + 2;
      }
    } else if d == EightOpcodes && (opcode == 5 || opcode == 6) {
      ok, ip' := ExecuteJump(d, program, ip, modes, opcode, pending, output);
    }
  }

  /** `runIntcode(program, inputs)`: runs the program in place and returns
      the outputs. The caller's input list is left reversed, with the
      consumed inputs popped off its end. */
  method RunIntcode(d: Dialect, program: array<int>, inputs: seq<int>, fuel: nat)
    returns (output: seq<int>, status: Status, inputsAfter: seq<int>)
    modifies program
    ensures var (m, s) := Exec(d, Boot(old(program[..]), inputs), fuel);
      program[..] == m.mem && output == m.output && status == s && inputsAfter == Reverse(m.inputs)
  {
    var ip := 0;
    output := [];
    var stack := Reverse(inputs);
    ghost var pending := inputs;
    var left := fuel;
    var word := ArrayGet(program, ip);
    while word.Some? && word.value != 99 && left > 0
      invariant word == Get(program[..], ip)
      invariant stack == Reverse(pending)
      invariant Exec(d, Machine(program[..], ip, pending, output), left)
        == Exec(d, Boot(old(program[..]), inputs), fuel)
      decreases left
    {
      ghost var m := Machine(program[..], ip, pending, output);
      var ok;
      ok, ip, stack, output, pending := ExecuteInstruction(d, program, ip, stack, output, pending);
      ghost var n := Machine(program[..], ip, pending, output);
      if !ok {
        ExecFault(d, m, n, left);
        return output, Crashed, stack;
      }
      ExecNext(d, m, n, left);
      left := left - 1;
      word := ArrayGet(program, ip);
    }
    ExecStopped(d, Machine(program[..], ip, pending, output), word, left);
    status := if word.None? then Crashed else if word.value == 99 then Halted else OutOfFuel;
    inputsAfter := stack;
  }

  // ---------------------------------------------------------------------
  // What one pass does, opcode by opcode.

  /** Opcodes 1, 2, 7 and 8 store the sum, product, less-than flag or
      equality flag of their two parameters at the cell named by the raw
      word ip+3 (its mode is ignored), and advance by 4. */
  lemma ComputeStep(d: Dialect, m: Machine, a: int, b: int)
    requires InRange(m.mem, m.ip)
    requires var opcode := Word(m, 0) % 100;
      opcode == 1 || opcode == 2 || (d == EightOpcodes && (opcode == 7 || opcode == 8))
    requires Operand(m.mem, m.ip, 0, ParameterModes(Word(m, 0))) == Some(a)
    requires Operand(m.mem, m.ip, 1, ParameterModes(Word(m, 0))) == Some(b)
    requires InRange(m.mem, m.ip + 3) && InRange(m.mem, Word(m, 3))
    ensures Step(d, m)
      == Next(m.(mem := m.mem[Slot(m.mem, Word(m, 3)) := Compute(Word(m, 0) % 100, a, b)], ip := m.ip + 4))
  {
  }

  /** Opcode 3 takes the oldest input, stores it at the cell named by the
      raw word ip+1 whatever the mode digits say, and advances by 2. */
  lemma InputStep(d: Dialect, m: Machine)
    requires InRange(m.mem, m.ip) && Word(m, 0) % 100 == 3
    requires InRange(m.mem, m.ip + 1) && InRange(m.mem, Word(m, 1)) && |m.inputs| > 0
    ensures Step(d, m)
      == Next(m.(mem := m.mem[Slot(m.mem, Word(m, 1)) := m.inputs[0]], inputs := m.inputs[1..], ip := m.ip + 2))
  {
  }

  /** Opcode 3 with no input left raises, and nothing has changed. */
  lemma StarvedInputFaults(d: Dialect, m: Machine)
    requires InRange(m.mem, m.ip) && Word(m, 0) % 100 == 3 && |m.inputs| == 0
    ensures Step(d, m) == Fault(m)
  {
  }

  /** Opcode 4 appends its parameter to the outputs and advances by 2. */
  lemma OutputStep(d: Dialect, m: Machine, a: int)
    requires InRange(m.mem, m.ip) && Word(m, 0) % 100 == 4
    requires Operand(m.mem, m.ip, 0, ParameterModes(Word(m, 0))) == Some(a)
    ensures Step(d, m) == Next(m.(output := m.output + [a], ip := m.ip + 2))
  {
  }

  /** Opcodes 5 and 6 jump to the second parameter when the first is
      nonzero (5) or zero (6), and otherwise advance by 3. */
  lemma JumpStep(m: Machine, a: int, b: int)
    requires InRange(m.mem, m.ip)
    requires Word(m, 0) % 100 == 5 || Word(m, 0) % 100 == 6
    requires Operand(m.mem, m.ip, 0, ParameterModes(Word(m, 0))) == Some(a)
    requires Operand(m.mem, m.ip, 1, ParameterModes(Word(m, 0))) == Some(b)
    ensures var jump := if Word(m, 0) % 100 == 5 then a != 0 else a == 0;
      Step(EightOpcodes, m) == Next(m.(ip := if jump then b else m.ip + 3))
  {
  }

  /** An opcode with no branch changes nothing at all. */
  lemma UnknownOpcodeStep(d: Dialect, m: Machine)
    requires InRange(m.mem, m.ip) && !Knows(d, Word(m, 0) % 100)
    ensures Step(d, m) == Next(m)
  {
  }

  /** The part 2 interpreter treats opcodes 1-4 exactly as part 1 does. */
  lemma DialectsAgree(m: Machine)
    requires InRange(m.mem, m.ip) && Knows(FourOpcodes, Word(m, 0) % 100)
    ensures Step(FourOpcodes, m) == Step(EightOpcodes, m)
  {
  }

  // ---------------------------------------------------------------------
  // What a whole run does.

  /** So an unknown opcode, not the exact word 99, makes the loop spin
      without progress for as long as it is allowed to run. */
  lemma {:induction false} UnknownOpcodeSpins(d: Dialect, m: Machine, fuel: nat)
    requires InRange(m.mem, m.ip) && Word(m, 0) != 99 && !Knows(d, Word(m, 0) % 100)
    ensures Exec(d, m, fuel) == (m, OutOfFuel)
    decreases fuel
  {
    UnknownOpcodeStep(d, m);
    if fuel > 0 {
      UnknownOpcodeSpins(d, m, fuel - 1);
    }
  }

  /** The state a pass leaves, whether it completed or raised. */
  function After(r: StepResult): Machine {
    match r
    case Next(n) => n
    case Fault(n) => n
  }

  /** A pass keeps the memory's length, consumes at most the oldest input
      and only appends to the outputs. */
  lemma StepExtends(d: Dialect, m: Machine)
    requires InRange(m.mem, m.ip)
    ensures var n := After(Step(d, m));
      |n.mem| == |m.mem| && m.output <= n.output
      && (n.inputs == m.inputs || (|m.inputs| > 0 && n.inputs == m.inputs[1..]))
  {
  }

  /** A whole run keeps the memory's length. */
  lemma {:induction false} ExecKeepsLength(d: Dialect, m: Machine, fuel: nat)
    ensures |Exec(d, m, fuel).0.mem| == |m.mem|
    decreases fuel
  {
    if InRange(m.mem, m.ip) && Word(m, 0) != 99 && fuel > 0 {
      StepExtends(d, m);
      var r := Step(d, m);
      if r.Next? {
        ExecKeepsLength(d, r.next, fuel - 1);
      }
    }
  }

  /** A whole run emits its outputs in order: the outputs it started with
      are a prefix of those it ends with. */
  lemma {:induction false} ExecAppendsOutputs(d: Dialect, m: Machine, fuel: nat)
    ensures m.output <= Exec(d, m, fuel).0.output
    decreases fuel
  {
    if InRange(m.mem, m.ip) && Word(m, 0) != 99 && fuel > 0 {
      StepExtends(d, m);
      var r := Step(d, m);
      if r.Next? {
        ExecAppendsOutputs(d, r.next, fuel - 1);
      }
    }
  }

  /** The inputs `rest` still pending are what is left of `inputs` after
      consuming some from the front. */
  predicate SuffixOf(rest: seq<int>, inputs: seq<int>) {
    |rest| <= |inputs| && rest == inputs[|inputs| - |rest|..]
  }

  lemma SuffixOfTransitive(a: seq<int>, b: seq<int>, c: seq<int>)
    requires SuffixOf(a, b) && SuffixOf(b, c)
    ensures SuffixOf(a, c)
  {
    assert c[|c| - |b|..][|b| - |a|..] == c[|c| - |a|..];
  }

  /** A whole run consumes inputs in their original order: what is left
      is a suffix of what it started with. */
  lemma {:induction false} ExecConsumesInOrder(d: Dialect, m: Machine, fuel: nat)
    ensures SuffixOf(Exec(d, m, fuel).0.inputs, m.inputs)
    decreases fuel
  {
    assert m.inputs[|m.inputs| - |m.inputs|..] == m.inputs;
    if InRange(m.mem, m.ip) && Word(m, 0) != 99 && fuel > 0 {
      StepExtends(d, m);
      var r := Step(d, m);
      var n := After(r);
      assert SuffixOf(n.inputs, m.inputs);
      if r.Next? {
        var final := Exec(d, n, fuel - 1).0;
        assert Exec(d, m, fuel).0 == final;
        ExecConsumesInOrder(d, n, fuel - 1);
        SuffixOfTransitive(final.inputs, n.inputs, m.inputs);
      }
    }
  }

  /** A run reports Halted only on a state whose word at ip is exactly 99. */
  lemma {:induction false} HaltsOnNinetyNine(d: Dialect, m: Machine, fuel: nat)
    requires Exec(d, m, fuel).1 == Halted
    ensures InRange(Exec(d, m, fuel).0.mem, Exec(d, m, fuel).0.ip)
    ensures Word(Exec(d, m, fuel).0, 0) == 99
    decreases fuel
  {
    if InRange(m.mem, m.ip) && Word(m, 0) != 99 && fuel > 0 {
      var r := Step(d, m);
      if r.Next? {
        var final := Exec(d, r.next, fuel - 1);
        assert Exec(d, m, fuel) == final;
        HaltsOnNinetyNine(d, r.next, fuel - 1);
      }
    }
  }

  /** The budget only bounds a run: a run that stops within its budget
      does the same with any larger one. */
  lemma {:induction false} ExecMoreFuel(d: Dialect, m: Machine, fuel: nat, more: nat)
    requires fuel <= more && Exec(d, m, fuel).1 != OutOfFuel
    ensures Exec(d, m, more) == Exec(d, m, fuel)
    decreases fuel
  {
    if InRange(m.mem, m.ip) && Word(m, 0) != 99 {
      var r := Step(d, m);
      if r.Next? {
        var final := Exec(d, r.next, fuel - 1);
        assert Exec(d, m, fuel) == final;
        ExecMoreFuel(d, r.next, fuel - 1, more - 1);
      }
    }
  }
}
