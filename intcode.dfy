/** Days 7 (part 2) and 9 (part 2): the class-based Intcode machine. Its
    fields are updated by one method per opcode; input and output are FIFO
    queues; a machine that runs out of input raises and can be resumed
    after more input arrives. Day 7's machine has boolean modes and
    opcodes 1-8 and 99; day 9's adds the relative mode, opcode 9 (adjust
    the relative base) and 100000 zero cells after the program. */
module IntcodeMachines {
  import opened Common
  import DiagnosticIntcode

  /** Which of the two machines: day 7 part 2 or day 9 part 2. */
  datatype Variant = BooleanModes | RelativeModes

  /** A parameter mode. Day 7's machine only produces the first two. */
  datatype Mode = Positional | Immediate | Relative

  /** What the machine raises: `IntcodeError` (halted, already running,
      unknown opcode, no output, an amplifier left hanging),
      `IntcodeInputError` (no input) or Python's IndexError. */
  datatype Fault = NotRunning | AlreadyRunning | UnknownOpcode(opcode: int) | NoInput | NoOutput
                 | Hanging | IndexError

  /** The faults that are `IntcodeError`s; `IntcodeInputError` is a class of
      its own, not a subclass. */
  predicate IsIntcodeError(f: Fault) {
    f != NoInput && f != IndexError
  }

  /** The machine's fields (the cosmetic name and flags left out). Day 7's
      machine has no relative base; here it stays 0 for it. */
  datatype State = State(mem: seq<int>, ip: int, base: int, inputs: seq<int>, outputs: seq<int>,
                         running: bool, waiting: bool, steps: nat)

  /** A step either completes or raises; either way, the fields as the
      method leaves them. */
  datatype Outcome = Done(state: State) | Raised(fault: Fault, state: State)

  /** The method results `fault` and the fields `s` as one outcome. */
  function Result(s: State, fault: Option<Fault>): Outcome {
    if fault.None? then Done(s) else Raised(fault.value, s)
  }

  // ---------------------------------------------------------------------
  // Lifecycle.

  /** `__init__`: freshly reset, with no program yet. */
  function Fresh(): State {
    State([], 0, 0, [], [], false, false, 0)
  }

  /** `reset`: everything but the program goes back to the start. */
  function Cleared(s: State): (r: State)
    ensures r.mem == s.mem && r.ip == 0 && r.base == 0 && r.inputs == [] && r.outputs == []
    ensures !r.running && !r.waiting && r.steps == 0
  {
    State(s.mem, 0, 0, [], [], false, false, 0)
  }

  /** The buffer `set_program` appends: 100000 zeros for day 9, nothing for day 7. */
  function Padding(v: Variant): (pad: seq<int>)
    ensures |pad| == if v == RelativeModes then 100000 else 0
    ensures forall i :: 0 <= i < |pad| ==> pad[i] == 0
  {
    if v == RelativeModes then seq(100000, _ => 0) else []
  }

  /** `set_program`: a copy of the program, padded, and a reset. */
  function Load(v: Variant, s: State, program: seq<int>): (r: State)
    ensures |r.mem| == |program| + |Padding(v)| && r.mem[..|program|] == program
    ensures forall i :: |program| <= i < |r.mem| ==> r.mem[i] == 0
    ensures r == Cleared(r)
  {
    Cleared(s.(mem := program + Padding(v)))
  }

  // ---------------------------------------------------------------------
  // Queues.

  /** Taking the head of a queue: the value and what is left, or None when
      it is empty (`get_input` raising `IntcodeInputError`, `get_output`
      raising `IntcodeError`). */
  function Dequeue(q: seq<int>): (r: (Option<int>, seq<int>))
    ensures |q| == 0 <==> r.0.None?
    ensures |q| > 0 ==> r.0 == Some(q[0]) && q == [q[0]] + r.1
    ensures |q| == 0 ==> r.1 == q
  {
    if |q| == 0 then (None, q) else (Some(q[0]), q[1..])
  }

  /** First in, first out: a value appended behind others comes out after
      them, and into an empty queue it comes straight out. */
  lemma QueueFifo(q: seq<int>, x: int)
    ensures |q| > 0 ==> Dequeue(q + [x]) == (Some(q[0]), Dequeue(q).1 + [x])
    ensures |q| == 0 ==> Dequeue(q + [x]) == (Some(x), [])
  {
    if |q| > 0 {
      assert (q + [x])[1..] == q[1..] + [x];
    }
  }

  /** Dequeuing as many times as there are values gives them back in order. */
  function Drain(q: seq<int>, k: nat): (r: seq<int>)
    requires k <= |q|
    decreases k
  {
    if k == 0 then [] else
      var (head, rest) := Dequeue(q);
      [head.value] + Drain(rest, k - 1)
  }

  lemma {:induction false} DrainInOrder(q: seq<int>, k: nat)
    requires k <= |q|
    ensures Drain(q, k) == q[..k]
    decreases k
  {
    if k > 0 {
      DrainInOrder(q[1..], k - 1);
      assert q[..k] == [q[0]] + q[1..][..k - 1];
    }
  }

  // ---------------------------------------------------------------------
  // Decoding.

  /** `get_opcode`: the instruction word modulo 100 (both Python's `%` and
      Dafny's are never negative for a positive divisor). */
  function Opcode(s: State): (r: Option<int>)
    ensures r.Some? <==> InRange(s.mem, s.ip)
    ensures r.Some? ==> 0 <= r.value < 100 && r.value == s.mem[Slot(s.mem, s.ip)] % 100
  {
    var word :- Get(s.mem, s.ip);
    Some(word % 100)
  }

  /** The mode list entries one digit contributes. Day 7 turns any digit
      into a boolean; day 9 maps 0, 1 and 2 and drops every other digit. */
  function ModeOf(v: Variant, digit: int): (r: seq<Mode>)
    ensures v == BooleanModes ==> r == [if digit != 0 then Immediate else Positional]
    ensures v == RelativeModes ==> (|r| == 1 <==> 0 <= digit <= 2) && |r| <= 1
  {
    if v == BooleanModes then [if digit != 0 then Immediate else Positional]
    else if digit == 0 then [Positional]
    else if digit == 1 then [Immediate]
    else if digit == 2 then [Relative]
    else []
  }

  /** The modes from k digits of q, lowest digit first, dropping a digit by
      truncating division each time. */
  function ModeDigits(v: Variant, q: int, k: nat): (r: seq<Mode>)
    ensures |r| <= k && (v == BooleanModes ==> |r| == k)
    decreases k
  {
    if k == 0 then [] else ModeOf(v, q % 10) + ModeDigits(v, TruncDiv(q, 10), k - 1)
  }

  /** The modes of an instruction word, from its hundreds digit up: the
      loop of `get_parameter_modes` written out. */
  function ParameterModes(v: Variant, word: int): seq<Mode> {
    var q := TruncDiv(word, 100);
    ModeOf(v, q % 10) + ModeOf(v, TruncDiv(q, 10) % 10) + ModeOf(v, TruncDiv(TruncDiv(q, 10), 10) % 10)
  }

  /** Reading the digits one at a time gives the same list. */
  lemma ModeDigitsThree(v: Variant, word: int)
    ensures ModeDigits(v, TruncDiv(word, 100), 3) == ParameterModes(v, word)
  {
    var q := TruncDiv(word, 100);
    var q1 := TruncDiv(q, 10);
    var q2 := TruncDiv(q1, 10);
    assert ModeDigits(v, q2, 1) == ModeOf(v, q2 % 10);
    assert ModeDigits(v, q1, 2) == ModeOf(v, q1 % 10) + ModeDigits(v, q2, 1);
    AppendAssociates(ModeOf(v, q % 10), ModeOf(v, q1 % 10), ModeOf(v, q2 % 10));
  }

  /** `get_parameter_modes`, which reads the word at ip. */
  function Modes(v: Variant, s: State): Option<seq<Mode>> {
    var word :- Get(s.mem, s.ip);
    Some(ParameterModes(v, word))
  }

  /** For a non-negative word, the modes are built from its hundreds,
      thousands and ten-thousands digits in that order. */
  lemma ModesFromDigits(v: Variant, word: nat)
    ensures ParameterModes(v, word)
      == ModeOf(v, (word / 100) % 10) + ModeOf(v, (word / 1000) % 10) + ModeOf(v, (word / 10000) % 10)
  {
    DropDigits(word);
  }

  /** Day 9's list holds all three modes exactly when no digit is above 2;
      a larger digit is dropped and the modes after it move down a place. */
  lemma ModesComplete(word: nat)
    ensures |ParameterModes(RelativeModes, word)| == 3
      <==> (word / 100) % 10 <= 2 && (word / 1000) % 10 <= 2 && (word / 10000) % 10 <= 2
    ensures (word / 100) % 10 > 2 && (word / 1000) % 10 <= 2 ==>
      ParameterModes(RelativeModes, word)[0] == ModeOf(RelativeModes, (word / 1000) % 10)[0]
  {
    ModesFromDigits(RelativeModes, word);
  }

  /** Day 7's modes are day 5's booleans: immediate exactly where the
      flag is set. */
  lemma BooleanModesAgree(word: int)
    ensures |ParameterModes(BooleanModes, word)| == 3
    ensures forall i :: 0 <= i < 3 ==>
      (ParameterModes(BooleanModes, word)[i] == Immediate) == DiagnosticIntcode.ParameterModes(word)[i]
  {
  }

  /** Where the digits are all 0 or 1, both machines decode the same modes. */
  lemma ModesAgree(word: nat)
    requires (word / 100) % 10 <= 1 && (word / 1000) % 10 <= 1 && (word / 10000) % 10 <= 1
    ensures ParameterModes(BooleanModes, word) == ParameterModes(RelativeModes, word)
  {
    ModesFromDigits(BooleanModes, word);
    ModesFromDigits(RelativeModes, word);
  }

  // ---------------------------------------------------------------------
  // Parameters.

  /** Parameter i: the word after the opcode, the cell it points at, or the
      cell it points at from the relative base. A missing mode raises
      IndexError like a missing cell. */
  function Operand(mem: seq<int>, ip: int, base: int, i: nat, modes: seq<Mode>): Option<int> {
    var raw :- Get(mem, ip + 1 + i);
    if i >= |modes| then None
    else match modes[i]
      case Positional => Get(mem, raw)
      case Immediate => Some(raw)
      case Relative => Get(mem, base + raw)
  }

  /** The first `count` parameters in order; None if any read raises. */
  function Operands(mem: seq<int>, ip: int, base: int, count: nat, modes: seq<Mode>): (r: Option<seq<int>>)
    ensures r.Some? ==> |r.value| == count
    decreases count
  {
    if count == 0 then Some([])
    else
      var init :- Operands(mem, ip, base, count - 1, modes);
      var last :- Operand(mem, ip, base, count - 1, modes);
      Some(init + [last])
  }

  /** `get_parameters`: the modes of the word at ip, then the operands. */
  function Parameters(v: Variant, s: State, count: nat): (r: Option<seq<int>>)
    ensures r.Some? ==> |r.value| == count
  {
    var modes :- Modes(v, s);
    Operands(s.mem, s.ip, s.base, count, modes)
  }

  /** Reading one more parameter extends the list or raises. */
  lemma OperandsNext(mem: seq<int>, ip: int, base: int, i: nat, modes: seq<Mode>, ps: seq<int>)
    requires Operands(mem, ip, base, i, modes) == Some(ps)
    ensures Operands(mem, ip, base, i + 1, modes)
      == if Operand(mem, ip, base, i, modes).None? then None
         else Some(ps + [Operand(mem, ip, base, i, modes).value])
  {
  }

  lemma {:induction false} OperandsFailurePersists(mem: seq<int>, ip: int, base: int, i: nat, j: nat, modes: seq<Mode>)
    requires i <= j
    requires Operands(mem, ip, base, i, modes).None?
    ensures Operands(mem, ip, base, j, modes).None?
    decreases j
  {
    if i < j {
      OperandsFailurePersists(mem, ip, base, i, j - 1, modes);
    }
  }

  /** Each parameter read reads the cell its mode selects: `mem[mem[a]]`,
      `mem[a]` or `mem[base + mem[a]]` for a = ip + 1 + i. */
  lemma {:induction false} OperandsMeaning(mem: seq<int>, ip: int, base: int, count: nat, modes: seq<Mode>, i: nat)
    requires i < count
    requires Operands(mem, ip, base, count, modes).Some?
    ensures InRange(mem, ip + 1 + i) && i < |modes|
    ensures var raw := mem[Slot(mem, ip + 1 + i)];
      var r := Operands(mem, ip, base, count, modes).value[i];
      match modes[i]
      case Positional => InRange(mem, raw) && r == mem[Slot(mem, raw)]
      case Immediate => r == raw
      case Relative => InRange(mem, base + raw) && r == mem[Slot(mem, base + raw)]
    decreases count
  {
    if i < count - 1 {
      OperandsMeaning(mem, ip, base, count - 1, modes, i);
    }
  }

  /** The address an instruction writes to, from its parameter k (1 for
      opcode 3, 3 for opcodes 1, 2, 7, 8): the raw word, plus the relative
      base when that parameter's mode is relative on day 9. */
  function Destination(v: Variant, s: State, k: nat): Option<int>
    requires k >= 1
  {
    var raw :- Get(s.mem, s.ip + k);
    if v == BooleanModes then Some(raw)
    else
      var modes :- Modes(v, s);
      if |modes| < k then None
      else Some(if modes[k - 1] == Relative then raw + s.base else raw)
  }

  /** The write address is never dereferenced: day 7 takes the raw word;
      day 9 adds the relative base in relative mode and otherwise, even in
      immediate mode, takes the raw word. */
  lemma DestinationMeaning(v: Variant, s: State, k: nat)
    requires k >= 1 && InRange(s.mem, s.ip + k) && InRange(s.mem, s.ip)
    ensures var raw := s.mem[Slot(s.mem, s.ip + k)];
      var modes := ParameterModes(v, s.mem[Slot(s.mem, s.ip)]);
      if v == BooleanModes then Destination(v, s, k) == Some(raw)
      else if |modes| < k then Destination(v, s, k).None?
      else Destination(v, s, k) == Some(if modes[k - 1] == Relative then raw + s.base else raw)
  {
  }

  // ---------------------------------------------------------------------
  // The opcode handlers.

  function Fail(s: State): Outcome {
    Raised(IndexError, s)
  }

  /** `add`, `multiply`, `set_if_less_than`, `set_if_equal`: two parameters,
      a store at the destination, ip + 4. The stored value is the one day 5
      computes. */
  function ComputeBranch(v: Variant, s: State, opcode: int): Outcome {
    match Parameters(v, s, 2)
    case None => Fail(s)
    case Some(ps) =>
      match Destination(v, s, 3)
      case None => Fail(s)
      case Some(dest) =>
        match Set(s.mem, dest, DiagnosticIntcode.Compute(opcode, ps[0], ps[1]))
        case None => Fail(s)
        case Some(mem) => Done(s.(mem := mem, ip := s.ip + 4))
  }

  /** `input`: with no input the machine flags itself waiting and raises;
      otherwise the head of the queue, popped before the store, goes to the
      destination, and ip + 2. */
  function InputBranch(v: Variant, s: State): Outcome {
    if |s.inputs| == 0 then Raised(NoInput, s.(waiting := true))
    else
      match Destination(v, s, 1)
      case None => Fail(s)
      case Some(dest) =>
        var popped := s.(inputs := s.inputs[1..]);
        match Set(s.mem, dest, s.inputs[0])
        case None => Fail(popped)
        case Some(mem) => Done(popped.(mem := mem, ip := s.ip + 2))
  }

  /** `output`: one parameter appended to the output queue, ip + 2. */
  function OutputBranch(v: Variant, s: State): Outcome {
    match Parameters(v, s, 1)
    case None => Fail(s)
    case Some(ps) => Done(s.(outputs := s.outputs + [ps[0]], ip := s.ip + 2))
  }

  /** `jump_if_true` (5) and `jump_if_false` (6): to the second parameter
      when the condition on the first holds, else ip + 3. */
  function JumpBranch(v: Variant, s: State, opcode: int): Outcome {
    match Parameters(v, s, 2)
    case None => Fail(s)
    case Some(ps) =>
      var jump := if opcode == 5 then ps[0] != 0 else ps[0] == 0;
      Done(s.(ip := if jump then ps[1] else s.ip + 3))
  }

  /** `relative_base_offset`: the parameter is added to the base, ip + 2. */
  function BaseBranch(v: Variant, s: State): Outcome {
    match Parameters(v, s, 1)
    case None => Fail(s)
    case Some(ps) => Done(s.(base := s.base + ps[0], ip := s.ip + 2))
  }

  /** The opcodes in the `instruction_set` dictionary (the later `halt`
      definition replaces the earlier one, so opcode 99 only clears the
      running flag). */
  predicate Known(v: Variant, opcode: int) {
    1 <= opcode <= 8 || opcode == 99 || (v == RelativeModes && opcode == 9)
  }

  /** The handler the dictionary picks. */
  function Execute(v: Variant, s: State, opcode: int): Outcome
    requires Known(v, opcode)
  {
    if opcode == 1 || opcode == 2 || opcode == 7 || opcode == 8 then ComputeBranch(v, s, opcode)
    else if opcode == 3 then InputBranch(v, s)
    else if opcode == 4 then OutputBranch(v, s)
    else if opcode == 5 || opcode == 6 then JumpBranch(v, s, opcode)
    else if opcode == 9 then BaseBranch(v, s)
    else Done(s.(running := false))
  }

  /** `step`: a halted machine raises; so do an unreadable word and an
      unknown opcode, before anything changes. Otherwise the waiting flag
      is cleared, the handler runs, and the counter goes up if it returns. */
  function Transition(v: Variant, s: State): Outcome {
    if !s.running then Raised(NotRunning, s)
    else
      match Opcode(s)
      case None => Fail(s)
      case Some(opcode) =>
        if !Known(v, opcode) then Raised(UnknownOpcode(opcode), s)
        else Counted(Execute(v, s.(waiting := false), opcode))
  }

  /** The counter goes up when the handler returns, not when it raises. */
  function Counted(o: Outcome): Outcome {
    match o
    case Done(t) => Done(t.(steps := t.steps + 1))
    case Raised(f, t) => Raised(f, t)
  }

  /** A step on a running machine with a known opcode runs its handler. */
  lemma StepRunsHandler(v: Variant, s: State, opcode: int)
    requires s.running && Opcode(s) == Some(opcode) && Known(v, opcode)
    ensures Transition(v, s) == Counted(Execute(v, s.(waiting := false), opcode))
  {
  }

  /** How `run` ends: it returns once the program halts, it raises, or
      (only in this model) the step budget is spent. */
  datatype Ending = Halted | Stopped(fault: Fault) | OutOfFuel

  /** `while self.is_running: self.step()`, for at most `fuel` steps. */
  function Loop(v: Variant, s: State, fuel: nat): (State, Ending)
    decreases fuel
  {
    if !s.running then (s, Halted)
    else if fuel == 0 then (s, OutOfFuel)
    else
      match Transition(v, s)
      case Done(t) => Loop(v, t, fuel - 1)
      case Raised(f, t) => (t, Stopped(f))
  }

  /** `run`: raises if the machine is already running, else sets the flag
      and loops. */
  function Execution(v: Variant, s: State, fuel: nat): (State, Ending) {
    if s.running then (s, Stopped(AlreadyRunning)) else Loop(v, s.(running := true), fuel)
  }

  // ---------------------------------------------------------------------
  // What one step does.

  /** A step raises without changing anything on a halted machine, on an
      unreadable word and on an unknown opcode. */
  lemma StepRejects(v: Variant, s: State)
    ensures !s.running ==> Transition(v, s) == Raised(NotRunning, s)
    ensures s.running && !InRange(s.mem, s.ip) ==> Transition(v, s) == Raised(IndexError, s)
    ensures s.running && InRange(s.mem, s.ip) && !Known(v, s.mem[Slot(s.mem, s.ip)] % 100)
      ==> Transition(v, s) == Raised(UnknownOpcode(s.mem[Slot(s.mem, s.ip)] % 100), s)
  {
  }

  /** The counter counts completed steps only, and no step changes the
      size of memory. */
  lemma StepCounts(v: Variant, s: State)
    ensures Transition(v, s).Done? ==> Transition(v, s).state.steps == s.steps + 1
    ensures Transition(v, s).Raised? ==> Transition(v, s).state.steps == s.steps
    ensures |Transition(v, s).state.mem| == |s.mem|
  {
    if s.running && Opcode(s).Some? && Known(v, Opcode(s).value) {
      var opcode := Opcode(s).value;
      StepRunsHandler(v, s, opcode);
      HandlerKeepsSize(v, s.(waiting := false), opcode);
    }
  }

  /** No handler touches the counter or the size of memory. */
  lemma HandlerKeepsSize(v: Variant, s: State, opcode: int)
    requires Known(v, opcode)
    ensures Execute(v, s, opcode).state.steps == s.steps
    ensures |Execute(v, s, opcode).state.mem| == |s.mem|
  {
    if opcode in {1, 2, 7, 8} {
      assert Execute(v, s, opcode) == ComputeBranch(v, s, opcode);
    } else if opcode == 3 {
      assert Execute(v, s, opcode) == InputBranch(v, s);
    }
  }

  /** Opcodes 1, 2, 7, 8: the stored value is the sum, product or
      comparison of the two parameters, and ip moves on by 4. */
  lemma ComputeStep(v: Variant, s: State, opcode: int, ps: seq<int>, dest: int)
    requires s.running && Opcode(s) == Some(opcode) && opcode in {1, 2, 7, 8}
    requires Parameters(v, s, 2) == Some(ps) && Destination(v, s, 3) == Some(dest) && InRange(s.mem, dest)
    ensures var value := if opcode == 1 then ps[0] + ps[1] else if opcode == 2 then ps[0] * ps[1]
                         else if opcode == 7 then (if ps[0] < ps[1] then 1 else 0)
                         else (if ps[0] == ps[1] then 1 else 0);
      Transition(v, s) == Done(s.(mem := s.mem[Slot(s.mem, dest) := value], ip := s.ip + 4,
                            waiting := false, steps := s.steps + 1))
  {
    var t := s.(waiting := false);
    StepRunsHandler(v, s, opcode);
    assert Execute(v, t, opcode) == ComputeBranch(v, t, opcode);
    assert Parameters(v, t, 2) == Some(ps);
    assert Destination(v, t, 3) == Some(dest);
  }

  /** Opcode 3 with an empty queue: only the waiting flag changes; ip, the
      base, memory, both queues and the counter are as before. */
  lemma StarvedStep(v: Variant, s: State)
    requires s.running && Opcode(s) == Some(3) && |s.inputs| == 0
    ensures Transition(v, s) == Raised(NoInput, s.(waiting := true))
  {
    StepRunsHandler(v, s, 3);
  }

  /** Opcode 3 with input: the oldest input is stored and removed, and ip
      moves on by 2. */
  lemma InputStep(v: Variant, s: State, dest: int)
    requires s.running && Opcode(s) == Some(3) && |s.inputs| > 0
    requires Destination(v, s, 1) == Some(dest) && InRange(s.mem, dest)
    ensures Transition(v, s) == Done(s.(mem := s.mem[Slot(s.mem, dest) := s.inputs[0]], ip := s.ip + 2,
                                  inputs := s.inputs[1..], waiting := false, steps := s.steps + 1))
  {
    var t := s.(waiting := false);
    StepRunsHandler(v, s, 3);
    assert Execute(v, t, 3) == InputBranch(v, t);
    assert Destination(v, t, 1) == Some(dest);
  }

  /** A machine that starved resumes once input is added: the next step
      consumes exactly the value added. */
  lemma ResumeAfterInput(v: Variant, s: State, x: int, dest: int)
    requires Transition(v, s) == Raised(NoInput, s.(waiting := true))
    requires Destination(v, s, 1) == Some(dest) && InRange(s.mem, dest)
    ensures var t := s.(waiting := true, inputs := s.inputs + [x]);
      Transition(v, t) == Done(s.(mem := s.mem[Slot(s.mem, dest) := x], ip := s.ip + 2,
                            waiting := false, steps := s.steps + 1))
  {
    var t := s.(waiting := true, inputs := s.inputs + [x]);
    assert s.running && Opcode(s).Some?;
    var opcode := Opcode(s).value;
    assert Known(v, opcode);
    StepRunsHandler(v, s, opcode);
    assert opcode == 3;
    assert |s.inputs| == 0;
    assert Destination(v, t, 1) == Destination(v, s, 1);
    InputStep(v, t, dest);
  }

  /** Opcode 4: the parameter joins the back of the output queue. */
  lemma OutputStep(v: Variant, s: State, ps: seq<int>)
    requires s.running && Opcode(s) == Some(4) && Parameters(v, s, 1) == Some(ps)
    ensures Transition(v, s) == Done(s.(outputs := s.outputs + [ps[0]], ip := s.ip + 2,
                                  waiting := false, steps := s.steps + 1))
  {
    var t := s.(waiting := false);
    StepRunsHandler(v, s, 4);
    assert Execute(v, t, 4) == OutputBranch(v, t);
    assert Parameters(v, t, 1) == Some(ps);
  }

  /** Opcodes 5 and 6: to the second parameter when the first is nonzero
      (5) or zero (6), else ip + 3. */
  lemma JumpStep(v: Variant, s: State, opcode: int, ps: seq<int>)
    requires s.running && Opcode(s) == Some(opcode) && (opcode == 5 || opcode == 6)
    requires Parameters(v, s, 2) == Some(ps)
    ensures var jump := (opcode == 5 && ps[0] != 0) || (opcode == 6 && ps[0] == 0);
      Transition(v, s) == Done(s.(ip := if jump then ps[1] else s.ip + 3, waiting := false, steps := s.steps + 1))
  {
    var t := s.(waiting := false);
    StepRunsHandler(v, s, opcode);
    assert Execute(v, t, opcode) == JumpBranch(v, t, opcode);
    assert Parameters(v, t, 2) == Some(ps);
  }

  /** Opcode 9 on day 9: the base moves by the parameter, ip + 2. Day 7
      does not know it. */
  lemma BaseStep(v: Variant, s: State, ps: seq<int>)
    requires s.running && Opcode(s) == Some(9) && Parameters(v, s, 1) == Some(ps)
    ensures v == RelativeModes ==>
      Transition(v, s) == Done(s.(base := s.base + ps[0], ip := s.ip + 2, waiting := false, steps := s.steps + 1))
    ensures v == BooleanModes ==> Transition(v, s) == Raised(UnknownOpcode(9), s)
  {
    if v == RelativeModes {
      var t := s.(waiting := false);
      StepRunsHandler(v, s, 9);
      assert Execute(v, t, 9) == BaseBranch(v, t);
      assert Parameters(v, t, 1) == Some(ps);
    }
  }

  /** Opcode 99 clears the running flag, and the run loop then returns. */
  lemma HaltStep(v: Variant, s: State, fuel: nat)
    requires s.running && Opcode(s) == Some(99) && fuel > 0
    ensures var t := s.(running := false, waiting := false, steps := s.steps + 1);
      Transition(v, s) == Done(t) && Loop(v, s, fuel) == (t, Halted)
  {
  }

  /** `run` on a running machine raises at once; `run` on a halted one
      loops until the program halts, a step raises or the budget ends. */
  lemma RunStarts(v: Variant, s: State, fuel: nat)
    ensures s.running ==> Execution(v, s, fuel) == (s, Stopped(AlreadyRunning))
    ensures !s.running ==> Execution(v, s, fuel) == Loop(v, s.(running := true), fuel)
  {
  }

  /** A completed step hands the rest of the run to the next state. */
  lemma LoopNext(v: Variant, s: State, t: State, fuel: nat, rest: nat)
    requires s.running && fuel == rest + 1 && Transition(v, s) == Done(t)
    ensures Loop(v, s, fuel) == Loop(v, t, rest)
  {
  }

  /** The loop only ever returns by halting with the flag clear, by a raise
      with what the step left, or with the flag still set when the budget
      ends. */
  lemma {:induction false} LoopEnds(v: Variant, s: State, fuel: nat)
    ensures var (t, e) := Loop(v, s, fuel);
      (e == Halted ==> !t.running) && (e == OutOfFuel ==> t.running) && |t.mem| == |s.mem|
    decreases fuel
  {
    if s.running && fuel > 0 {
      StepCounts(v, s);
      var o := Transition(v, s);
      if o.Done? {
        var rest := fuel - 1;
        LoopNext(v, s, o.state, fuel, rest);
        LoopEnds(v, o.state, rest);
      }
    }
  }

  // ---------------------------------------------------------------------
  // The two machines side by side.

  lemma {:induction false} OperandsAgree(mem: seq<int>, ip: int, base: int, count: nat, modes: seq<Mode>, flags: seq<bool>)
    requires count <= |modes| == |flags|
    requires forall i :: 0 <= i < |modes| ==> modes[i] != Relative && (modes[i] == Immediate) == flags[i]
    ensures Operands(mem, ip, base, count, modes) == DiagnosticIntcode.Operands(mem, ip, count, flags)
    decreases count
  {
    if count > 0 {
      OperandsAgree(mem, ip, base, count - 1, modes, flags);
    }
  }

  /** On a word whose mode digits are all 0 or 1, day 9's machine steps
      exactly as day 7's (opcode 9 aside, which day 7 does not know). */
  lemma VariantsAgree(s: State, word: nat)
    requires Get(s.mem, s.ip) == Some(word) && word % 100 != 9
    requires (word / 100) % 10 <= 1 && (word / 1000) % 10 <= 1 && (word / 10000) % 10 <= 1
    ensures Transition(BooleanModes, s) == Transition(RelativeModes, s)
  {
    ModesAgree(word);
    ModesFromDigits(RelativeModes, word);
    var t := s.(waiting := false);
    assert Parameters(BooleanModes, t, 1) == Parameters(RelativeModes, t, 1);
    assert Parameters(BooleanModes, t, 2) == Parameters(RelativeModes, t, 2);
    assert Destination(BooleanModes, t, 1) == Destination(RelativeModes, t, 1);
    assert Destination(BooleanModes, t, 3) == Destination(RelativeModes, t, 3);
  }

  /** Day 5's interpreter state inside a machine state. */
  function Project(s: State): DiagnosticIntcode.Machine {
    DiagnosticIntcode.Machine(s.mem, s.ip, s.inputs, s.outputs)
  }

  /** The flags day 5 decodes from the word at ip. */
  function Flags(s: State): seq<bool>
    requires InRange(s.mem, s.ip)
  {
    DiagnosticIntcode.ParameterModes(s.mem[Slot(s.mem, s.ip)])
  }

  /** One handler of day 7's machine against one branch of day 5's loop:
      both complete or both raise, leaving memory, ip and the queues alike. */
  predicate Matches(o: Outcome, d: DiagnosticIntcode.StepResult) {
    o.Done? == d.Next? && Project(o.state) == (if d.Next? then d.next else d.at)
  }

  lemma ParametersAgree(s: State, count: nat)
    requires InRange(s.mem, s.ip) && count <= 3
    ensures Parameters(BooleanModes, s, count) == DiagnosticIntcode.Parameters(s.mem, s.ip, count, Flags(s))
  {
    var word := s.mem[Slot(s.mem, s.ip)];
    BooleanModesAgree(word);
    OperandsAgree(s.mem, s.ip, s.base, count, ParameterModes(BooleanModes, word), Flags(s));
  }

  lemma RefinesCompute(s: State, opcode: int)
    requires InRange(s.mem, s.ip)
    ensures Matches(ComputeBranch(BooleanModes, s, opcode), DiagnosticIntcode.ComputeBranch(Project(s), opcode, Flags(s)))
  {
    ParametersAgree(s, 2);
  }

  lemma RefinesInput(s: State)
    requires |s.inputs| > 0
    ensures Matches(InputBranch(BooleanModes, s), DiagnosticIntcode.InputBranch(Project(s)))
  {
  }

  lemma RefinesOutput(s: State)
    requires InRange(s.mem, s.ip)
    ensures Matches(OutputBranch(BooleanModes, s), DiagnosticIntcode.OutputBranch(Project(s), Flags(s)))
  {
    ParametersAgree(s, 1);
  }

  lemma RefinesJump(s: State, opcode: int)
    requires InRange(s.mem, s.ip)
    ensures Matches(JumpBranch(BooleanModes, s, opcode), DiagnosticIntcode.JumpBranch(Project(s), opcode, Flags(s)))
  {
    ParametersAgree(s, 2);
  }

  /** On opcodes 1-8, with input available, day 7's machine does what one
      pass of day 5's loop does to memory, ip and the queues, and raises
      exactly where it raises. */
  lemma RefinesDiagnostic(s: State)
    requires s.running && InRange(s.mem, s.ip)
    requires 1 <= s.mem[Slot(s.mem, s.ip)] % 100 <= 8
    requires s.mem[Slot(s.mem, s.ip)] % 100 == 3 ==> |s.inputs| > 0
    ensures Matches(Transition(BooleanModes, s), DiagnosticIntcode.Step(DiagnosticIntcode.EightOpcodes, Project(s)))
  {
    var opcode := s.mem[Slot(s.mem, s.ip)] % 100;
    var t := s.(waiting := false);
    StepRunsHandler(BooleanModes, s, opcode);
    var d := DiagnosticIntcode.Step(DiagnosticIntcode.EightOpcodes, Project(s));
    if opcode == 1 || opcode == 2 || opcode == 7 || opcode == 8 {
      assert d == DiagnosticIntcode.ComputeBranch(Project(t), opcode, Flags(t));
      RefinesCompute(t, opcode);
    } else if opcode == 3 {
      assert d == DiagnosticIntcode.InputBranch(Project(t));
      RefinesInput(t);
    } else if opcode == 4 {
      assert d == DiagnosticIntcode.OutputBranch(Project(t), Flags(t));
      RefinesOutput(t);
    } else {
      assert d == DiagnosticIntcode.JumpBranch(Project(t), opcode, Flags(t));
      RefinesJump(t, opcode);
    }
  }

  lemma AppendAssociates<T>(a: seq<T>, b: seq<T>, c: seq<T>)
    ensures a + (b + c) == (a + b) + c
  {
  }

  // ---------------------------------------------------------------------
  // The machine object.

  class IntcodeMachine {
    const variant: Variant
    var program: seq<int>
    var ip: int
    var relativeBase: int
    var inputs: seq<int>
    var outputs: seq<int>
    var isRunning: bool
    var isWaiting: bool
    var stepCounter: nat

    /** The fields as one value. */
    function Snapshot(): State
      reads this
    {
      State(program, ip, relativeBase, inputs, outputs, isRunning, isWaiting, stepCounter)
    }

    constructor (variant: Variant)
      ensures this.variant == variant && Snapshot() == Fresh()
    {
      this.variant := variant;
      program := [];
      ip, relativeBase := 0, 0;
      inputs, outputs := [], [];
      isRunning, isWaiting := false, false;
      stepCounter := 0;
    }

    method Reset()
      modifies this
      ensures Snapshot() == Cleared(old(Snapshot()))
    {
      ip, relativeBase := 0, 0;
      isRunning, isWaiting := false, false;
      inputs, outputs := [], [];
      stepCounter := 0;
    }

    method SetProgram(p: seq<int>)
      modifies this
      ensures Snapshot() == Load(variant, old(Snapshot()), p)
    {
      program := p + Padding(variant);
      Reset();
    }

    /** `run`. */
    method Run(fuel: nat) returns (ending: Ending)
      modifies this
      ensures (Snapshot(), ending) == Execution(variant, old(Snapshot()), fuel)
    {
      if isRunning {
        return Stopped(AlreadyRunning);
      }
      isRunning := true;
      var budget := fuel;
      while isRunning && budget > 0
        invariant Loop(variant, Snapshot(), budget) == Execution(variant, old(Snapshot()), fuel)
        decreases budget
      {
        ghost var before := Snapshot();
        var fault := Step();
        if fault.Some? {
          assert Loop(variant, before, budget) == (Snapshot(), Stopped(fault.value));
          return Stopped(fault.value);
        }
        var rest := budget - 1;
        LoopNext(variant, before, Snapshot(), budget, rest);
        budget := rest;
      }
      ending := if isRunning then OutOfFuel else Halted;
    }

    predicate HasInput()
      reads this
    {
      |inputs| > 0
    }

    predicate HasOutput()
      reads this
    {
      |outputs| > 0
    }

    method AddInput(value: int)
      modifies this
      ensures Snapshot() == old(Snapshot()).(inputs := old(inputs) + [value])
    {
      inputs := inputs + [value];
    }

    method AddOutput(value: int)
      modifies this
      ensures Snapshot() == old(Snapshot()).(outputs := old(outputs) + [value])
    {
      outputs := outputs + [value];
    }

    /** `set_inputs`: replaces the whole queue. */
    method SetInputs(values: seq<int>)
      modifies this
      ensures Snapshot() == old(Snapshot()).(inputs := values)
    {
      inputs := values;
    }

    /** `get_input`: the head of the queue, removed; None (the raise) when
      the queue is empty. */
    method GetInput() returns (value: Option<int>)
      modifies this
      ensures (value, inputs) == Dequeue(old(inputs))
      ensures Snapshot() == old(Snapshot()).(inputs := inputs)
    {
      if |inputs| == 0 {
        return None;
      }
      value := Some(inputs[0]);
      inputs := inputs[1..];
    }

    function GetOutputs(): seq<int>
      reads this
    {
      outputs
    }

    /** `get_output`: the head of the output queue, removed. */
    method GetOutput() returns (value: Option<int>)
      modifies this
      ensures (value, outputs) == Dequeue(old(outputs))
      ensures Snapshot() == old(Snapshot()).(outputs := outputs)
    {
      if |outputs| == 0 {
        return None;
      }
      value := Some(outputs[0]);
      outputs := outputs[1..];
    }

    method GetOpcode() returns (opcode: Option<int>)
      ensures opcode == Opcode(Snapshot())
    {
      if !(-|program| <= ip < |program|) {
        return None;
      }
      opcode := Some(program[Slot(program, ip)] % 100);
    }

    /** `get_parameter_modes`: three digits, lowest first. */
    /** One digit of `get_parameter_modes`: day 7 appends immediate for any
        nonzero digit; day 9 appends the mode for 0, 1 or 2 and nothing
        for a larger digit. */
    method DecodeMode(mode: int) returns (decoded: seq<Mode>)
      ensures decoded == ModeOf(variant, mode)
    {
      decoded := [];
      if variant == BooleanModes {
        decoded := [if mode != 0 then Immediate else Positional];
      } else {
        if mode == 0 {
          decoded := [Positional];
        }
        if mode == 1 {
          decoded := [Immediate];
        }
        if mode == 2 {
          decoded := [Relative];
        }
      }
    }

    method GetParameterModes() returns (modes: Option<seq<Mode>>)
      ensures modes == Modes(variant, Snapshot())
    {
      if !(-|program| <= ip < |program|) {
        return None;
      }
      var word := program[Slot(program, ip)];
      var opcode := TruncDiv(word, 100);
      var ms: seq<Mode> := [];
      ghost var left: nat := 3;
      ModeDigitsThree(variant, word);
      for i := 0 to 3
        invariant left == 3 - i
        invariant ms + ModeDigits(variant, opcode, left) == ParameterModes(variant, word)
      {
        var mode := opcode % 10;
        ghost var next: nat := left - 1;
        ghost var rest := ModeDigits(variant, TruncDiv(opcode, 10), next);
        assert ModeDigits(variant, opcode, left) == ModeOf(variant, mode) + rest;
        ghost var before := ms;
        var decoded := DecodeMode(mode);
        ms := ms + decoded;
        AppendAssociates(before, ModeOf(variant, mode), rest);
        opcode := TruncDiv(opcode, 10);
        left := next;
      }
      assert ms + ModeDigits(variant, opcode, left) == ms;
      return Some(ms);
    }

    /** One pass of the loop in `get_parameters`: the word at `address`
        taken as is, or the cell it points at directly or from the relative
        base; an address out of range or a missing mode raises. */
    method GetParameter(address: int, i: nat, ms: seq<Mode>) returns (value: Option<int>)
      requires address == ip + 1 + i
      ensures value == Operand(program, ip, relativeBase, i, ms)
    {
      if !(-|program| <= address < |program|) || i >= |ms| {
        return None;
      }
      var word := program[Slot(program, address)];
      if ms[i] == Positional || ms[i] == Relative {
        var at := if ms[i] == Positional then word else relativeBase + word;
        if !(-|program| <= at < |program|) {
          return None;
        }
        return Some(program[Slot(program, at)]);
      }
      return Some(word);
    }

    /** `get_parameters`. */
    method GetParameters(count: nat) returns (parameters: Option<seq<int>>)
      ensures parameters == Parameters(variant, Snapshot(), count)
    {
      var modes := GetParameterModes();
      if modes.None? {
        return None;
      }
      var ms := modes.value;
      var ps: seq<int> := [];
      var address := ip + 1;
      for i := 0 to count
        invariant address == ip + 1 + i
        invariant Operands(program, ip, relativeBase, i, ms) == Some(ps)
      {
        OperandsNext(program, ip, relativeBase, i, ms, ps);
        var value := GetParameter(address, i, ms);
        if value.None? {
          OperandsFailurePersists(program, ip, relativeBase, i + 1, count, ms);
          return None;
        }
        ps := ps + [value.value];
        address := address + 1;
      }
      return Some(ps);
    }

    /** `set_memory_value`: false where the assignment raises IndexError. */
    method SetMemoryValue(address: int, value: int) returns (ok: bool)
      modifies this
      ensures ok == InRange(old(program), address)
      ensures Snapshot() == old(Snapshot()).(mem := if ok then Set(old(program), address, value).value else old(program))
    {
      if !(-|program| <= address < |program|) {
        return false;
      }
      program := program[Slot(program, address) := value];
      return true;
    }

    /** The write address of parameter k, as the handlers compute it. */
    method GetDestination(k: nat) returns (dest: Option<int>)
      requires k >= 1
      ensures dest == Destination(variant, Snapshot(), k)
    {
      if !(-|program| <= ip + k < |program|) {
        return None;
      }
      var raw := program[Slot(program, ip + k)];
      if variant == BooleanModes {
        return Some(raw);
      }
      var modes := GetParameterModes();
      if modes.None? || |modes.value| < k {
        return None;
      }
      dest := Some(if modes.value[k - 1] == Relative then raw + relativeBase else raw);
    }

    /** `add`, `multiply`, `set_if_less_than` and `set_if_equal`. */
    method ExecuteCompute(opcode: int) returns (fault: Option<Fault>)
      modifies this
      ensures Result(Snapshot(), fault) == ComputeBranch(variant, old(Snapshot()), opcode)
    {
      var parameters := GetParameters(2);
      if parameters.None? {
        return Some(IndexError);
      }
      var dest := GetDestination(3);
      if dest.None? {
        return Some(IndexError);
      }
      var ps := parameters.value;
      var ok := SetMemoryValue(dest.value, DiagnosticIntcode.Compute(opcode, ps[0], ps[1]));
      if !ok {
        return Some(IndexError);
      }
      ip := ip + 4;
      return None;
    }

    /** `input`. */
    method ExecuteInput() returns (fault: Option<Fault>)
      modifies this
      ensures Result(Snapshot(), fault) == InputBranch(variant, old(Snapshot()))
    {
      if !HasInput() {
        isWaiting := true;
        return Some(NoInput);
      }
      var dest := GetDestination(1);
      if dest.None? {
        return Some(IndexError);
      }
      var value := GetInput();
      var ok := SetMemoryValue(dest.value, value.value);
      if !ok {
        return Some(IndexError);
      }
      ip := ip + 2;
      return None;
    }

    /** `output`. */
    method ExecuteOutput() returns (fault: Option<Fault>)
      modifies this
      ensures Result(Snapshot(), fault) == OutputBranch(variant, old(Snapshot()))
    {
      var parameters := GetParameters(1);
      if parameters.None? {
        return Some(IndexError);
      }
      AddOutput(parameters.value[0]);
      ip := ip + 2;
      return None;
    }

    /** `jump_if_true` and `jump_if_false`. */
    method ExecuteJump(opcode: int) returns (fault: Option<Fault>)
      modifies this
      ensures Result(Snapshot(), fault) == JumpBranch(variant, old(Snapshot()), opcode)
    {
      var parameters := GetParameters(2);
      if parameters.None? {
        return Some(IndexError);
      }
      var value, dest := parameters.value[0], parameters.value[1];
      if (opcode == 5 && value != 0) || (opcode != 5 && value == 0) {
        ip := dest;
      } else {
        ip := ip + 3;
      }
      return None;
    }

    /** `relative_base_offset`. */
    method ExecuteBaseOffset() returns (fault: Option<Fault>)
      modifies this
      ensures Result(Snapshot(), fault) == BaseBranch(variant, old(Snapshot()))
    {
      var parameters := GetParameters(1);
      if parameters.None? {
        return Some(IndexError);
      }
      relativeBase := relativeBase + parameters.value[0];
      ip := ip + 2;
      return None;
    }

    /** `step`. */
    method Step() returns (fault: Option<Fault>)
      modifies this
      ensures Result(Snapshot(), fault) == Transition(variant, old(Snapshot()))
    {
      if !isRunning {
        return Some(NotRunning);
      }
      var opcode := GetOpcode();
      if opcode.None? {
        return Some(IndexError);
      }
      var op := opcode.value;
      if !(1 <= op <= 8 || op == 99 || (variant == RelativeModes && op == 9)) {
        return Some(UnknownOpcode(op));
      }
      StepRunsHandler(variant, Snapshot(), op);
      isWaiting := false;
      fault := ExecuteInstruction(op);
      if fault.None? {
        stepCounter := stepCounter + 1;
      }
    }

    /** The handler the `instruction_set` dictionary picks for a known
        opcode. */
    method ExecuteInstruction(op: int) returns (fault: Option<Fault>)
      requires Known(variant, op)
      modifies this
      ensures Result(Snapshot(), fault) == Execute(variant, old(Snapshot()), op)
    {
      if op == 1 || op == 2 || op == 7 || op == 8 {
        fault := ExecuteCompute(op);
      } else if op == 3 {
        fault := ExecuteInput();
      } else if op == 4 {
        fault := ExecuteOutput();
      } else if op == 5 || op == 6 {
        fault := ExecuteJump(op);
      } else if op == 9 {
        fault := ExecuteBaseOffset();
      } else {
        isRunning := false;
        fault := None;
      }
    }
  }
}
