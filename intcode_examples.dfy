/** The sample programs of days 7 and 9 (part 2), run on the Intcode
    machine as the test table runs them: a new machine, `set_program`,
    `set_inputs`, `run`, then the outputs. Where a test case stands for a
    class of inputs (zero or not, below, at or above 8), the statement is
    made for every input of the class. Each run is proved one step per
    lemma: a state wrapped in `Veiled` is kept from the verifier until the
    lemma for its step unwraps it. */
module IntcodeMachineExamples {
  import opened Common
  import opened IntcodeMachines

  /** The machine after `IntcodeMachine()`, `set_program(program)` and
      `set_inputs(inputs)`. */
  function Prepared(v: Variant, program: seq<int>, inputs: seq<int>): State {
    Load(v, Fresh(), program).(inputs := inputs)
  }

  /** A machine in the middle of `run`, before its first step. */
  function Started(mem: seq<int>, inputs: seq<int>): State {
    State(mem, 0, 0, inputs, [], true, false, 0)
  }

  /** `run` on a prepared machine starts from the padded program, the
      inputs, ip 0 and base 0. */
  lemma PreparedStarts(v: Variant, program: seq<int>, inputs: seq<int>, fuel: nat)
    ensures Execution(v, Prepared(v, program, inputs), fuel) == Loop(v, Started(program + Padding(v), inputs), fuel)
  {
  }

  /** The identity, behind a recursion the verifier only unfolds a few
      levels at a time. */
  function Veil(s: State, n: nat): State
    decreases n
  {
    if n == 0 then s else Veil(s, n - 1)
  }

  function Veiled(s: State): State {
    Veil(s, 4)
  }

  lemma Unveil(s: State)
    ensures Veiled(s) == s
  {
    assert Veil(s, 0) == s;
    assert Veil(s, 1) == s;
    assert Veil(s, 2) == s;
    assert Veil(s, 3) == s;
  }

  function ModeFor(digit: int): Mode {
    if digit == 0 then Positional else if digit == 1 then Immediate else Relative
  }

  /** The modes of a word whose mode digits the machine knows. */
  lemma PlainModes(v: Variant, word: nat)
    requires (word / 100) % 10 <= 2 && (word / 1000) % 10 <= 2 && (word / 10000) % 10 <= 2
    requires v == BooleanModes ==> (word / 100) % 10 <= 1 && (word / 1000) % 10 <= 1 && (word / 10000) % 10 <= 1
    ensures ParameterModes(v, word)
      == [ModeFor((word / 100) % 10), ModeFor((word / 1000) % 10), ModeFor((word / 10000) % 10)]
  {
    ModesFromDigits(v, word);
  }

  lemma Params1(v: Variant, s: State, word: int, a: int)
    requires Get(s.mem, s.ip) == Some(word)
    requires Operand(s.mem, s.ip, s.base, 0, ParameterModes(v, word)) == Some(a)
    ensures Parameters(v, s, 1) == Some([a])
  {
    assert [] + [a] == [a];
  }

  lemma Params2(v: Variant, s: State, word: int, a: int, b: int)
    requires Get(s.mem, s.ip) == Some(word)
    requires Operand(s.mem, s.ip, s.base, 0, ParameterModes(v, word)) == Some(a)
    requires Operand(s.mem, s.ip, s.base, 1, ParameterModes(v, word)) == Some(b)
    ensures Parameters(v, s, 2) == Some([a, b])
  {
    assert [] + [a] == [a];
    assert [a] + [b] == [a, b];
  }

  /** The square the 16-digit test prints has 16 decimal digits. */
  lemma SixteenDigitLength(n: nat)
    requires n == 34915192 * 34915192
    ensures |IntToString(n)| == 16
  {
    LengthBound(n, 16);
    LengthBound(n, 15);
    assert Pow10(3) == 1000;
    assert Pow10(6) == 1000000;
    assert Pow10(9) == 1000000000;
    assert Pow10(12) == 1000000000000;
    assert Pow10(15) == 1000000000000000;
    assert Pow10(16) == 10000000000000000;
  }


  /** `nop`: multiplies the 99 at address 4 by 3 into address 0, then halts. */
  function NopProgram(): seq<int> { [1002, 4, 3, 0, 99] }

  /** `print input`: stores the input at address 0 and prints it. */
  function EchoProgram(): seq<int> { [3, 0, 4, 0, 99] }

  /** `is non-zero (position mode)`. */
  function PositionNonZeroProgram(): seq<int> { (([3, 12, 6, 12, 15, 1] + [13, 14, 13, 4, 13, 99]) + [-1, 0, 1, 9]) }

  /** `is non-zero (immediate mode)`: the input overwrites the first parameter of the jump at address 2. */
  function ImmediateNonZeroProgram(): seq<int> { (([3, 3, 1105, -1, 9, 1101] + [0, 0, 12, 4, 12, 99]) + [1]) }

  /** `day 5 larger example`: compares the input with 8. */
  function ComparisonProgram(): seq<int> { ((([3, 21, 1008, 21, 8, 20] + [1005, 20, 22, 107, 8, 21]) + ([20, 1006, 20, 31, 1106, 0] + [36, 98, 0, 0, 1002, 21])) + (([125, 20, 4, 20, 1105, 1] + [46, 104, 999, 1105, 1, 46]) + ([1101, 1000, 1, 20, 4, 20] + [1105, 1, 46, 98, 99]))) }

  /** `day 9 (16-digit number)`: squares 34915192 and prints the square. */
  function SixteenDigitProgram(): seq<int> { [1102, 34915192, 34915192, 7, 4, 7, 99, 0] }

  /** `day 9 (large number)`: prints its second word. */
  function LargeNumberProgram(): seq<int> { [104, 1125899906842624, 99] }

  /** `nop`: the run halts with no output, 297 stored at address 0. */
  lemma Nop(v: Variant, extra: nat)
    ensures var (s, e) := Execution(v, Prepared(v, NopProgram(), []), extra + 2);
      e == Halted && s.outputs == [] && Get(s.mem, 0) == Some(297)
  {
    PreparedStarts(v, NopProgram(), [], extra + 2);
    Unveil(Started(NopProgram() + Padding(v), []));
    NopStep0(v, Padding(v), extra);
  }

  lemma NopStep0(v: Variant, pad: seq<int>, fuel: nat)
    ensures var (s, e) := Loop(v, Veiled(Started(NopProgram() + pad, [])), fuel + 2);
      e == Halted && s.outputs == [] && Get(s.mem, 0) == Some(297)
  {
    var s := Started(NopProgram() + pad, []);
    Unveil(s);
    var t := State((NopProgram() + pad)[0 := 297], 4, 0, [], [], true, false, 1);
    PlainModes(v, 1002);
    Params2(v, s, 1002, 99, 3);
    ComputeStep(v, s, 2, [99, 3], 0);
    LoopNext(v, s, t, fuel + 2, fuel + 1);
    Unveil(t);
    NopStep1(v, pad, fuel);
  }

  lemma NopStep1(v: Variant, pad: seq<int>, fuel: nat)
    ensures var (s, e) := Loop(v, Veiled(State((NopProgram() + pad)[0 := 297], 4, 0, [], [], true, false, 1)), fuel + 1);
      e == Halted && s.outputs == [] && Get(s.mem, 0) == Some(297)
  {
    var s := State((NopProgram() + pad)[0 := 297], 4, 0, [], [], true, false, 1);
    Unveil(s);
    assert Opcode(s) == Some(99);
    HaltStep(v, s, fuel + 1);
  }

  /** `print input`: input 123 comes back out. */
  lemma PrintInput(v: Variant, extra: nat)
    ensures var (s, e) := Execution(v, Prepared(v, EchoProgram(), [123]), extra + 3);
      e == Halted && s.outputs == [123]
  {
    PreparedStarts(v, EchoProgram(), [123], extra + 3);
    Unveil(Started(EchoProgram() + Padding(v), [123]));
    PrintInputStep0(v, Padding(v), extra);
  }

  lemma PrintInputStep0(v: Variant, pad: seq<int>, fuel: nat)
    ensures var (s, e) := Loop(v, Veiled(Started(EchoProgram() + pad, [123])), fuel + 3);
      e == Halted && s.outputs == [123]
  {
    var s := Started(EchoProgram() + pad, [123]);
    Unveil(s);
    var t := State((EchoProgram() + pad)[0 := 123], 2, 0, [], [], true, false, 1);
    PlainModes(v, 3);
    InputStep(v, s, 0);
    assert s.inputs[1..] == [];
    LoopNext(v, s, t, fuel + 3, fuel + 2);
    Unveil(t);
    PrintInputStep1(v, pad, fuel);
  }

  lemma PrintInputStep1(v: Variant, pad: seq<int>, fuel: nat)
    ensures var (s, e) := Loop(v, Veiled(State((EchoProgram() + pad)[0 := 123], 2, 0, [], [], true, false, 1)), fuel + 2);
      e == Halted && s.outputs == [123]
  {
    var s := State((EchoProgram() + pad)[0 := 123], 2, 0, [], [], true, false, 1);
    Unveil(s);
    var t := State((EchoProgram() + pad)[0 := 123], 4, 0, [], [123], true, false, 2);
    PlainModes(v, 4);
    Params1(v, s, 4, 123);
    OutputStep(v, s, [123]);
    assert s.outputs + [123] == [123];
    LoopNext(v, s, t, fuel + 2, fuel + 1);
    Unveil(t);
    PrintInputStep2(v, pad, fuel);
  }

  lemma PrintInputStep2(v: Variant, pad: seq<int>, fuel: nat)
    ensures var (s, e) := Loop(v, Veiled(State((EchoProgram() + pad)[0 := 123], 4, 0, [], [123], true, false, 2)), fuel + 1);
      e == Halted && s.outputs == [123]
  {
    var s := State((EchoProgram() + pad)[0 := 123], 4, 0, [], [123], true, false, 2);
    Unveil(s);
    assert Opcode(s) == Some(99);
    HaltStep(v, s, fuel + 1);
  }

  /** A nonzero input prints 1. */
  lemma PositionNonZeroHolds(v: Variant, x: int, extra: nat)
    requires x != 0
    ensures var (s, e) := Execution(v, Prepared(v, PositionNonZeroProgram(), [x]), extra + 5);
      e == Halted && s.outputs == [1]
  {
    PreparedStarts(v, PositionNonZeroProgram(), [x], extra + 5);
    Unveil(Started(PositionNonZeroProgram() + Padding(v), [x]));
    PositionNonZeroHoldsStep0(v, Padding(v), x, extra);
  }

  lemma PositionNonZeroHoldsStep0(v: Variant, pad: seq<int>, x: int, fuel: nat)
    requires x != 0
    ensures var (s, e) := Loop(v, Veiled(Started(PositionNonZeroProgram() + pad, [x])), fuel + 5);
      e == Halted && s.outputs == [1]
  {
    var s := Started(PositionNonZeroProgram() + pad, [x]);
    Unveil(s);
    var t := State((PositionNonZeroProgram() + pad)[12 := x], 2, 0, [], [], true, false, 1);
    PlainModes(v, 3);
    InputStep(v, s, 12);
    assert s.inputs[1..] == [];
    LoopNext(v, s, t, fuel + 5, fuel + 4);
    Unveil(t);
    PositionNonZeroHoldsStep1(v, pad, x, fuel);
  }

  lemma PositionNonZeroHoldsStep1(v: Variant, pad: seq<int>, x: int, fuel: nat)
    requires x != 0
    ensures var (s, e) := Loop(v, Veiled(State((PositionNonZeroProgram() + pad)[12 := x], 2, 0, [], [], true, false, 1)), fuel + 4);
      e == Halted && s.outputs == [1]
  {
    var s := State((PositionNonZeroProgram() + pad)[12 := x], 2, 0, [], [], true, false, 1);
    Unveil(s);
    var t := State((PositionNonZeroProgram() + pad)[12 := x], 5, 0, [], [], true, false, 2);
    PlainModes(v, 6);
    Params2(v, s, 6, x, 9);
    JumpStep(v, s, 6, [x, 9]);
    LoopNext(v, s, t, fuel + 4, fuel + 3);
    Unveil(t);
    PositionNonZeroHoldsStep2(v, pad, x, fuel);
  }

  lemma PositionNonZeroHoldsStep2(v: Variant, pad: seq<int>, x: int, fuel: nat)
    requires x != 0
    ensures var (s, e) := Loop(v, Veiled(State((PositionNonZeroProgram() + pad)[12 := x], 5, 0, [], [], true, false, 2)), fuel + 3);
      e == Halted && s.outputs == [1]
  {
    var s := State((PositionNonZeroProgram() + pad)[12 := x], 5, 0, [], [], true, false, 2);
    Unveil(s);
    var t := State((PositionNonZeroProgram() + pad)[12 := x][13 := 1], 9, 0, [], [], true, false, 3);
    PlainModes(v, 1);
    Params2(v, s, 1, 0, 1);
    ComputeStep(v, s, 1, [0, 1], 13);
    LoopNext(v, s, t, fuel + 3, fuel + 2);
    Unveil(t);
    PositionNonZeroHoldsStep3(v, pad, x, fuel);
  }

  lemma PositionNonZeroHoldsStep3(v: Variant, pad: seq<int>, x: int, fuel: nat)
    requires x != 0
    ensures var (s, e) := Loop(v, Veiled(State((PositionNonZeroProgram() + pad)[12 := x][13 := 1], 9, 0, [], [], true, false, 3)), fuel + 2);
      e == Halted && s.outputs == [1]
  {
    var s := State((PositionNonZeroProgram() + pad)[12 := x][13 := 1], 9, 0, [], [], true, false, 3);
    Unveil(s);
    var t := State((PositionNonZeroProgram() + pad)[12 := x][13 := 1], 11, 0, [], [1], true, false, 4);
    PlainModes(v, 4);
    Params1(v, s, 4, 1);
    OutputStep(v, s, [1]);
    assert s.outputs + [1] == [1];
    LoopNext(v, s, t, fuel + 2, fuel + 1);
    Unveil(t);
    PositionNonZeroHoldsStep4(v, pad, x, fuel);
  }

  lemma PositionNonZeroHoldsStep4(v: Variant, pad: seq<int>, x: int, fuel: nat)
    requires x != 0
    ensures var (s, e) := Loop(v, Veiled(State((PositionNonZeroProgram() + pad)[12 := x][13 := 1], 11, 0, [], [1], true, false, 4)), fuel + 1);
      e == Halted && s.outputs == [1]
  {
    var s := State((PositionNonZeroProgram() + pad)[12 := x][13 := 1], 11, 0, [], [1], true, false, 4);
    Unveil(s);
    assert Opcode(s) == Some(99);
    HaltStep(v, s, fuel + 1);
  }

  /** Input 0 prints 0. */
  lemma PositionNonZeroFails(v: Variant, extra: nat)
    ensures var (s, e) := Execution(v, Prepared(v, PositionNonZeroProgram(), [0]), extra + 4);
      e == Halted && s.outputs == [0]
  {
    PreparedStarts(v, PositionNonZeroProgram(), [0], extra + 4);
    Unveil(Started(PositionNonZeroProgram() + Padding(v), [0]));
    PositionNonZeroFailsStep0(v, Padding(v), extra);
  }

  lemma PositionNonZeroFailsStep0(v: Variant, pad: seq<int>, fuel: nat)
    ensures var (s, e) := Loop(v, Veiled(Started(PositionNonZeroProgram() + pad, [0])), fuel + 4);
      e == Halted && s.outputs == [0]
  {
    var s := Started(PositionNonZeroProgram() + pad, [0]);
    Unveil(s);
    var t := State((PositionNonZeroProgram() + pad)[12 := 0], 2, 0, [], [], true, false, 1);
    PlainModes(v, 3);
    InputStep(v, s, 12);
    assert s.inputs[1..] == [];
    LoopNext(v, s, t, fuel + 4, fuel + 3);
    Unveil(t);
    PositionNonZeroFailsStep1(v, pad, fuel);
  }

  lemma PositionNonZeroFailsStep1(v: Variant, pad: seq<int>, fuel: nat)
    ensures var (s, e) := Loop(v, Veiled(State((PositionNonZeroProgram() + pad)[12 := 0], 2, 0, [], [], true, false, 1)), fuel + 3);
      e == Halted && s.outputs == [0]
  {
    var s := State((PositionNonZeroProgram() + pad)[12 := 0], 2, 0, [], [], true, false, 1);
    Unveil(s);
    var t := State((PositionNonZeroProgram() + pad)[12 := 0], 9, 0, [], [], true, false, 2);
    PlainModes(v, 6);
    Params2(v, s, 6, 0, 9);
    JumpStep(v, s, 6, [0, 9]);
    LoopNext(v, s, t, fuel + 3, fuel + 2);
    Unveil(t);
    PositionNonZeroFailsStep2(v, pad, fuel);
  }

  lemma PositionNonZeroFailsStep2(v: Variant, pad: seq<int>, fuel: nat)
    ensures var (s, e) := Loop(v, Veiled(State((PositionNonZeroProgram() + pad)[12 := 0], 9, 0, [], [], true, false, 2)), fuel + 2);
      e == Halted && s.outputs == [0]
  {
    var s := State((PositionNonZeroProgram() + pad)[12 := 0], 9, 0, [], [], true, false, 2);
    Unveil(s);
    var t := State((PositionNonZeroProgram() + pad)[12 := 0], 11, 0, [], [0], true, false, 3);
    PlainModes(v, 4);
    Params1(v, s, 4, 0);
    OutputStep(v, s, [0]);
    assert s.outputs + [0] == [0];
    LoopNext(v, s, t, fuel + 2, fuel + 1);
    Unveil(t);
    PositionNonZeroFailsStep3(v, pad, fuel);
  }

  lemma PositionNonZeroFailsStep3(v: Variant, pad: seq<int>, fuel: nat)
    ensures var (s, e) := Loop(v, Veiled(State((PositionNonZeroProgram() + pad)[12 := 0], 11, 0, [], [0], true, false, 3)), fuel + 1);
      e == Halted && s.outputs == [0]
  {
    var s := State((PositionNonZeroProgram() + pad)[12 := 0], 11, 0, [], [0], true, false, 3);
    Unveil(s);
    assert Opcode(s) == Some(99);
    HaltStep(v, s, fuel + 1);
  }

  /** A nonzero input prints 1. */
  lemma ImmediateNonZeroHolds(v: Variant, x: int, extra: nat)
    requires x != 0
    ensures var (s, e) := Execution(v, Prepared(v, ImmediateNonZeroProgram(), [x]), extra + 4);
      e == Halted && s.outputs == [1]
  {
    PreparedStarts(v, ImmediateNonZeroProgram(), [x], extra + 4);
    Unveil(Started(ImmediateNonZeroProgram() + Padding(v), [x]));
    ImmediateNonZeroHoldsStep0(v, Padding(v), x, extra);
  }

  lemma ImmediateNonZeroHoldsStep0(v: Variant, pad: seq<int>, x: int, fuel: nat)
    requires x != 0
    ensures var (s, e) := Loop(v, Veiled(Started(ImmediateNonZeroProgram() + pad, [x])), fuel + 4);
      e == Halted && s.outputs == [1]
  {
    var s := Started(ImmediateNonZeroProgram() + pad, [x]);
    Unveil(s);
    var t := State((ImmediateNonZeroProgram() + pad)[3 := x], 2, 0, [], [], true, false, 1);
    PlainModes(v, 3);
    InputStep(v, s, 3);
    assert s.inputs[1..] == [];
    LoopNext(v, s, t, fuel + 4, fuel + 3);
    Unveil(t);
    ImmediateNonZeroHoldsStep1(v, pad, x, fuel);
  }

  lemma ImmediateNonZeroHoldsStep1(v: Variant, pad: seq<int>, x: int, fuel: nat)
    requires x != 0
    ensures var (s, e) := Loop(v, Veiled(State((ImmediateNonZeroProgram() + pad)[3 := x], 2, 0, [], [], true, false, 1)), fuel + 3);
      e == Halted && s.outputs == [1]
  {
    var s := State((ImmediateNonZeroProgram() + pad)[3 := x], 2, 0, [], [], true, false, 1);
    Unveil(s);
    var t := State((ImmediateNonZeroProgram() + pad)[3 := x], 9, 0, [], [], true, false, 2);
    PlainModes(v, 1105);
    Params2(v, s, 1105, x, 9);
    JumpStep(v, s, 5, [x, 9]);
    LoopNext(v, s, t, fuel + 3, fuel + 2);
    Unveil(t);
    ImmediateNonZeroHoldsStep2(v, pad, x, fuel);
  }

  lemma ImmediateNonZeroHoldsStep2(v: Variant, pad: seq<int>, x: int, fuel: nat)
    requires x != 0
    ensures var (s, e) := Loop(v, Veiled(State((ImmediateNonZeroProgram() + pad)[3 := x], 9, 0, [], [], true, false, 2)), fuel + 2);
      e == Halted && s.outputs == [1]
  {
    var s := State((ImmediateNonZeroProgram() + pad)[3 := x], 9, 0, [], [], true, false, 2);
    Unveil(s);
    var t := State((ImmediateNonZeroProgram() + pad)[3 := x], 11, 0, [], [1], true, false, 3);
    PlainModes(v, 4);
    Params1(v, s, 4, 1);
    OutputStep(v, s, [1]);
    assert s.outputs + [1] == [1];
    LoopNext(v, s, t, fuel + 2, fuel + 1);
    Unveil(t);
    ImmediateNonZeroHoldsStep3(v, pad, x, fuel);
  }

  lemma ImmediateNonZeroHoldsStep3(v: Variant, pad: seq<int>, x: int, fuel: nat)
    requires x != 0
    ensures var (s, e) := Loop(v, Veiled(State((ImmediateNonZeroProgram() + pad)[3 := x], 11, 0, [], [1], true, false, 3)), fuel + 1);
      e == Halted && s.outputs == [1]
  {
    var s := State((ImmediateNonZeroProgram() + pad)[3 := x], 11, 0, [], [1], true, false, 3);
    Unveil(s);
    assert Opcode(s) == Some(99);
    HaltStep(v, s, fuel + 1);
  }

  /** Input 0 prints 0. */
  lemma ImmediateNonZeroFails(v: Variant, extra: nat)
    ensures var (s, e) := Execution(v, Prepared(v, ImmediateNonZeroProgram(), [0]), extra + 5);
      e == Halted && s.outputs == [0]
  {
    PreparedStarts(v, ImmediateNonZeroProgram(), [0], extra + 5);
    Unveil(Started(ImmediateNonZeroProgram() + Padding(v), [0]));
    ImmediateNonZeroFailsStep0(v, Padding(v), extra);
  }

  lemma ImmediateNonZeroFailsStep0(v: Variant, pad: seq<int>, fuel: nat)
    ensures var (s, e) := Loop(v, Veiled(Started(ImmediateNonZeroProgram() + pad, [0])), fuel + 5);
      e == Halted && s.outputs == [0]
  {
    var s := Started(ImmediateNonZeroProgram() + pad, [0]);
    Unveil(s);
    var t := State((ImmediateNonZeroProgram() + pad)[3 := 0], 2, 0, [], [], true, false, 1);
    PlainModes(v, 3);
    InputStep(v, s, 3);
    assert s.inputs[1..] == [];
    LoopNext(v, s, t, fuel + 5, fuel + 4);
    Unveil(t);
    ImmediateNonZeroFailsStep1(v, pad, fuel);
  }

  lemma ImmediateNonZeroFailsStep1(v: Variant, pad: seq<int>, fuel: nat)
    ensures var (s, e) := Loop(v, Veiled(State((ImmediateNonZeroProgram() + pad)[3 := 0], 2, 0, [], [], true, false, 1)), fuel + 4);
      e == Halted && s.outputs == [0]
  {
    var s := State((ImmediateNonZeroProgram() + pad)[3 := 0], 2, 0, [], [], true, false, 1);
    Unveil(s);
    var t := State((ImmediateNonZeroProgram() + pad)[3 := 0], 5, 0, [], [], true, false, 2);
    PlainModes(v, 1105);
    Params2(v, s, 1105, 0, 9);
    JumpStep(v, s, 5, [0, 9]);
    LoopNext(v, s, t, fuel + 4, fuel + 3);
    Unveil(t);
    ImmediateNonZeroFailsStep2(v, pad, fuel);
  }

  lemma ImmediateNonZeroFailsStep2(v: Variant, pad: seq<int>, fuel: nat)
    ensures var (s, e) := Loop(v, Veiled(State((ImmediateNonZeroProgram() + pad)[3 := 0], 5, 0, [], [], true, false, 2)), fuel + 3);
      e == Halted && s.outputs == [0]
  {
    var s := State((ImmediateNonZeroProgram() + pad)[3 := 0], 5, 0, [], [], true, false, 2);
    Unveil(s);
    var t := State((ImmediateNonZeroProgram() + pad)[3 := 0][12 := 0], 9, 0, [], [], true, false, 3);
    PlainModes(v, 1101);
    Params2(v, s, 1101, 0, 0);
    ComputeStep(v, s, 1, [0, 0], 12);
    LoopNext(v, s, t, fuel + 3, fuel + 2);
    Unveil(t);
    ImmediateNonZeroFailsStep3(v, pad, fuel);
  }

  lemma ImmediateNonZeroFailsStep3(v: Variant, pad: seq<int>, fuel: nat)
    ensures var (s, e) := Loop(v, Veiled(State((ImmediateNonZeroProgram() + pad)[3 := 0][12 := 0], 9, 0, [], [], true, false, 3)), fuel + 2);
      e == Halted && s.outputs == [0]
  {
    var s := State((ImmediateNonZeroProgram() + pad)[3 := 0][12 := 0], 9, 0, [], [], true, false, 3);
    Unveil(s);
    var t := State((ImmediateNonZeroProgram() + pad)[3 := 0][12 := 0], 11, 0, [], [0], true, false, 4);
    PlainModes(v, 4);
    Params1(v, s, 4, 0);
    OutputStep(v, s, [0]);
    assert s.outputs + [0] == [0];
    LoopNext(v, s, t, fuel + 2, fuel + 1);
    Unveil(t);
    ImmediateNonZeroFailsStep4(v, pad, fuel);
  }

  lemma ImmediateNonZeroFailsStep4(v: Variant, pad: seq<int>, fuel: nat)
    ensures var (s, e) := Loop(v, Veiled(State((ImmediateNonZeroProgram() + pad)[3 := 0][12 := 0], 11, 0, [], [0], true, false, 4)), fuel + 1);
      e == Halted && s.outputs == [0]
  {
    var s := State((ImmediateNonZeroProgram() + pad)[3 := 0][12 := 0], 11, 0, [], [0], true, false, 4);
    Unveil(s);
    assert Opcode(s) == Some(99);
    HaltStep(v, s, fuel + 1);
  }

  /** An input below 8 prints 999. */
  lemma CompareBelow(v: Variant, x: int, extra: nat)
    requires x < 8
    ensures var (s, e) := Execution(v, Prepared(v, ComparisonProgram(), [x]), extra + 8);
      e == Halted && s.outputs == [999]
  {
    PreparedStarts(v, ComparisonProgram(), [x], extra + 8);
    Unveil(Started(ComparisonProgram() + Padding(v), [x]));
    CompareBelowStep0(v, Padding(v), x, extra);
  }

  lemma CompareBelowStep0(v: Variant, pad: seq<int>, x: int, fuel: nat)
    requires x < 8
    ensures var (s, e) := Loop(v, Veiled(Started(ComparisonProgram() + pad, [x])), fuel + 8);
      e == Halted && s.outputs == [999]
  {
    var s := Started(ComparisonProgram() + pad, [x]);
    Unveil(s);
    var t := State((ComparisonProgram() + pad)[21 := x], 2, 0, [], [], true, false, 1);
    PlainModes(v, 3);
    InputStep(v, s, 21);
    assert s.inputs[1..] == [];
    LoopNext(v, s, t, fuel + 8, fuel + 7);
    Unveil(t);
    CompareBelowStep1(v, pad, x, fuel);
  }

  lemma CompareBelowStep1(v: Variant, pad: seq<int>, x: int, fuel: nat)
    requires x < 8
    ensures var (s, e) := Loop(v, Veiled(State((ComparisonProgram() + pad)[21 := x], 2, 0, [], [], true, false, 1)), fuel + 7);
      e == Halted && s.outputs == [999]
  {
    var s := State((ComparisonProgram() + pad)[21 := x], 2, 0, [], [], true, false, 1);
    Unveil(s);
    var t := State((ComparisonProgram() + pad)[21 := x][20 := 0], 6, 0, [], [], true, false, 2);
    PlainModes(v, 1008);
    Params2(v, s, 1008, x, 8);
    ComputeStep(v, s, 8, [x, 8], 20);
    LoopNext(v, s, t, fuel + 7, fuel + 6);
    Unveil(t);
    CompareBelowStep2(v, pad, x, fuel);
  }

  lemma CompareBelowStep2(v: Variant, pad: seq<int>, x: int, fuel: nat)
    requires x < 8
    ensures var (s, e) := Loop(v, Veiled(State((ComparisonProgram() + pad)[21 := x][20 := 0], 6, 0, [], [], true, false, 2)), fuel + 6);
      e == Halted && s.outputs == [999]
  {
    var s := State((ComparisonProgram() + pad)[21 := x][20 := 0], 6, 0, [], [], true, false, 2);
    Unveil(s);
    var t := State((ComparisonProgram() + pad)[21 := x][20 := 0], 9, 0, [], [], true, false, 3);
    PlainModes(v, 1005);
    Params2(v, s, 1005, 0, 22);
    JumpStep(v, s, 5, [0, 22]);
    LoopNext(v, s, t, fuel + 6, fuel + 5);
    Unveil(t);
    CompareBelowStep3(v, pad, x, fuel);
  }

  lemma CompareBelowStep3(v: Variant, pad: seq<int>, x: int, fuel: nat)
    requires x < 8
    ensures var (s, e) := Loop(v, Veiled(State((ComparisonProgram() + pad)[21 := x][20 := 0], 9, 0, [], [], true, false, 3)), fuel + 5);
      e == Halted && s.outputs == [999]
  {
    var s := State((ComparisonProgram() + pad)[21 := x][20 := 0], 9, 0, [], [], true, false, 3);
    Unveil(s);
    var t := State((ComparisonProgram() + pad)[21 := x][20 := 0][20 := 0], 13, 0, [], [], true, false, 4);
    PlainModes(v, 107);
    Params2(v, s, 107, 8, x);
    ComputeStep(v, s, 7, [8, x], 20);
    LoopNext(v, s, t, fuel + 5, fuel + 4);
    Unveil(t);
    CompareBelowStep4(v, pad, x, fuel);
  }

  lemma CompareBelowStep4(v: Variant, pad: seq<int>, x: int, fuel: nat)
    requires x < 8
    ensures var (s, e) := Loop(v, Veiled(State((ComparisonProgram() + pad)[21 := x][20 := 0][20 := 0], 13, 0, [], [], true, false, 4)), fuel + 4);
      e == Halted && s.outputs == [999]
  {
    var s := State((ComparisonProgram() + pad)[21 := x][20 := 0][20 := 0], 13, 0, [], [], true, false, 4);
    Unveil(s);
    var t := State((ComparisonProgram() + pad)[21 := x][20 := 0][20 := 0], 31, 0, [], [], true, false, 5);
    PlainModes(v, 1006);
    Params2(v, s, 1006, 0, 31);
    JumpStep(v, s, 6, [0, 31]);
    LoopNext(v, s, t, fuel + 4, fuel + 3);
    Unveil(t);
    CompareBelowStep5(v, pad, x, fuel);
  }

  lemma CompareBelowStep5(v: Variant, pad: seq<int>, x: int, fuel: nat)
    requires x < 8
    ensures var (s, e) := Loop(v, Veiled(State((ComparisonProgram() + pad)[21 := x][20 := 0][20 := 0], 31, 0, [], [], true, false, 5)), fuel + 3);
      e == Halted && s.outputs == [999]
  {
    var s := State((ComparisonProgram() + pad)[21 := x][20 := 0][20 := 0], 31, 0, [], [], true, false, 5);
    Unveil(s);
    var t := State((ComparisonProgram() + pad)[21 := x][20 := 0][20 := 0], 33, 0, [], [999], true, false, 6);
    PlainModes(v, 104);
    Params1(v, s, 104, 999);
    OutputStep(v, s, [999]);
    assert s.outputs + [999] == [999];
    LoopNext(v, s, t, fuel + 3, fuel + 2);
    Unveil(t);
    CompareBelowStep6(v, pad, x, fuel);
  }

  lemma CompareBelowStep6(v: Variant, pad: seq<int>, x: int, fuel: nat)
    requires x < 8
    ensures var (s, e) := Loop(v, Veiled(State((ComparisonProgram() + pad)[21 := x][20 := 0][20 := 0], 33, 0, [], [999], true, false, 6)), fuel + 2);
      e == Halted && s.outputs == [999]
  {
    var s := State((ComparisonProgram() + pad)[21 := x][20 := 0][20 := 0], 33, 0, [], [999], true, false, 6);
    Unveil(s);
    var t := State((ComparisonProgram() + pad)[21 := x][20 := 0][20 := 0], 46, 0, [], [999], true, false, 7);
    PlainModes(v, 1105);
    Params2(v, s, 1105, 1, 46);
    JumpStep(v, s, 5, [1, 46]);
    LoopNext(v, s, t, fuel + 2, fuel + 1);
    Unveil(t);
    CompareBelowStep7(v, pad, x, fuel);
  }

  lemma CompareBelowStep7(v: Variant, pad: seq<int>, x: int, fuel: nat)
    requires x < 8
    ensures var (s, e) := Loop(v, Veiled(State((ComparisonProgram() + pad)[21 := x][20 := 0][20 := 0], 46, 0, [], [999], true, false, 7)), fuel + 1);
      e == Halted && s.outputs == [999]
  {
    var s := State((ComparisonProgram() + pad)[21 := x][20 := 0][20 := 0], 46, 0, [], [999], true, false, 7);
    Unveil(s);
    assert Opcode(s) == Some(99);
    HaltStep(v, s, fuel + 1);
  }

  /** Input 8 prints 1000. */
  lemma CompareEqual(v: Variant, extra: nat)
    ensures var (s, e) := Execution(v, Prepared(v, ComparisonProgram(), [8]), extra + 7);
      e == Halted && s.outputs == [1000]
  {
    PreparedStarts(v, ComparisonProgram(), [8], extra + 7);
    Unveil(Started(ComparisonProgram() + Padding(v), [8]));
    CompareEqualStep0(v, Padding(v), extra);
  }

  lemma CompareEqualStep0(v: Variant, pad: seq<int>, fuel: nat)
    ensures var (s, e) := Loop(v, Veiled(Started(ComparisonProgram() + pad, [8])), fuel + 7);
      e == Halted && s.outputs == [1000]
  {
    var s := Started(ComparisonProgram() + pad, [8]);
    Unveil(s);
    var t := State((ComparisonProgram() + pad)[21 := 8], 2, 0, [], [], true, false, 1);
    PlainModes(v, 3);
    InputStep(v, s, 21);
    assert s.inputs[1..] == [];
    LoopNext(v, s, t, fuel + 7, fuel + 6);
    Unveil(t);
    CompareEqualStep1(v, pad, fuel);
  }

  lemma CompareEqualStep1(v: Variant, pad: seq<int>, fuel: nat)
    ensures var (s, e) := Loop(v, Veiled(State((ComparisonProgram() + pad)[21 := 8], 2, 0, [], [], true, false, 1)), fuel + 6);
      e == Halted && s.outputs == [1000]
  {
    var s := State((ComparisonProgram() + pad)[21 := 8], 2, 0, [], [], true, false, 1);
    Unveil(s);
    var t := State((ComparisonProgram() + pad)[21 := 8][20 := 1], 6, 0, [], [], true, false, 2);
    PlainModes(v, 1008);
    Params2(v, s, 1008, 8, 8);
    ComputeStep(v, s, 8, [8, 8], 20);
    LoopNext(v, s, t, fuel + 6, fuel + 5);
    Unveil(t);
    CompareEqualStep2(v, pad, fuel);
  }

  lemma CompareEqualStep2(v: Variant, pad: seq<int>, fuel: nat)
    ensures var (s, e) := Loop(v, Veiled(State((ComparisonProgram() + pad)[21 := 8][20 := 1], 6, 0, [], [], true, false, 2)), fuel + 5);
      e == Halted && s.outputs == [1000]
  {
    var s := State((ComparisonProgram() + pad)[21 := 8][20 := 1], 6, 0, [], [], true, false, 2);
    Unveil(s);
    var t := State((ComparisonProgram() + pad)[21 := 8][20 := 1], 22, 0, [], [], true, false, 3);
    PlainModes(v, 1005);
    Params2(v, s, 1005, 1, 22);
    JumpStep(v, s, 5, [1, 22]);
    LoopNext(v, s, t, fuel + 5, fuel + 4);
    Unveil(t);
    CompareEqualStep3(v, pad, fuel);
  }

  lemma CompareEqualStep3(v: Variant, pad: seq<int>, fuel: nat)
    ensures var (s, e) := Loop(v, Veiled(State((ComparisonProgram() + pad)[21 := 8][20 := 1], 22, 0, [], [], true, false, 3)), fuel + 4);
      e == Halted && s.outputs == [1000]
  {
    var s := State((ComparisonProgram() + pad)[21 := 8][20 := 1], 22, 0, [], [], true, false, 3);
    Unveil(s);
    var t := State((ComparisonProgram() + pad)[21 := 8][20 := 1][20 := 1000], 26, 0, [], [], true, false, 4);
    PlainModes(v, 1002);
    Params2(v, s, 1002, 8, 125);
    ComputeStep(v, s, 2, [8, 125], 20);
    LoopNext(v, s, t, fuel + 4, fuel + 3);
    Unveil(t);
    CompareEqualStep4(v, pad, fuel);
  }

  lemma CompareEqualStep4(v: Variant, pad: seq<int>, fuel: nat)
    ensures var (s, e) := Loop(v, Veiled(State((ComparisonProgram() + pad)[21 := 8][20 := 1][20 := 1000], 26, 0, [], [], true, false, 4)), fuel + 3);
      e == Halted && s.outputs == [1000]
  {
    var s := State((ComparisonProgram() + pad)[21 := 8][20 := 1][20 := 1000], 26, 0, [], [], true, false, 4);
    Unveil(s);
    var t := State((ComparisonProgram() + pad)[21 := 8][20 := 1][20 := 1000], 28, 0, [], [1000], true, false, 5);
    PlainModes(v, 4);
    Params1(v, s, 4, 1000);
    OutputStep(v, s, [1000]);
    assert s.outputs + [1000] == [1000];
    LoopNext(v, s, t, fuel + 3, fuel + 2);
    Unveil(t);
    CompareEqualStep5(v, pad, fuel);
  }

  lemma CompareEqualStep5(v: Variant, pad: seq<int>, fuel: nat)
    ensures var (s, e) := Loop(v, Veiled(State((ComparisonProgram() + pad)[21 := 8][20 := 1][20 := 1000], 28, 0, [], [1000], true, false, 5)), fuel + 2);
      e == Halted && s.outputs == [1000]
  {
    var s := State((ComparisonProgram() + pad)[21 := 8][20 := 1][20 := 1000], 28, 0, [], [1000], true, false, 5);
    Unveil(s);
    var t := State((ComparisonProgram() + pad)[21 := 8][20 := 1][20 := 1000], 46, 0, [], [1000], true, false, 6);
    PlainModes(v, 1105);
    Params2(v, s, 1105, 1, 46);
    JumpStep(v, s, 5, [1, 46]);
    LoopNext(v, s, t, fuel + 2, fuel + 1);
    Unveil(t);
    CompareEqualStep6(v, pad, fuel);
  }

  lemma CompareEqualStep6(v: Variant, pad: seq<int>, fuel: nat)
    ensures var (s, e) := Loop(v, Veiled(State((ComparisonProgram() + pad)[21 := 8][20 := 1][20 := 1000], 46, 0, [], [1000], true, false, 6)), fuel + 1);
      e == Halted && s.outputs == [1000]
  {
    var s := State((ComparisonProgram() + pad)[21 := 8][20 := 1][20 := 1000], 46, 0, [], [1000], true, false, 6);
    Unveil(s);
    assert Opcode(s) == Some(99);
    HaltStep(v, s, fuel + 1);
  }

  /** An input above 8 prints 1001. */
  lemma CompareAbove(v: Variant, x: int, extra: nat)
    requires x > 8
    ensures var (s, e) := Execution(v, Prepared(v, ComparisonProgram(), [x]), extra + 10);
      e == Halted && s.outputs == [1001]
  {
    PreparedStarts(v, ComparisonProgram(), [x], extra + 10);
    Unveil(Started(ComparisonProgram() + Padding(v), [x]));
    CompareAboveStep0(v, Padding(v), x, extra);
  }

  lemma CompareAboveStep0(v: Variant, pad: seq<int>, x: int, fuel: nat)
    requires x > 8
    ensures var (s, e) := Loop(v, Veiled(Started(ComparisonProgram() + pad, [x])), fuel + 10);
      e == Halted && s.outputs == [1001]
  {
    var s := Started(ComparisonProgram() + pad, [x]);
    Unveil(s);
    var t := State((ComparisonProgram() + pad)[21 := x], 2, 0, [], [], true, false, 1);
    PlainModes(v, 3);
    InputStep(v, s, 21);
    assert s.inputs[1..] == [];
    LoopNext(v, s, t, fuel + 10, fuel + 9);
    Unveil(t);
    CompareAboveStep1(v, pad, x, fuel);
  }

  lemma CompareAboveStep1(v: Variant, pad: seq<int>, x: int, fuel: nat)
    requires x > 8
    ensures var (s, e) := Loop(v, Veiled(State((ComparisonProgram() + pad)[21 := x], 2, 0, [], [], true, false, 1)), fuel + 9);
      e == Halted && s.outputs == [1001]
  {
    var s := State((ComparisonProgram() + pad)[21 := x], 2, 0, [], [], true, false, 1);
    Unveil(s);
    var t := State((ComparisonProgram() + pad)[21 := x][20 := 0], 6, 0, [], [], true, false, 2);
    PlainModes(v, 1008);
    Params2(v, s, 1008, x, 8);
    ComputeStep(v, s, 8, [x, 8], 20);
    LoopNext(v, s, t, fuel + 9, fuel + 8);
    Unveil(t);
    CompareAboveStep2(v, pad, x, fuel);
  }

  lemma CompareAboveStep2(v: Variant, pad: seq<int>, x: int, fuel: nat)
    requires x > 8
    ensures var (s, e) := Loop(v, Veiled(State((ComparisonProgram() + pad)[21 := x][20 := 0], 6, 0, [], [], true, false, 2)), fuel + 8);
      e == Halted && s.outputs == [1001]
  {
    var s := State((ComparisonProgram() + pad)[21 := x][20 := 0], 6, 0, [], [], true, false, 2);
    Unveil(s);
    var t := State((ComparisonProgram() + pad)[21 := x][20 := 0], 9, 0, [], [], true, false, 3);
    PlainModes(v, 1005);
    Params2(v, s, 1005, 0, 22);
    JumpStep(v, s, 5, [0, 22]);
    LoopNext(v, s, t, fuel + 8, fuel + 7);
    Unveil(t);
    CompareAboveStep3(v, pad, x, fuel);
  }

  lemma CompareAboveStep3(v: Variant, pad: seq<int>, x: int, fuel: nat)
    requires x > 8
    ensures var (s, e) := Loop(v, Veiled(State((ComparisonProgram() + pad)[21 := x][20 := 0], 9, 0, [], [], true, false, 3)), fuel + 7);
      e == Halted && s.outputs == [1001]
  {
    var s := State((ComparisonProgram() + pad)[21 := x][20 := 0], 9, 0, [], [], true, false, 3);
    Unveil(s);
    var t := State((ComparisonProgram() + pad)[21 := x][20 := 0][20 := 1], 13, 0, [], [], true, false, 4);
    PlainModes(v, 107);
    Params2(v, s, 107, 8, x);
    ComputeStep(v, s, 7, [8, x], 20);
    LoopNext(v, s, t, fuel + 7, fuel + 6);
    Unveil(t);
    CompareAboveStep4(v, pad, x, fuel);
  }

  lemma CompareAboveStep4(v: Variant, pad: seq<int>, x: int, fuel: nat)
    requires x > 8
    ensures var (s, e) := Loop(v, Veiled(State((ComparisonProgram() + pad)[21 := x][20 := 0][20 := 1], 13, 0, [], [], true, false, 4)), fuel + 6);
      e == Halted && s.outputs == [1001]
  {
    var s := State((ComparisonProgram() + pad)[21 := x][20 := 0][20 := 1], 13, 0, [], [], true, false, 4);
    Unveil(s);
    var t := State((ComparisonProgram() + pad)[21 := x][20 := 0][20 := 1], 16, 0, [], [], true, false, 5);
    PlainModes(v, 1006);
    Params2(v, s, 1006, 1, 31);
    JumpStep(v, s, 6, [1, 31]);
    LoopNext(v, s, t, fuel + 6, fuel + 5);
    Unveil(t);
    CompareAboveStep5(v, pad, x, fuel);
  }

  lemma CompareAboveStep5(v: Variant, pad: seq<int>, x: int, fuel: nat)
    requires x > 8
    ensures var (s, e) := Loop(v, Veiled(State((ComparisonProgram() + pad)[21 := x][20 := 0][20 := 1], 16, 0, [], [], true, false, 5)), fuel + 5);
      e == Halted && s.outputs == [1001]
  {
    var s := State((ComparisonProgram() + pad)[21 := x][20 := 0][20 := 1], 16, 0, [], [], true, false, 5);
    Unveil(s);
    var t := State((ComparisonProgram() + pad)[21 := x][20 := 0][20 := 1], 36, 0, [], [], true, false, 6);
    PlainModes(v, 1106);
    Params2(v, s, 1106, 0, 36);
    JumpStep(v, s, 6, [0, 36]);
    LoopNext(v, s, t, fuel + 5, fuel + 4);
    Unveil(t);
    CompareAboveStep6(v, pad, x, fuel);
  }

  lemma CompareAboveStep6(v: Variant, pad: seq<int>, x: int, fuel: nat)
    requires x > 8
    ensures var (s, e) := Loop(v, Veiled(State((ComparisonProgram() + pad)[21 := x][20 := 0][20 := 1], 36, 0, [], [], true, false, 6)), fuel + 4);
      e == Halted && s.outputs == [1001]
  {
    var s := State((ComparisonProgram() + pad)[21 := x][20 := 0][20 := 1], 36, 0, [], [], true, false, 6);
    Unveil(s);
    var t := State((ComparisonProgram() + pad)[21 := x][20 := 0][20 := 1][20 := 1001], 40, 0, [], [], true, false, 7);
    PlainModes(v, 1101);
    Params2(v, s, 1101, 1000, 1);
    ComputeStep(v, s, 1, [1000, 1], 20);
    LoopNext(v, s, t, fuel + 4, fuel + 3);
    Unveil(t);
    CompareAboveStep7(v, pad, x, fuel);
  }

  lemma CompareAboveStep7(v: Variant, pad: seq<int>, x: int, fuel: nat)
    requires x > 8
    ensures var (s, e) := Loop(v, Veiled(State((ComparisonProgram() + pad)[21 := x][20 := 0][20 := 1][20 := 1001], 40, 0, [], [], true, false, 7)), fuel + 3);
      e == Halted && s.outputs == [1001]
  {
    var s := State((ComparisonProgram() + pad)[21 := x][20 := 0][20 := 1][20 := 1001], 40, 0, [], [], true, false, 7);
    Unveil(s);
    var t := State((ComparisonProgram() + pad)[21 := x][20 := 0][20 := 1][20 := 1001], 42, 0, [], [1001], true, false, 8);
    PlainModes(v, 4);
    Params1(v, s, 4, 1001);
    OutputStep(v, s, [1001]);
    assert s.outputs + [1001] == [1001];
    LoopNext(v, s, t, fuel + 3, fuel + 2);
    Unveil(t);
    CompareAboveStep8(v, pad, x, fuel);
  }

  lemma CompareAboveStep8(v: Variant, pad: seq<int>, x: int, fuel: nat)
    requires x > 8
    ensures var (s, e) := Loop(v, Veiled(State((ComparisonProgram() + pad)[21 := x][20 := 0][20 := 1][20 := 1001], 42, 0, [], [1001], true, false, 8)), fuel + 2);
      e == Halted && s.outputs == [1001]
  {
    var s := State((ComparisonProgram() + pad)[21 := x][20 := 0][20 := 1][20 := 1001], 42, 0, [], [1001], true, false, 8);
    Unveil(s);
    var t := State((ComparisonProgram() + pad)[21 := x][20 := 0][20 := 1][20 := 1001], 46, 0, [], [1001], true, false, 9);
    PlainModes(v, 1105);
    Params2(v, s, 1105, 1, 46);
    JumpStep(v, s, 5, [1, 46]);
    LoopNext(v, s, t, fuel + 2, fuel + 1);
    Unveil(t);
    CompareAboveStep9(v, pad, x, fuel);
  }

  lemma CompareAboveStep9(v: Variant, pad: seq<int>, x: int, fuel: nat)
    requires x > 8
    ensures var (s, e) := Loop(v, Veiled(State((ComparisonProgram() + pad)[21 := x][20 := 0][20 := 1][20 := 1001], 46, 0, [], [1001], true, false, 9)), fuel + 1);
      e == Halted && s.outputs == [1001]
  {
    var s := State((ComparisonProgram() + pad)[21 := x][20 := 0][20 := 1][20 := 1001], 46, 0, [], [1001], true, false, 9);
    Unveil(s);
    assert Opcode(s) == Some(99);
    HaltStep(v, s, fuel + 1);
  }

  /** `day 9 (16-digit number)`: the square is printed. */
  lemma SixteenDigitSquare(v: Variant, extra: nat)
    ensures var (s, e) := Execution(v, Prepared(v, SixteenDigitProgram(), []), extra + 3);
      e == Halted && s.outputs == [1219070632396864]
  {
    PreparedStarts(v, SixteenDigitProgram(), [], extra + 3);
    Unveil(Started(SixteenDigitProgram() + Padding(v), []));
    SixteenDigitSquareStep0(v, Padding(v), extra);
  }

  lemma SixteenDigitSquareStep0(v: Variant, pad: seq<int>, fuel: nat)
    ensures var (s, e) := Loop(v, Veiled(Started(SixteenDigitProgram() + pad, [])), fuel + 3);
      e == Halted && s.outputs == [1219070632396864]
  {
    var s := Started(SixteenDigitProgram() + pad, []);
    Unveil(s);
    var t := State((SixteenDigitProgram() + pad)[7 := 1219070632396864], 4, 0, [], [], true, false, 1);
    PlainModes(v, 1102);
    Params2(v, s, 1102, 34915192, 34915192);
    ComputeStep(v, s, 2, [34915192, 34915192], 7);
    LoopNext(v, s, t, fuel + 3, fuel + 2);
    Unveil(t);
    SixteenDigitSquareStep1(v, pad, fuel);
  }

  lemma SixteenDigitSquareStep1(v: Variant, pad: seq<int>, fuel: nat)
    ensures var (s, e) := Loop(v, Veiled(State((SixteenDigitProgram() + pad)[7 := 1219070632396864], 4, 0, [], [], true, false, 1)), fuel + 2);
      e == Halted && s.outputs == [1219070632396864]
  {
    var s := State((SixteenDigitProgram() + pad)[7 := 1219070632396864], 4, 0, [], [], true, false, 1);
    Unveil(s);
    var t := State((SixteenDigitProgram() + pad)[7 := 1219070632396864], 6, 0, [], [1219070632396864], true, false, 2);
    PlainModes(v, 4);
    Params1(v, s, 4, 1219070632396864);
    OutputStep(v, s, [1219070632396864]);
    assert s.outputs + [1219070632396864] == [1219070632396864];
    LoopNext(v, s, t, fuel + 2, fuel + 1);
    Unveil(t);
    SixteenDigitSquareStep2(v, pad, fuel);
  }

  lemma SixteenDigitSquareStep2(v: Variant, pad: seq<int>, fuel: nat)
    ensures var (s, e) := Loop(v, Veiled(State((SixteenDigitProgram() + pad)[7 := 1219070632396864], 6, 0, [], [1219070632396864], true, false, 2)), fuel + 1);
      e == Halted && s.outputs == [1219070632396864]
  {
    var s := State((SixteenDigitProgram() + pad)[7 := 1219070632396864], 6, 0, [], [1219070632396864], true, false, 2);
    Unveil(s);
    assert Opcode(s) == Some(99);
    HaltStep(v, s, fuel + 1);
  }

  /** `day 9 (16-digit number)`: one value is printed, and it has 16
      decimal digits. */
  lemma SixteenDigits(v: Variant, extra: nat)
    ensures var (s, e) := Execution(v, Prepared(v, SixteenDigitProgram(), []), extra + 3);
      e == Halted && |s.outputs| == 1 && |IntToString(s.outputs[0])| == 16
  {
    SixteenDigitSquare(v, extra);
    SixteenDigitLength(1219070632396864);
  }

  /** `day 9 (large number)`: the large word is printed unchanged. */
  lemma LargeNumber(v: Variant, extra: nat)
    ensures var (s, e) := Execution(v, Prepared(v, LargeNumberProgram(), []), extra + 2);
      e == Halted && s.outputs == [1125899906842624]
  {
    PreparedStarts(v, LargeNumberProgram(), [], extra + 2);
    Unveil(Started(LargeNumberProgram() + Padding(v), []));
    LargeNumberStep0(v, Padding(v), extra);
  }

  lemma LargeNumberStep0(v: Variant, pad: seq<int>, fuel: nat)
    ensures var (s, e) := Loop(v, Veiled(Started(LargeNumberProgram() + pad, [])), fuel + 2);
      e == Halted && s.outputs == [1125899906842624]
  {
    var s := Started(LargeNumberProgram() + pad, []);
    Unveil(s);
    var t := State(LargeNumberProgram() + pad, 2, 0, [], [1125899906842624], true, false, 1);
    PlainModes(v, 104);
    Params1(v, s, 104, 1125899906842624);
    OutputStep(v, s, [1125899906842624]);
    assert s.outputs + [1125899906842624] == [1125899906842624];
    LoopNext(v, s, t, fuel + 2, fuel + 1);
    Unveil(t);
    LargeNumberStep1(v, pad, fuel);
  }

  lemma LargeNumberStep1(v: Variant, pad: seq<int>, fuel: nat)
    ensures var (s, e) := Loop(v, Veiled(State(LargeNumberProgram() + pad, 2, 0, [], [1125899906842624], true, false, 1)), fuel + 1);
      e == Halted && s.outputs == [1125899906842624]
  {
    var s := State(LargeNumberProgram() + pad, 2, 0, [], [1125899906842624], true, false, 1);
    Unveil(s);
    assert Opcode(s) == Some(99);
    HaltStep(v, s, fuel + 1);
  }

  /** `is non-zero (position mode)`, for every input: it prints 1 for a
      nonzero input and 0 for 0. */
  lemma PositionNonZero(v: Variant, x: int, extra: nat)
    ensures var (s, e) := Execution(v, Prepared(v, PositionNonZeroProgram(), [x]), extra + 5);
      e == Halted && s.outputs == [if x != 0 then 1 else 0]
  {
    if x != 0 {
      PositionNonZeroHolds(v, x, extra + 0);
    } else {
      PositionNonZeroFails(v, extra + 1);
    }
  }

  /** `is non-zero (immediate mode)`, for every input. */
  lemma ImmediateNonZero(v: Variant, x: int, extra: nat)
    ensures var (s, e) := Execution(v, Prepared(v, ImmediateNonZeroProgram(), [x]), extra + 5);
      e == Halted && s.outputs == [if x != 0 then 1 else 0]
  {
    if x != 0 {
      ImmediateNonZeroHolds(v, x, extra + 1);
    } else {
      ImmediateNonZeroFails(v, extra + 0);
    }
  }

  /** The day 5 comparison, for every input: 999 below 8, 1000 at 8 and
      1001 above (the test cases use 4, 8 and 10). */
  lemma CompareWithEight(v: Variant, x: int, extra: nat)
    ensures var (s, e) := Execution(v, Prepared(v, ComparisonProgram(), [x]), extra + 10);
      e == Halted && s.outputs == [if x < 8 then 999 else if x == 8 then 1000 else 1001]
  {
    if x < 8 {
      CompareBelow(v, x, extra + 2);
    } else if x == 8 {
      CompareEqual(v, extra + 3);
    } else {
      CompareAbove(v, x, extra + 0);
    }
  }

  // ---------------------------------------------------------------------
  // `day 9 (quine)`: sixteen rounds of five steps, one round per lemma call.

  /** Prints its own sixteen words: each round moves the base up by one,
      prints the word just below the base, counts the rounds at address
      100 and stops after the sixteenth (the flag at address 101). */
  function QuineProgram(): seq<int> {
    ([109, 1, 204, -1, 1001, 100] + [1, 100, 1008, 100, 16, 101]) + [1006, 101, 0, 99]
  }

  /** Zero cells after the program, reaching far enough for addresses 100
      and 101, as day 9's padding provides. */
  predicate QuineRoom(pad: seq<int>) {
    |pad| >= 86 && pad[84] == 0 && pad[85] == 0
  }

  /** Memory after k rounds: the count k at address 100, the flag clear. */
  function QuineMemory(pad: seq<int>, k: int): seq<int>
    requires |pad| >= 86
  {
    (QuineProgram() + pad)[100 := k][101 := 0]
  }

  /** The top of round k: ip 0, the base at k, the first k words printed. */
  function QuineRound(pad: seq<int>, k: nat): State
    requires |pad| >= 86 && k <= 16
  {
    State(QuineMemory(pad, k), 0, k, [], QuineProgram()[..k], true, false, 5 * k)
  }

  function QuineAfterBase(pad: seq<int>, k: nat): State
    requires |pad| >= 86 && k <= 15
  {
    State(QuineMemory(pad, k), 2, k + 1, [], QuineProgram()[..k], true, false, 5 * k + 1)
  }

  function QuineAfterOutput(pad: seq<int>, k: nat): State
    requires |pad| >= 86 && k <= 15
  {
    State(QuineMemory(pad, k), 4, k + 1, [], QuineProgram()[..k + 1], true, false, 5 * k + 2)
  }

  function QuineAfterCount(pad: seq<int>, k: nat): State
    requires |pad| >= 86 && k <= 15
  {
    State(QuineMemory(pad, k + 1), 8, k + 1, [], QuineProgram()[..k + 1], true, false, 5 * k + 3)
  }

  function QuineAfterTest(pad: seq<int>, k: nat): State
    requires |pad| >= 86 && k <= 15
  {
    State(QuineMemory(pad, k + 1)[101 := if k == 15 then 1 else 0], 12, k + 1, [], QuineProgram()[..k + 1],
          true, false, 5 * k + 4)
  }

  /** After the sixteenth round the jump falls through to the halt. */
  function QuineEnd(pad: seq<int>): State
    requires |pad| >= 86
  {
    State(QuineMemory(pad, 16)[101 := 1], 15, 16, [], QuineProgram(), true, false, 80)
  }

  lemma QuineStarts(pad: seq<int>)
    requires QuineRoom(pad)
    ensures QuineRound(pad, 0) == Started(QuineProgram() + pad, [])
  {
    var m := QuineProgram() + pad;
    assert m[100] == 0 && m[101] == 0;
    assert m[100 := 0][101 := 0] == m;
  }

  /** The program's own cells are never written. */
  lemma QuineMemoryReads(pad: seq<int>, k: int, i: int)
    requires |pad| >= 86 && 0 <= i < 16
    ensures Get(QuineMemory(pad, k), i) == Some(QuineProgram()[i])
  {
  }

  lemma PrefixGrows(xs: seq<int>, k: nat)
    requires k < |xs|
    ensures xs[..k] + [xs[k]] == xs[..k + 1]
  {
  }

  lemma QuineCounted(pad: seq<int>, k: int)
    requires |pad| >= 86
    ensures QuineMemory(pad, k)[100 := k + 1] == QuineMemory(pad, k + 1)
  {
  }

  lemma QuineFlagClear(pad: seq<int>, k: int)
    requires |pad| >= 86
    ensures QuineMemory(pad, k)[101 := 0] == QuineMemory(pad, k)
  {
  }

  /** `relative_base_offset 1`. */
  lemma QuineBaseStep(pad: seq<int>, k: nat, fuel: nat)
    requires QuineRoom(pad) && k <= 15
    ensures Loop(RelativeModes, Veiled(QuineRound(pad, k)), fuel + 1)
      == Loop(RelativeModes, Veiled(QuineAfterBase(pad, k)), fuel)
  {
    var s := QuineRound(pad, k);
    var t := QuineAfterBase(pad, k);
    Unveil(s);
    Unveil(t);
    PlainModes(RelativeModes, 109);
    Params1(RelativeModes, s, 109, 1);
    BaseStep(RelativeModes, s, [1]);
    LoopNext(RelativeModes, s, t, fuel + 1, fuel);
  }

  /** `output` in relative mode, offset -1: word k of the program. */
  lemma QuineOutputStep(pad: seq<int>, k: nat, fuel: nat)
    requires QuineRoom(pad) && k <= 15
    ensures Loop(RelativeModes, Veiled(QuineAfterBase(pad, k)), fuel + 1)
      == Loop(RelativeModes, Veiled(QuineAfterOutput(pad, k)), fuel)
  {
    var s := QuineAfterBase(pad, k);
    var t := QuineAfterOutput(pad, k);
    Unveil(s);
    Unveil(t);
    PlainModes(RelativeModes, 204);
    QuineMemoryReads(pad, k, k);
    Params1(RelativeModes, s, 204, QuineProgram()[k]);
    OutputStep(RelativeModes, s, [QuineProgram()[k]]);
    PrefixGrows(QuineProgram(), k);
    LoopNext(RelativeModes, s, t, fuel + 1, fuel);
  }

  /** `add` the count and 1 into address 100. */
  lemma QuineCountStep(pad: seq<int>, k: nat, fuel: nat)
    requires QuineRoom(pad) && k <= 15
    ensures Loop(RelativeModes, Veiled(QuineAfterOutput(pad, k)), fuel + 1)
      == Loop(RelativeModes, Veiled(QuineAfterCount(pad, k)), fuel)
  {
    var s := QuineAfterOutput(pad, k);
    var t := QuineAfterCount(pad, k);
    Unveil(s);
    Unveil(t);
    PlainModes(RelativeModes, 1001);
    Params2(RelativeModes, s, 1001, k, 1);
    ComputeStep(RelativeModes, s, 1, [k, 1], 100);
    QuineCounted(pad, k);
    LoopNext(RelativeModes, s, t, fuel + 1, fuel);
  }

  /** `set_if_equal` the count and 16 into address 101. */
  lemma QuineTestStep(pad: seq<int>, k: nat, fuel: nat)
    requires QuineRoom(pad) && k <= 15
    ensures Loop(RelativeModes, Veiled(QuineAfterCount(pad, k)), fuel + 1)
      == Loop(RelativeModes, Veiled(QuineAfterTest(pad, k)), fuel)
  {
    var s := QuineAfterCount(pad, k);
    var t := QuineAfterTest(pad, k);
    Unveil(s);
    Unveil(t);
    PlainModes(RelativeModes, 1008);
    Params2(RelativeModes, s, 1008, k + 1, 16);
    ComputeStep(RelativeModes, s, 8, [k + 1, 16], 101);
    LoopNext(RelativeModes, s, t, fuel + 1, fuel);
  }

  /** `jump_if_false` on the clear flag, back to address 0. */
  lemma QuineRepeatStep(pad: seq<int>, k: nat, fuel: nat)
    requires QuineRoom(pad) && k < 15
    ensures Loop(RelativeModes, Veiled(QuineAfterTest(pad, k)), fuel + 1)
      == Loop(RelativeModes, Veiled(QuineRound(pad, k + 1)), fuel)
  {
    var s := QuineAfterTest(pad, k);
    var t := QuineRound(pad, k + 1);
    Unveil(s);
    Unveil(t);
    QuineFlagClear(pad, k + 1);
    PlainModes(RelativeModes, 1006);
    Params2(RelativeModes, s, 1006, 0, 0);
    JumpStep(RelativeModes, s, 6, [0, 0]);
    LoopNext(RelativeModes, s, t, fuel + 1, fuel);
  }

  /** After round 16 the flag is set and the jump is not taken. */
  lemma QuineFallThrough(pad: seq<int>, fuel: nat)
    requires QuineRoom(pad)
    ensures Loop(RelativeModes, Veiled(QuineAfterTest(pad, 15)), fuel + 1)
      == Loop(RelativeModes, Veiled(QuineEnd(pad)), fuel)
  {
    var s := QuineAfterTest(pad, 15);
    var t := QuineEnd(pad);
    Unveil(s);
    Unveil(t);
    PlainModes(RelativeModes, 1006);
    Params2(RelativeModes, s, 1006, 1, 0);
    JumpStep(RelativeModes, s, 6, [1, 0]);
    LoopNext(RelativeModes, s, t, fuel + 1, fuel);
  }

  lemma QuineHalts(pad: seq<int>, fuel: nat)
    requires QuineRoom(pad)
    ensures Loop(RelativeModes, Veiled(QuineEnd(pad)), fuel + 1)
      == (QuineEnd(pad).(running := false, steps := 81), Halted)
  {
    var s := QuineEnd(pad);
    Unveil(s);
    assert Opcode(s) == Some(99);
    HaltStep(RelativeModes, s, fuel + 1);
  }

  /** The first four steps of a round. */
  lemma QuineRoundSteps(pad: seq<int>, k: nat, fuel: nat)
    requires QuineRoom(pad) && k <= 15
    ensures Loop(RelativeModes, Veiled(QuineRound(pad, k)), fuel + 4)
      == Loop(RelativeModes, Veiled(QuineAfterTest(pad, k)), fuel)
  {
    QuineBaseStep(pad, k, fuel + 3);
    QuineOutputStep(pad, k, fuel + 2);
    QuineCountStep(pad, k, fuel + 1);
    QuineTestStep(pad, k, fuel);
  }

  /** A round that does not end the run leads to the top of the next. */
  lemma QuineNextRound(pad: seq<int>, k: nat, j: nat, extra: nat)
    requires QuineRoom(pad) && k < 15 && j == k + 1
    ensures Loop(RelativeModes, Veiled(QuineRound(pad, k)), extra + 5 * (16 - k) + 1)
      == Loop(RelativeModes, Veiled(QuineRound(pad, j)), extra + 5 * (16 - j) + 1)
  {
    var next := extra + 5 * (16 - j) + 1;
    assert extra + 5 * (16 - k) + 1 == next + 1 + 4;
    QuineRoundSteps(pad, k, next + 1);
    QuineRepeatStep(pad, k, next);
  }

  /** The sixteenth round prints the last word and halts. */
  lemma QuineLastRound(pad: seq<int>, extra: nat)
    requires QuineRoom(pad)
    ensures Loop(RelativeModes, Veiled(QuineRound(pad, 15)), extra + 6)
      == (QuineEnd(pad).(running := false, steps := 81), Halted)
  {
    assert extra + 6 == extra + 1 + 1 + 4;
    QuineRoundSteps(pad, 15, extra + 1 + 1);
    QuineFallThrough(pad, extra + 1);
    QuineHalts(pad, extra);
  }

  /** From the top of round k the run prints the whole program and halts. */
  lemma {:induction false} QuineFrom(pad: seq<int>, k: nat, extra: nat)
    requires QuineRoom(pad) && k <= 15
    ensures Loop(RelativeModes, Veiled(QuineRound(pad, k)), extra + 5 * (16 - k) + 1)
      == (QuineEnd(pad).(running := false, steps := 81), Halted)
    decreases 15 - k
  {
    if k < 15 {
      var j := k + 1;
      QuineNextRound(pad, k, j, extra);
      QuineFrom(pad, j, extra);
    } else {
      assert k == 15;
      assert extra + 5 * (16 - k) + 1 == extra + 6;
      QuineLastRound(pad, extra);
    }
  }

  /** `day 9 (quine)`: the outputs are the program itself. */
  lemma Quine(extra: nat)
    ensures var (s, e) := Execution(RelativeModes, Prepared(RelativeModes, QuineProgram(), []), extra + 81);
      e == Halted && s.outputs == QuineProgram()
  {
    var pad := Padding(RelativeModes);
    PreparedStarts(RelativeModes, QuineProgram(), [], extra + 81);
    QuineStarts(pad);
    Unveil(QuineRound(pad, 0));
    assert extra + 81 == extra + 5 * (16 - 0) + 1;
    QuineFrom(pad, 0, extra);
  }
}
