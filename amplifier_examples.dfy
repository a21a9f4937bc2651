/** The three day 7 part 1 samples, replayed pass by pass with the phase
    and the incoming signal left symbolic; a chain lemma then threads the
    five stages of each sample. */
module SeriesAmplifierExamples {
  import opened DiagnosticIntcode
  import opened SeriesAmplifiers

  /** Sample 3's flag: whether phase - 2 is negative. */
  function Below2(p: int): int {
    if p - 2 < 0 then 1 else 0
  }

  /** The program of sample 1. */
  function SeriesProgram1(): seq<int> {
    (([3, 15, 3, 16, 1002, 16] + [10, 16, 1, 16, 15, 15]) + [4, 15, 99, 0, 0])
  }

  /** Its memory during a stage, with cells 15, 16 as given. */
  function Series1Memory(c15: int, c16: int): seq<int> {
    (([3, 15, 3, 16, 1002, 16] + [10, 16, 1, 16, 15, 15]) + [4, 15, 99, c15, c16])
  }

  lemma SeriesProgram1IsMemory()
    ensures SeriesProgram1() == Series1Memory(0, 0)
  {
  }

  // Sample 1 from each instruction of a stage to the 99 at 14, one pass per lemma.

  lemma Series1At0(p: int, s: int, fuel: nat)
    requires fuel >= 5
    ensures Exec(EightOpcodes, Machine(Series1Memory(0, 0), 0, [p, s], []), fuel)
      == (Machine(Series1Memory(s * 10 + p, s * 10), 14, [], [s * 10 + p]), Halted)
  {
    var m0 := Machine(Series1Memory(0, 0), 0, [p, s], []);
    var m1 := Machine(Series1Memory(p, 0), 2, [s], []);
    InputStep(EightOpcodes, m0);
    assert m0.inputs[1..] == [s];
    assert m0.mem[15 := p] == m1.mem;
    ExecNext(EightOpcodes, m0, m1, fuel);
    Series1At2(p, s, fuel - 1);
  }

  lemma Series1At2(p: int, s: int, fuel: nat)
    requires fuel >= 4
    ensures Exec(EightOpcodes, Machine(Series1Memory(p, 0), 2, [s], []), fuel)
      == (Machine(Series1Memory(s * 10 + p, s * 10), 14, [], [s * 10 + p]), Halted)
  {
    var m0 := Machine(Series1Memory(p, 0), 2, [s], []);
    var m1 := Machine(Series1Memory(p, s), 4, [], []);
    InputStep(EightOpcodes, m0);
    assert m0.inputs[1..] == [];
    assert m0.mem[16 := s] == m1.mem;
    ExecNext(EightOpcodes, m0, m1, fuel);
    Series1At4(p, s, fuel - 1);
  }

  lemma Series1At4(p: int, s: int, fuel: nat)
    requires fuel >= 3
    ensures Exec(EightOpcodes, Machine(Series1Memory(p, s), 4, [], []), fuel)
      == (Machine(Series1Memory(s * 10 + p, s * 10), 14, [], [s * 10 + p]), Halted)
  {
    var m0 := Machine(Series1Memory(p, s), 4, [], []);
    var m1 := Machine(Series1Memory(p, s * 10), 8, [], []);
    ComputeStep(EightOpcodes, m0, s, 10);
    assert m0.mem[16 := s * 10] == m1.mem;
    ExecNext(EightOpcodes, m0, m1, fuel);
    Series1At8(p, s, fuel - 1);
  }

  lemma Series1At8(p: int, s: int, fuel: nat)
    requires fuel >= 2
    ensures Exec(EightOpcodes, Machine(Series1Memory(p, s * 10), 8, [], []), fuel)
      == (Machine(Series1Memory(s * 10 + p, s * 10), 14, [], [s * 10 + p]), Halted)
  {
    var m0 := Machine(Series1Memory(p, s * 10), 8, [], []);
    var m1 := Machine(Series1Memory(s * 10 + p, s * 10), 12, [], []);
    ComputeStep(EightOpcodes, m0, s * 10, p);
    assert m0.mem[15 := s * 10 + p] == m1.mem;
    ExecNext(EightOpcodes, m0, m1, fuel);
    Series1At12(p, s, fuel - 1);
  }

  lemma Series1At12(p: int, s: int, fuel: nat)
    requires fuel >= 1
    ensures Exec(EightOpcodes, Machine(Series1Memory(s * 10 + p, s * 10), 12, [], []), fuel)
      == (Machine(Series1Memory(s * 10 + p, s * 10), 14, [], [s * 10 + p]), Halted)
  {
    var m0 := Machine(Series1Memory(s * 10 + p, s * 10), 12, [], []);
    var m1 := Machine(Series1Memory(s * 10 + p, s * 10), 14, [], [s * 10 + p]);
    OutputStep(EightOpcodes, m0, s * 10 + p);
    ExecNext(EightOpcodes, m0, m1, fuel);
  }

  /** A stage of sample 1 appends its phase as a decimal digit to the signal. */
  lemma Series1Stage(p: int, s: int, fuel: nat)
    requires fuel >= 5
    ensures Stage(SeriesProgram1(), p, s, fuel) == Signal(s * 10 + p)
  {
    SeriesProgram1IsMemory();
    Series1At0(p, s, fuel);
  }

  lemma Series1Combination(fuel: nat)
    requires fuel >= 5
    ensures AmplifierCombination(SeriesProgram1(), [4, 3, 2, 1, 0], fuel) == Signal(43210)
  {
    Series1Stage(4, 0, fuel);
    Series1Stage(3, 4, fuel);
    Series1Stage(2, 43, fuel);
    Series1Stage(1, 432, fuel);
    Series1Stage(0, 4321, fuel);
  }

  /** The program of sample 2. */
  function SeriesProgram2(): seq<int> {
    ((([3, 23, 3, 24, 1002, 24] + [10, 24, 1002, 23, -1, 23]) + [101, 5, 23, 23, 1, 24]) + ([23, 23, 4, 23, 99, 0] + [0]))
  }

  /** Its memory during a stage, with cells 23, 24 as given. */
  function Series2Memory(c23: int, c24: int): seq<int> {
    ((([3, 23, 3, 24, 1002, 24] + [10, 24, 1002, 23, -1, 23]) + [101, 5, 23, 23, 1, 24]) + ([23, 23, 4, 23, 99, c23] + [c24]))
  }

  lemma SeriesProgram2IsMemory()
    ensures SeriesProgram2() == Series2Memory(0, 0)
  {
  }

  // Sample 2 from each instruction of a stage to the 99 at 22, one pass per lemma.

  lemma Series2At0(p: int, s: int, fuel: nat)
    requires fuel >= 7
    ensures Exec(EightOpcodes, Machine(Series2Memory(0, 0), 0, [p, s], []), fuel)
      == (Machine(Series2Memory(s * 10 + (5 + p * -1), s * 10), 22, [], [s * 10 + (5 + p * -1)]), Halted)
  {
    var m0 := Machine(Series2Memory(0, 0), 0, [p, s], []);
    var m1 := Machine(Series2Memory(p, 0), 2, [s], []);
    InputStep(EightOpcodes, m0);
    assert m0.inputs[1..] == [s];
    assert m0.mem[23 := p] == m1.mem;
    ExecNext(EightOpcodes, m0, m1, fuel);
    Series2At2(p, s, fuel - 1);
  }

  lemma Series2At2(p: int, s: int, fuel: nat)
    requires fuel >= 6
    ensures Exec(EightOpcodes, Machine(Series2Memory(p, 0), 2, [s], []), fuel)
      == (Machine(Series2Memory(s * 10 + (5 + p * -1), s * 10), 22, [], [s * 10 + (5 + p * -1)]), Halted)
  {
    var m0 := Machine(Series2Memory(p, 0), 2, [s], []);
    var m1 := Machine(Series2Memory(p, s), 4, [], []);
    InputStep(EightOpcodes, m0);
    assert m0.inputs[1..] == [];
    assert m0.mem[24 := s] == m1.mem;
    ExecNext(EightOpcodes, m0, m1, fuel);
    Series2At4(p, s, fuel - 1);
  }

  lemma Series2At4(p: int, s: int, fuel: nat)
    requires fuel >= 5
    ensures Exec(EightOpcodes, Machine(Series2Memory(p, s), 4, [], []), fuel)
      == (Machine(Series2Memory(s * 10 + (5 + p * -1), s * 10), 22, [], [s * 10 + (5 + p * -1)]), Halted)
  {
    var m0 := Machine(Series2Memory(p, s), 4, [], []);
    var m1 := Machine(Series2Memory(p, s * 10), 8, [], []);
    ComputeStep(EightOpcodes, m0, s, 10);
    assert m0.mem[24 := s * 10] == m1.mem;
    ExecNext(EightOpcodes, m0, m1, fuel);
    Series2At8(p, s, fuel - 1);
  }

  lemma Series2At8(p: int, s: int, fuel: nat)
    requires fuel >= 4
    ensures Exec(EightOpcodes, Machine(Series2Memory(p, s * 10), 8, [], []), fuel)
      == (Machine(Series2Memory(s * 10 + (5 + p * -1), s * 10), 22, [], [s * 10 + (5 + p * -1)]), Halted)
  {
    var m0 := Machine(Series2Memory(p, s * 10), 8, [], []);
    var m1 := Machine(Series2Memory(p * -1, s * 10), 12, [], []);
    ComputeStep(EightOpcodes, m0, p, -1);
    assert m0.mem[23 := p * -1] == m1.mem;
    ExecNext(EightOpcodes, m0, m1, fuel);
    Series2At12(p, s, fuel - 1);
  }

  lemma Series2At12(p: int, s: int, fuel: nat)
    requires fuel >= 3
    ensures Exec(EightOpcodes, Machine(Series2Memory(p * -1, s * 10), 12, [], []), fuel)
      == (Machine(Series2Memory(s * 10 + (5 + p * -1), s * 10), 22, [], [s * 10 + (5 + p * -1)]), Halted)
  {
    var m0 := Machine(Series2Memory(p * -1, s * 10), 12, [], []);
    var m1 := Machine(Series2Memory(5 + p * -1, s * 10), 16, [], []);
    ComputeStep(EightOpcodes, m0, 5, p * -1);
    assert m0.mem[23 := 5 + p * -1] == m1.mem;
    ExecNext(EightOpcodes, m0, m1, fuel);
    Series2At16(p, s, fuel - 1);
  }

  lemma Series2At16(p: int, s: int, fuel: nat)
    requires fuel >= 2
    ensures Exec(EightOpcodes, Machine(Series2Memory(5 + p * -1, s * 10), 16, [], []), fuel)
      == (Machine(Series2Memory(s * 10 + (5 + p * -1), s * 10), 22, [], [s * 10 + (5 + p * -1)]), Halted)
  {
    var m0 := Machine(Series2Memory(5 + p * -1, s * 10), 16, [], []);
    var m1 := Machine(Series2Memory(s * 10 + (5 + p * -1), s * 10), 20, [], []);
    ComputeStep(EightOpcodes, m0, s * 10, 5 + p * -1);
    assert m0.mem[23 := s * 10 + (5 + p * -1)] == m1.mem;
    ExecNext(EightOpcodes, m0, m1, fuel);
    Series2At20(p, s, fuel - 1);
  }

  lemma Series2At20(p: int, s: int, fuel: nat)
    requires fuel >= 1
    ensures Exec(EightOpcodes, Machine(Series2Memory(s * 10 + (5 + p * -1), s * 10), 20, [], []), fuel)
      == (Machine(Series2Memory(s * 10 + (5 + p * -1), s * 10), 22, [], [s * 10 + (5 + p * -1)]), Halted)
  {
    var m0 := Machine(Series2Memory(s * 10 + (5 + p * -1), s * 10), 20, [], []);
    var m1 := Machine(Series2Memory(s * 10 + (5 + p * -1), s * 10), 22, [], [s * 10 + (5 + p * -1)]);
    OutputStep(EightOpcodes, m0, s * 10 + (5 + p * -1));
    ExecNext(EightOpcodes, m0, m1, fuel);
  }

  /** A stage of sample 2 appends the digit 5 - phase. */
  lemma Series2Stage(p: int, s: int, fuel: nat)
    requires fuel >= 7
    ensures Stage(SeriesProgram2(), p, s, fuel) == Signal(s * 10 + (5 + p * -1))
  {
    SeriesProgram2IsMemory();
    Series2At0(p, s, fuel);
  }

  lemma Series2Combination(fuel: nat)
    requires fuel >= 7
    ensures AmplifierCombination(SeriesProgram2(), [0, 1, 2, 3, 4], fuel) == Signal(54321)
  {
    Series2Stage(0, 0, fuel);
    Series2Stage(1, 5, fuel);
    Series2Stage(2, 54, fuel);
    Series2Stage(3, 543, fuel);
    Series2Stage(4, 5432, fuel);
  }

  /** The program of sample 3. */
  function SeriesProgram3(): seq<int> {
    ((([3, 31, 3, 32, 1002, 32] + [10, 32, 1001, 31, -2, 31]) + [1007, 31, 0, 33, 1002, 33]) + (([7, 33, 1, 33, 31, 31] + [1, 32, 31, 31, 4, 31]) + [99, 0, 0, 0]))
  }

  /** Its memory during a stage, with cells 31, 32, 33 as given. */
  function Series3Memory(c31: int, c32: int, c33: int): seq<int> {
    ((([3, 31, 3, 32, 1002, 32] + [10, 32, 1001, 31, -2, 31]) + [1007, 31, 0, 33, 1002, 33]) + (([7, 33, 1, 33, 31, 31] + [1, 32, 31, 31, 4, 31]) + [99, c31, c32, c33]))
  }

  lemma SeriesProgram3IsMemory()
    ensures SeriesProgram3() == Series3Memory(0, 0, 0)
  {
  }

  // Sample 3 from each instruction of a stage to the 99 at 30, one pass per lemma.

  lemma Series3At0(p: int, s: int, fuel: nat)
    requires fuel >= 9
    ensures Exec(EightOpcodes, Machine(Series3Memory(0, 0, 0), 0, [p, s], []), fuel)
      == (Machine(Series3Memory(s * 10 + (Below2(p) * 7 + (p + -2)), s * 10, Below2(p) * 7), 30, [], [s * 10 + (Below2(p) * 7 + (p + -2))]), Halted)
  {
    var m0 := Machine(Series3Memory(0, 0, 0), 0, [p, s], []);
    var m1 := Machine(Series3Memory(p, 0, 0), 2, [s], []);
    InputStep(EightOpcodes, m0);
    assert m0.inputs[1..] == [s];
    assert m0.mem[31 := p] == m1.mem;
    ExecNext(EightOpcodes, m0, m1, fuel);
    Series3At2(p, s, fuel - 1);
  }

  lemma Series3At2(p: int, s: int, fuel: nat)
    requires fuel >= 8
    ensures Exec(EightOpcodes, Machine(Series3Memory(p, 0, 0), 2, [s], []), fuel)
      == (Machine(Series3Memory(s * 10 + (Below2(p) * 7 + (p + -2)), s * 10, Below2(p) * 7), 30, [], [s * 10 + (Below2(p) * 7 + (p + -2))]), Halted)
  {
    var m0 := Machine(Series3Memory(p, 0, 0), 2, [s], []);
    var m1 := Machine(Series3Memory(p, s, 0), 4, [], []);
    InputStep(EightOpcodes, m0);
    assert m0.inputs[1..] == [];
    assert m0.mem[32 := s] == m1.mem;
    ExecNext(EightOpcodes, m0, m1, fuel);
    Series3At4(p, s, fuel - 1);
  }

  lemma Series3At4(p: int, s: int, fuel: nat)
    requires fuel >= 7
    ensures Exec(EightOpcodes, Machine(Series3Memory(p, s, 0), 4, [], []), fuel)
      == (Machine(Series3Memory(s * 10 + (Below2(p) * 7 + (p + -2)), s * 10, Below2(p) * 7), 30, [], [s * 10 + (Below2(p) * 7 + (p + -2))]), Halted)
  {
    var m0 := Machine(Series3Memory(p, s, 0), 4, [], []);
    var m1 := Machine(Series3Memory(p, s * 10, 0), 8, [], []);
    ComputeStep(EightOpcodes, m0, s, 10);
    assert m0.mem[32 := s * 10] == m1.mem;
    ExecNext(EightOpcodes, m0, m1, fuel);
    Series3At8(p, s, fuel - 1);
  }

  lemma Series3At8(p: int, s: int, fuel: nat)
    requires fuel >= 6
    ensures Exec(EightOpcodes, Machine(Series3Memory(p, s * 10, 0), 8, [], []), fuel)
      == (Machine(Series3Memory(s * 10 + (Below2(p) * 7 + (p + -2)), s * 10, Below2(p) * 7), 30, [], [s * 10 + (Below2(p) * 7 + (p + -2))]), Halted)
  {
    var m0 := Machine(Series3Memory(p, s * 10, 0), 8, [], []);
    var m1 := Machine(Series3Memory(p + -2, s * 10, 0), 12, [], []);
    ComputeStep(EightOpcodes, m0, p, -2);
    assert m0.mem[31 := p + -2] == m1.mem;
    ExecNext(EightOpcodes, m0, m1, fuel);
    Series3At12(p, s, fuel - 1);
  }

  lemma Series3At12(p: int, s: int, fuel: nat)
    requires fuel >= 5
    ensures Exec(EightOpcodes, Machine(Series3Memory(p + -2, s * 10, 0), 12, [], []), fuel)
      == (Machine(Series3Memory(s * 10 + (Below2(p) * 7 + (p + -2)), s * 10, Below2(p) * 7), 30, [], [s * 10 + (Below2(p) * 7 + (p + -2))]), Halted)
  {
    var m0 := Machine(Series3Memory(p + -2, s * 10, 0), 12, [], []);
    var m1 := Machine(Series3Memory(p + -2, s * 10, Below2(p)), 16, [], []);
    ComputeStep(EightOpcodes, m0, p + -2, 0);
    assert m0.mem[33 := Below2(p)] == m1.mem;
    ExecNext(EightOpcodes, m0, m1, fuel);
    Series3At16(p, s, fuel - 1);
  }

  lemma Series3At16(p: int, s: int, fuel: nat)
    requires fuel >= 4
    ensures Exec(EightOpcodes, Machine(Series3Memory(p + -2, s * 10, Below2(p)), 16, [], []), fuel)
      == (Machine(Series3Memory(s * 10 + (Below2(p) * 7 + (p + -2)), s * 10, Below2(p) * 7), 30, [], [s * 10 + (Below2(p) * 7 + (p + -2))]), Halted)
  {
    var m0 := Machine(Series3Memory(p + -2, s * 10, Below2(p)), 16, [], []);
    var m1 := Machine(Series3Memory(p + -2, s * 10, Below2(p) * 7), 20, [], []);
    ComputeStep(EightOpcodes, m0, Below2(p), 7);
    assert m0.mem[33 := Below2(p) * 7] == m1.mem;
    ExecNext(EightOpcodes, m0, m1, fuel);
    Series3At20(p, s, fuel - 1);
  }

  lemma Series3At20(p: int, s: int, fuel: nat)
    requires fuel >= 3
    ensures Exec(EightOpcodes, Machine(Series3Memory(p + -2, s * 10, Below2(p) * 7), 20, [], []), fuel)
      == (Machine(Series3Memory(s * 10 + (Below2(p) * 7 + (p + -2)), s * 10, Below2(p) * 7), 30, [], [s * 10 + (Below2(p) * 7 + (p + -2))]), Halted)
  {
    var m0 := Machine(Series3Memory(p + -2, s * 10, Below2(p) * 7), 20, [], []);
    var m1 := Machine(Series3Memory(Below2(p) * 7 + (p + -2), s * 10, Below2(p) * 7), 24, [], []);
    ComputeStep(EightOpcodes, m0, Below2(p) * 7, p + -2);
    assert m0.mem[31 := Below2(p) * 7 + (p + -2)] == m1.mem;
    ExecNext(EightOpcodes, m0, m1, fuel);
    Series3At24(p, s, fuel - 1);
  }

  lemma Series3At24(p: int, s: int, fuel: nat)
    requires fuel >= 2
    ensures Exec(EightOpcodes, Machine(Series3Memory(Below2(p) * 7 + (p + -2), s * 10, Below2(p) * 7), 24, [], []), fuel)
      == (Machine(Series3Memory(s * 10 + (Below2(p) * 7 + (p + -2)), s * 10, Below2(p) * 7), 30, [], [s * 10 + (Below2(p) * 7 + (p + -2))]), Halted)
  {
    var m0 := Machine(Series3Memory(Below2(p) * 7 + (p + -2), s * 10, Below2(p) * 7), 24, [], []);
    var m1 := Machine(Series3Memory(s * 10 + (Below2(p) * 7 + (p + -2)), s * 10, Below2(p) * 7), 28, [], []);
    ComputeStep(EightOpcodes, m0, s * 10, Below2(p) * 7 + (p + -2));
    assert m0.mem[31 := s * 10 + (Below2(p) * 7 + (p + -2))] == m1.mem;
    ExecNext(EightOpcodes, m0, m1, fuel);
    Series3At28(p, s, fuel - 1);
  }

  lemma Series3At28(p: int, s: int, fuel: nat)
    requires fuel >= 1
    ensures Exec(EightOpcodes, Machine(Series3Memory(s * 10 + (Below2(p) * 7 + (p + -2)), s * 10, Below2(p) * 7), 28, [], []), fuel)
      == (Machine(Series3Memory(s * 10 + (Below2(p) * 7 + (p + -2)), s * 10, Below2(p) * 7), 30, [], [s * 10 + (Below2(p) * 7 + (p + -2))]), Halted)
  {
    var m0 := Machine(Series3Memory(s * 10 + (Below2(p) * 7 + (p + -2)), s * 10, Below2(p) * 7), 28, [], []);
    var m1 := Machine(Series3Memory(s * 10 + (Below2(p) * 7 + (p + -2)), s * 10, Below2(p) * 7), 30, [], [s * 10 + (Below2(p) * 7 + (p + -2))]);
    OutputStep(EightOpcodes, m0, s * 10 + (Below2(p) * 7 + (p + -2)));
    ExecNext(EightOpcodes, m0, m1, fuel);
  }

  /** A stage of sample 3 appends the digit phase - 2, taken modulo 7 when negative. */
  lemma Series3Stage(p: int, s: int, fuel: nat)
    requires fuel >= 9
    ensures Stage(SeriesProgram3(), p, s, fuel) == Signal(s * 10 + (Below2(p) * 7 + (p + -2)))
  {
    SeriesProgram3IsMemory();
    Series3At0(p, s, fuel);
  }

  lemma Series3Combination(fuel: nat)
    requires fuel >= 9
    ensures AmplifierCombination(SeriesProgram3(), [1, 0, 4, 3, 2], fuel) == Signal(65210)
  {
    Series3Stage(1, 0, fuel);
    Series3Stage(0, 6, fuel);
    Series3Stage(4, 65, fuel);
    Series3Stage(3, 652, fuel);
    Series3Stage(2, 6521, fuel);
  }

}
