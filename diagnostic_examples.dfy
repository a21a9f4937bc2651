/** The sample programs of days 5 and 7, run on the model of the day 5
    interpreter. Where a sample is run on several inputs, the lemma is
    stated for every input. Each proof follows the run pass by pass. */
module DiagnosticExamples {
  import opened Common
  import opened DiagnosticIntcode

  /** `[3, 0, 4, 0, 99]` outputs whatever it is given, in both dialects. */
  lemma EchoesInput(d: Dialect, x: int, fuel: nat)
    requires fuel >= 2
    ensures var (m, s) := Exec(d, Boot([3, 0, 4, 0, 99], [x]), fuel);
      s == Halted && m.output == [x]
  {
    var m0 := Boot([3, 0, 4, 0, 99], [x]);
    var m1 := Machine([x, 0, 4, 0, 99], 2, [], []);
    var m2 := Machine(m1.mem, 4, [], [x]);
    assert Exec(d, m0, fuel) == Exec(d, m1, fuel - 1) by {
      InputStep(d, m0);
      assert m0.inputs[1..] == [];
      ExecNext(d, m0, m1, fuel);
    }
    assert Exec(d, m1, fuel - 1) == Exec(d, m2, fuel - 2) by {
      OutputStep(d, m1, x);
      ExecNext(d, m1, m2, fuel - 1);
    }
  }

  /** `[1002, 4, 3, 4, 33]` multiplies 33 by 3 into its own last cell,
      which makes it 99, and halts without output, in both dialects. */
  lemma MultiplyHalts(d: Dialect, fuel: nat)
    requires fuel >= 1
    ensures var (m, s) := Exec(d, Boot([1002, 4, 3, 4, 33], []), fuel);
      s == Halted && m.output == [] && m.mem == [1002, 4, 3, 4, 99]
  {
    var m0 := Boot([1002, 4, 3, 4, 33], []);
    var m1 := Machine([1002, 4, 3, 4, 99], 4, [], []);
    assert Exec(d, m0, fuel) == Exec(d, m1, fuel - 1) by {
      ComputeStep(d, m0, 33, 3);
      ExecNext(d, m0, m1, fuel);
    }
  }

  /** `[3, 9, 8, 9, 10, 9, 4, 9, 99, -1, 8]` outputs 1 when its input is
      8 and 0 otherwise (equality, position mode). */
  lemma EqualPositional(x: int, fuel: nat)
    requires fuel >= 3
    ensures var (m, s) := Exec(EightOpcodes, Boot([3, 9, 8, 9, 10, 9, 4, 9, 99, -1, 8], [x]), fuel);
      s == Halted && m.output == [if x == 8 then 1 else 0]
  {
    var flag := if x == 8 then 1 else 0;
    var m0 := Boot([3, 9, 8, 9, 10, 9, 4, 9, 99, -1, 8], [x]);
    var m1 := Machine(m0.mem[9 := x], 2, [], []);
    var m2 := Machine(m1.mem[9 := flag], 6, [], []);
    var m3 := Machine(m2.mem, 8, [], [flag]);
    assert Exec(EightOpcodes, m0, fuel) == Exec(EightOpcodes, m1, fuel - 1) by {
      InputStep(EightOpcodes, m0);
      assert m0.inputs[1..] == [];
      ExecNext(EightOpcodes, m0, m1, fuel);
    }
    assert Exec(EightOpcodes, m1, fuel - 1) == Exec(EightOpcodes, m2, fuel - 2) by {
      ComputeStep(EightOpcodes, m1, x, 8);
      ExecNext(EightOpcodes, m1, m2, fuel - 1);
    }
    assert Exec(EightOpcodes, m2, fuel - 2) == Exec(EightOpcodes, m3, fuel - 3) by {
      OutputStep(EightOpcodes, m2, flag);
      ExecNext(EightOpcodes, m2, m3, fuel - 2);
    }
  }

  /** `[3, 9, 7, 9, 10, 9, 4, 9, 99, -1, 8]` outputs 1 when its input is
      below 8 and 0 otherwise (less-than, position mode). */
  lemma LessThanPositional(x: int, fuel: nat)
    requires fuel >= 3
    ensures var (m, s) := Exec(EightOpcodes, Boot([3, 9, 7, 9, 10, 9, 4, 9, 99, -1, 8], [x]), fuel);
      s == Halted && m.output == [if x < 8 then 1 else 0]
  {
    var flag := if x < 8 then 1 else 0;
    var m0 := Boot([3, 9, 7, 9, 10, 9, 4, 9, 99, -1, 8], [x]);
    var m1 := Machine(m0.mem[9 := x], 2, [], []);
    var m2 := Machine(m1.mem[9 := flag], 6, [], []);
    var m3 := Machine(m2.mem, 8, [], [flag]);
    assert Exec(EightOpcodes, m0, fuel) == Exec(EightOpcodes, m1, fuel - 1) by {
      InputStep(EightOpcodes, m0);
      assert m0.inputs[1..] == [];
      ExecNext(EightOpcodes, m0, m1, fuel);
    }
    assert Exec(EightOpcodes, m1, fuel - 1) == Exec(EightOpcodes, m2, fuel - 2) by {
      ComputeStep(EightOpcodes, m1, x, 8);
      ExecNext(EightOpcodes, m1, m2, fuel - 1);
    }
    assert Exec(EightOpcodes, m2, fuel - 2) == Exec(EightOpcodes, m3, fuel - 3) by {
      OutputStep(EightOpcodes, m2, flag);
      ExecNext(EightOpcodes, m2, m3, fuel - 2);
    }
  }

  /** `[3, 3, 1108, -1, 8, 3, 4, 3, 99]` outputs 1 when its input is 8 and
      0 otherwise (equality, immediate mode). */
  lemma EqualImmediate(x: int, fuel: nat)
    requires fuel >= 3
    ensures var (m, s) := Exec(EightOpcodes, Boot([3, 3, 1108, -1, 8, 3, 4, 3, 99], [x]), fuel);
      s == Halted && m.output == [if x == 8 then 1 else 0]
  {
    var flag := if x == 8 then 1 else 0;
    var m0 := Boot([3, 3, 1108, -1, 8, 3, 4, 3, 99], [x]);
    var m1 := Machine(m0.mem[3 := x], 2, [], []);
    var m2 := Machine(m1.mem[3 := flag], 6, [], []);
    var m3 := Machine(m2.mem, 8, [], [flag]);
    assert Exec(EightOpcodes, m0, fuel) == Exec(EightOpcodes, m1, fuel - 1) by {
      InputStep(EightOpcodes, m0);
      assert m0.inputs[1..] == [];
      ExecNext(EightOpcodes, m0, m1, fuel);
    }
    assert Exec(EightOpcodes, m1, fuel - 1) == Exec(EightOpcodes, m2, fuel - 2) by {
      ComputeStep(EightOpcodes, m1, x, 8);
      ExecNext(EightOpcodes, m1, m2, fuel - 1);
    }
    assert Exec(EightOpcodes, m2, fuel - 2) == Exec(EightOpcodes, m3, fuel - 3) by {
      OutputStep(EightOpcodes, m2, flag);
      ExecNext(EightOpcodes, m2, m3, fuel - 2);
    }
  }

  /** `[3, 3, 1107, -1, 8, 3, 4, 3, 99]` outputs 1 when its input is below
      8 and 0 otherwise (less-than, immediate mode). */
  lemma LessThanImmediate(x: int, fuel: nat)
    requires fuel >= 3
    ensures var (m, s) := Exec(EightOpcodes, Boot([3, 3, 1107, -1, 8, 3, 4, 3, 99], [x]), fuel);
      s == Halted && m.output == [if x < 8 then 1 else 0]
  {
    var flag := if x < 8 then 1 else 0;
    var m0 := Boot([3, 3, 1107, -1, 8, 3, 4, 3, 99], [x]);
    var m1 := Machine(m0.mem[3 := x], 2, [], []);
    var m2 := Machine(m1.mem[3 := flag], 6, [], []);
    var m3 := Machine(m2.mem, 8, [], [flag]);
    assert Exec(EightOpcodes, m0, fuel) == Exec(EightOpcodes, m1, fuel - 1) by {
      InputStep(EightOpcodes, m0);
      assert m0.inputs[1..] == [];
      ExecNext(EightOpcodes, m0, m1, fuel);
    }
    assert Exec(EightOpcodes, m1, fuel - 1) == Exec(EightOpcodes, m2, fuel - 2) by {
      ComputeStep(EightOpcodes, m1, x, 8);
      ExecNext(EightOpcodes, m1, m2, fuel - 1);
    }
    assert Exec(EightOpcodes, m2, fuel - 2) == Exec(EightOpcodes, m3, fuel - 3) by {
      OutputStep(EightOpcodes, m2, flag);
      ExecNext(EightOpcodes, m2, m3, fuel - 2);
    }
  }

  /** `[3, 12, 6, 12, 15, 1, 13, 14, 13, 4, 13, 99, -1, 0, 1, 9]` outputs 0
      when its input is 0 and 1 otherwise (jumps, position mode). */
  lemma JumpPositional(x: int, fuel: nat)
    requires fuel >= 4
    ensures var (m, s) := Exec(EightOpcodes, Boot([3, 12, 6, 12, 15, 1, 13, 14, 13, 4, 13, 99, -1, 0, 1, 9], [x]), fuel);
      s == Halted && m.output == [if x == 0 then 0 else 1]
  {
    var m0 := Boot([3, 12, 6, 12, 15, 1, 13, 14, 13, 4, 13, 99, -1, 0, 1, 9], [x]);
    var m1 := Machine([3, 12, 6, 12, 15, 1, 13, 14, 13, 4, 13, 99, x, 0, 1, 9], 2, [], []);
    assert Exec(EightOpcodes, m0, fuel) == Exec(EightOpcodes, m1, fuel - 1) by {
      InputStep(EightOpcodes, m0);
      assert m0.inputs[1..] == [];
      assert m0.mem[12 := x] == m1.mem;
      ExecNext(EightOpcodes, m0, m1, fuel);
    }
    JumpPositionalAfterInput(x, fuel - 1);
  }

  /** The same program once the input is stored at cell 12: it jumps
      straight to the output when the input is 0. */
  lemma JumpPositionalAfterInput(x: int, fuel: nat)
    requires fuel >= 3
    ensures var (m, s) := Exec(EightOpcodes, Machine([3, 12, 6, 12, 15, 1, 13, 14, 13, 4, 13, 99, x, 0, 1, 9], 2, [], []), fuel);
      s == Halted && m.output == [if x == 0 then 0 else 1]
  {
    var m1 := Machine([3, 12, 6, 12, 15, 1, 13, 14, 13, 4, 13, 99, x, 0, 1, 9], 2, [], []);
    JumpStep(m1, x, 9);
    if x == 0 {
      var m2 := Machine(m1.mem, 9, [], []);
      ExecNext(EightOpcodes, m1, m2, fuel);
      var m3 := Machine(m1.mem, 11, [], [0]);
      assert Exec(EightOpcodes, m2, fuel - 1) == Exec(EightOpcodes, m3, fuel - 2) by {
        OutputStep(EightOpcodes, m2, 0);
        ExecNext(EightOpcodes, m2, m3, fuel - 1);
      }
    } else {
      ExecNext(EightOpcodes, m1, Machine(m1.mem, 5, [], []), fuel);
      JumpPositionalNonzero(x, fuel - 1);
    }
  }

  /** The same program past the jump it did not take: it sets cell 13 to
      1 and outputs it. */
  lemma JumpPositionalNonzero(x: int, fuel: nat)
    requires fuel >= 2
    ensures var (m, s) := Exec(EightOpcodes, Machine([3, 12, 6, 12, 15, 1, 13, 14, 13, 4, 13, 99, x, 0, 1, 9], 5, [], []), fuel);
      s == Halted && m.output == [1]
  {
    var m2 := Machine([3, 12, 6, 12, 15, 1, 13, 14, 13, 4, 13, 99, x, 0, 1, 9], 5, [], []);
    var m3 := Machine(m2.mem[13 := 1], 9, [], []);
    var m4 := Machine(m3.mem, 11, [], [1]);
    assert Exec(EightOpcodes, m2, fuel) == Exec(EightOpcodes, m3, fuel - 1) by {
      ComputeStep(EightOpcodes, m2, 0, 1);
      ExecNext(EightOpcodes, m2, m3, fuel);
    }
    assert Exec(EightOpcodes, m3, fuel - 1) == Exec(EightOpcodes, m4, fuel - 2) by {
      OutputStep(EightOpcodes, m3, 1);
      ExecNext(EightOpcodes, m3, m4, fuel - 1);
    }
  }

  /** `[3, 3, 1105, -1, 9, 1101, 0, 0, 12, 4, 12, 99, 1]` outputs 0 when its
      input is 0 and 1 otherwise (jumps, immediate mode). */
  lemma JumpImmediate(x: int, fuel: nat)
    requires fuel >= 4
    ensures var (m, s) := Exec(EightOpcodes, Boot([3, 3, 1105, -1, 9, 1101, 0, 0, 12, 4, 12, 99, 1], [x]), fuel);
      s == Halted && m.output == [if x == 0 then 0 else 1]
  {
    var m0 := Boot([3, 3, 1105, -1, 9, 1101, 0, 0, 12, 4, 12, 99, 1], [x]);
    var m1 := Machine([3, 3, 1105, x, 9, 1101, 0, 0, 12, 4, 12, 99, 1], 2, [], []);
    assert Exec(EightOpcodes, m0, fuel) == Exec(EightOpcodes, m1, fuel - 1) by {
      InputStep(EightOpcodes, m0);
      assert m0.inputs[1..] == [];
      assert m0.mem[3 := x] == m1.mem;
      ExecNext(EightOpcodes, m0, m1, fuel);
    }
    JumpImmediateAfterInput(x, fuel - 1);
  }

  /** The same program once the input is stored at cell 3: it jumps
      straight to the output unless the input is 0. */
  lemma JumpImmediateAfterInput(x: int, fuel: nat)
    requires fuel >= 3
    ensures var (m, s) := Exec(EightOpcodes, Machine([3, 3, 1105, x, 9, 1101, 0, 0, 12, 4, 12, 99, 1], 2, [], []), fuel);
      s == Halted && m.output == [if x == 0 then 0 else 1]
  {
    var m1 := Machine([3, 3, 1105, x, 9, 1101, 0, 0, 12, 4, 12, 99, 1], 2, [], []);
    JumpStep(m1, x, 9);
    if x != 0 {
      var m2 := Machine(m1.mem, 9, [], []);
      ExecNext(EightOpcodes, m1, m2, fuel);
      var m3 := Machine(m1.mem, 11, [], [1]);
      assert Exec(EightOpcodes, m2, fuel - 1) == Exec(EightOpcodes, m3, fuel - 2) by {
        OutputStep(EightOpcodes, m2, 1);
        ExecNext(EightOpcodes, m2, m3, fuel - 1);
      }
    } else {
      ExecNext(EightOpcodes, m1, Machine(m1.mem, 5, [], []), fuel);
      JumpImmediateZero(fuel - 1);
    }
  }

  /** The same program on input 0, past the jump it did not take: it
      clears cell 12 and outputs it. */
  lemma JumpImmediateZero(fuel: nat)
    requires fuel >= 2
    ensures var (m, s) := Exec(EightOpcodes, Machine([3, 3, 1105, 0, 9, 1101, 0, 0, 12, 4, 12, 99, 1], 5, [], []), fuel);
      s == Halted && m.output == [0]
  {
    var m2 := Machine([3, 3, 1105, 0, 9, 1101, 0, 0, 12, 4, 12, 99, 1], 5, [], []);
    var m3 := Machine(m2.mem[12 := 0], 9, [], []);
    var m4 := Machine(m3.mem, 11, [], [0]);
    assert Exec(EightOpcodes, m2, fuel) == Exec(EightOpcodes, m3, fuel - 1) by {
      ComputeStep(EightOpcodes, m2, 0, 0);
      ExecNext(EightOpcodes, m2, m3, fuel);
    }
    assert Exec(EightOpcodes, m3, fuel - 1) == Exec(EightOpcodes, m4, fuel - 2) by {
      OutputStep(EightOpcodes, m3, 0);
      ExecNext(EightOpcodes, m3, m4, fuel - 1);
    }
  }

  // ---------------------------------------------------------------------
  // The larger comparison sample: 999 below 8, 1000 at 8, 1001 above.

  function Comparison(): seq<int> {
    (([3, 21, 1008, 21, 8, 20] + [1005, 20, 22, 107, 8, 21]) + ([20, 1006, 20, 31, 1106, 0] + [36, 98, 0, 0, 1002, 21]))
    + (([125, 20, 4, 20, 1105, 1] + [46, 104, 999, 1105, 1, 46]) + ([1101, 1000, 1, 20, 4, 20] + [1105, 1, 46, 98, 99]))
  }

  /** The program's memory during a run: the input x at cell 21, the flag
      or the answer being built at cell 20. */
  function ComparisonMemory(x: int, cell20: int): seq<int> {
    (([3, 21, 1008, 21, 8, 20] + [1005, 20, 22, 107, 8, 21]) + ([20, 1006, 20, 31, 1106, 0] + [36, 98, cell20, x, 1002, 21]))
    + (([125, 20, 4, 20, 1105, 1] + [46, 104, 999, 1105, 1, 46]) + ([1101, 1000, 1, 20, 4, 20] + [1105, 1, 46, 98, 99]))
  }

  /** A state of that run. */
  function Comparing(x: int, cell20: int, ip: int, output: seq<int>): Machine {
    Machine(ComparisonMemory(x, cell20), ip, [], output)
  }

  lemma ComparisonMemoryAfterInput(x: int)
    ensures Comparison()[21 := x] == ComparisonMemory(x, 0)
  {
  }

  lemma OverwriteCell20(x: int, old20: int, new20: int)
    ensures ComparisonMemory(x, old20)[20 := new20] == ComparisonMemory(x, new20)
  {
  }

  /** For every input the program outputs 999, 1000 or 1001 as the input
      is below, equal to or above 8. */
  lemma ComparesWithEight(x: int, fuel: nat)
    requires fuel >= 9
    ensures var (m, s) := Exec(EightOpcodes, Boot(Comparison(), [x]), fuel);
      s == Halted && m.output == [if x < 8 then 999 else if x == 8 then 1000 else 1001]
  {
    ComparisonOpening(x, fuel);
    if x == 8 {
      ComparisonOnEight(x, fuel - 2);
    } else {
      ComparisonOffEight(x, fuel - 2);
    }
  }

  /** It stores the input at 21, then whether it equals 8 at 20. */
  lemma ComparisonOpening(x: int, fuel: nat)
    requires fuel >= 2
    ensures Exec(EightOpcodes, Boot(Comparison(), [x]), fuel)
      == Exec(EightOpcodes, Comparing(x, if x == 8 then 1 else 0, 6, []), fuel - 2)
  {
    var m0 := Boot(Comparison(), [x]);
    var m1 := Comparing(x, 0, 2, []);
    var m2 := Comparing(x, if x == 8 then 1 else 0, 6, []);
    assert Exec(EightOpcodes, m0, fuel) == Exec(EightOpcodes, m1, fuel - 1) by {
      InputStep(EightOpcodes, m0);
      assert m0.inputs[1..] == [];
      ComparisonMemoryAfterInput(x);
      ExecNext(EightOpcodes, m0, m1, fuel);
    }
    assert Exec(EightOpcodes, m1, fuel - 1) == Exec(EightOpcodes, m2, fuel - 2) by {
      ComputeStep(EightOpcodes, m1, x, 8);
      OverwriteCell20(x, 0, if x == 8 then 1 else 0);
      ExecNext(EightOpcodes, m1, m2, fuel - 1);
    }
  }

  /** On 8 it jumps to 22. */
  lemma ComparisonOnEight(x: int, fuel: nat)
    requires x == 8 && fuel >= 4
    ensures var (m, s) := Exec(EightOpcodes, Comparing(x, 1, 6, []), fuel);
      s == Halted && m.output == [1000]
  {
    var m0 := Comparing(x, 1, 6, []);
    var m1 := Comparing(x, 1, 22, []);
    JumpStep(m0, 1, 22);
    ExecNext(EightOpcodes, m0, m1, fuel);
    ComparisonScalesEight(x, fuel - 1);
  }

  /** At 22 it multiplies the input, 8, by 125 into cell 20. */
  lemma ComparisonScalesEight(x: int, fuel: nat)
    requires x == 8 && fuel >= 3
    ensures var (m, s) := Exec(EightOpcodes, Comparing(x, 1, 22, []), fuel);
      s == Halted && m.output == [1000]
  {
    var m0 := Comparing(x, 1, 22, []);
    var m1 := Comparing(x, 1000, 26, []);
    ComputeStep(EightOpcodes, m0, x, 125);
    OverwriteCell20(x, 1, 1000);
    ExecNext(EightOpcodes, m0, m1, fuel);
    ComparisonReportsEight(1000, fuel - 1);
  }

  /** Otherwise it falls through to 9. */
  lemma ComparisonOffEight(x: int, fuel: nat)
    requires x != 8 && fuel >= 7
    ensures var (m, s) := Exec(EightOpcodes, Comparing(x, 0, 6, []), fuel);
      s == Halted && m.output == [if x < 8 then 999 else 1001]
  {
    var m0 := Comparing(x, 0, 6, []);
    var m1 := Comparing(x, 0, 9, []);
    JumpStep(m0, 0, 22);
    ExecNext(EightOpcodes, m0, m1, fuel);
    ComparisonOrders(x, fuel - 1);
  }

  /** At 9 it stores whether 8 is below the input at cell 20. */
  lemma ComparisonOrders(x: int, fuel: nat)
    requires x != 8 && fuel >= 6
    ensures var (m, s) := Exec(EightOpcodes, Comparing(x, 0, 9, []), fuel);
      s == Halted && m.output == [if x < 8 then 999 else 1001]
  {
    var m0 := Comparing(x, 0, 9, []);
    var m1 := Comparing(x, if 8 < x then 1 else 0, 13, []);
    ComputeStep(EightOpcodes, m0, 8, x);
    OverwriteCell20(x, 0, if 8 < x then 1 else 0);
    ExecNext(EightOpcodes, m0, m1, fuel);
    if x < 8 {
      ComparisonBelow(x, fuel - 1);
    } else {
      ComparisonAbove(x, fuel - 1);
    }
  }

  /** Below 8 it jumps to 31. */
  lemma ComparisonBelow(x: int, fuel: nat)
    requires fuel >= 3
    ensures var (m, s) := Exec(EightOpcodes, Comparing(x, 0, 13, []), fuel);
      s == Halted && m.output == [999]
  {
    var m0 := Comparing(x, 0, 13, []);
    var m1 := Comparing(x, 0, 31, []);
    JumpStep(m0, 0, 31);
    ExecNext(EightOpcodes, m0, m1, fuel);
    ComparisonAnswersBelow(x, fuel - 1);
  }

  /** At 31 it outputs 999. */
  lemma ComparisonAnswersBelow(x: int, fuel: nat)
    requires fuel >= 2
    ensures var (m, s) := Exec(EightOpcodes, Comparing(x, 0, 31, []), fuel);
      s == Halted && m.output == [999]
  {
    var m0 := Comparing(x, 0, 31, []);
    var m1 := Comparing(x, 0, 33, [999]);
    OutputStep(EightOpcodes, m0, 999);
    ExecNext(EightOpcodes, m0, m1, fuel);
    ComparisonFinishes(x, 0, 33, [999], fuel - 1);
  }

  /** Above 8 it falls through to 16. */
  lemma ComparisonAbove(x: int, fuel: nat)
    requires fuel >= 5
    ensures var (m, s) := Exec(EightOpcodes, Comparing(x, 1, 13, []), fuel);
      s == Halted && m.output == [1001]
  {
    var m0 := Comparing(x, 1, 13, []);
    var m1 := Comparing(x, 1, 16, []);
    JumpStep(m0, 1, 31);
    ExecNext(EightOpcodes, m0, m1, fuel);
    ComparisonSkips(x, fuel - 1);
  }

  /** At 16 it jumps unconditionally to 36. */
  lemma ComparisonSkips(x: int, fuel: nat)
    requires fuel >= 4
    ensures var (m, s) := Exec(EightOpcodes, Comparing(x, 1, 16, []), fuel);
      s == Halted && m.output == [1001]
  {
    var m0 := Comparing(x, 1, 16, []);
    var m1 := Comparing(x, 1, 36, []);
    JumpStep(m0, 0, 36);
    ExecNext(EightOpcodes, m0, m1, fuel);
    ComparisonAnswersAbove(x, fuel - 1);
  }

  /** At 36 it stores 1000 + 1 at cell 20, and reports it. */
  lemma ComparisonAnswersAbove(x: int, fuel: nat)
    requires fuel >= 3
    ensures var (m, s) := Exec(EightOpcodes, Comparing(x, 1, 36, []), fuel);
      s == Halted && m.output == [1001]
  {
    var m0 := Comparing(x, 1, 36, []);
    var m1 := Comparing(x, 1001, 40, []);
    assert Exec(EightOpcodes, m0, fuel) == Exec(EightOpcodes, m1, fuel - 1) by {
      ComputeStep(EightOpcodes, m0, 1000, 1);
      OverwriteCell20(x, 1, 1001);
      ExecNext(EightOpcodes, m0, m1, fuel);
    }
    ComparisonReportsAbove(x, 1001, fuel - 1);
  }

  /** At 26 the program outputs cell 20 and jumps to the end. */
  lemma ComparisonReportsEight(answer: int, fuel: nat)
    requires fuel >= 2
    ensures var (m, s) := Exec(EightOpcodes, Comparing(8, answer, 26, []), fuel);
      s == Halted && m.output == [answer]
  {
    var m0 := Comparing(8, answer, 26, []);
    var m1 := Comparing(8, answer, 28, [answer]);
    OutputStep(EightOpcodes, m0, answer);
    ExecNext(EightOpcodes, m0, m1, fuel);
    ComparisonFinishes(8, answer, 28, [answer], fuel - 1);
  }

  /** So does the code at 40. */
  lemma ComparisonReportsAbove(x: int, answer: int, fuel: nat)
    requires fuel >= 2
    ensures var (m, s) := Exec(EightOpcodes, Comparing(x, answer, 40, []), fuel);
      s == Halted && m.output == [answer]
  {
    var m0 := Comparing(x, answer, 40, []);
    var m1 := Comparing(x, answer, 42, [answer]);
    OutputStep(EightOpcodes, m0, answer);
    ExecNext(EightOpcodes, m0, m1, fuel);
    ComparisonFinishes(x, answer, 42, [answer], fuel - 1);
  }

  /** The jumps at 28, 33 and 42 lead to the 99 at 46. */
  lemma ComparisonFinishes(x: int, cell20: int, ip: int, output: seq<int>, fuel: nat)
    requires (ip == 28 || ip == 33 || ip == 42) && fuel >= 1
    ensures Exec(EightOpcodes, Comparing(x, cell20, ip, output), fuel)
      == (Comparing(x, cell20, 46, output), Halted)
  {
    var m0 := Comparing(x, cell20, ip, output);
    var m1 := Comparing(x, cell20, 46, output);
    JumpToEnd(x, cell20, ip, output);
    ExecNext(EightOpcodes, m0, m1, fuel);
  }

  lemma JumpToEnd(x: int, cell20: int, ip: int, output: seq<int>)
    requires ip == 28 || ip == 33 || ip == 42
    ensures Step(EightOpcodes, Comparing(x, cell20, ip, output)) == Next(Comparing(x, cell20, 46, output))
  {
    if ip == 28 {
      JumpStep(Comparing(x, cell20, 28, output), 1, 46);
    } else if ip == 33 {
      JumpStep(Comparing(x, cell20, 33, output), 1, 46);
    } else {
      JumpStep(Comparing(x, cell20, 42, output), 1, 46);
    }
  }
}
