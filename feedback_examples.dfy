/** The first feedback-loop sample of day 7 (part 2), run on the group as
    the test runs it: a group built from the program and the phases 9, 8,
    7, 6, 5, `run`, and `final_result` taken when the run raises an
    `IntcodeError`. Every amplifier runs the same loop, so lemmas about one
    pass through it, for any phase and any value read, describe every
    machine, and lemmas about one group step, for any amplifier and any
    count of passes left, describe the whole run. A second, one-amplifier
    program shows a run that starves, which the harness does not catch. */
module AmplifierFeedbackExamples {
  import opened Common
  import opened IntcodeMachines
  import opened AmplifierFeedback
  import IntcodeMachineExamples

  /** The first feedback sample (signal 139629729): read the phase and
      subtract 4, then five times read a value x and print 2x + phase - 4. */
  function LoopProgram(): seq<int> {
    [3, 26, 1001, 26, -4, 26, 3, 27, 1002, 27, 2, 27, 1, 27, 26, 27, 4, 27, 1001, 28, -1, 28, 1005, 28, 6, 99, 0, 0, 5]
  }

  /** Memory holding the loop's code, with its three data cells holding
      the phase less 4, the working value and the count of passes left. */
  predicate LoopMemory(m: seq<int>, p: int, y: int, c: int) {
    |m| == 29
    && m[0] == 3 && m[1] == 26 && m[2] == 1001 && m[3] == 26 && m[4] == -4 && m[5] == 26 && m[6] == 3
    && m[7] == 27 && m[8] == 1002 && m[9] == 27 && m[10] == 2 && m[11] == 27 && m[12] == 1 && m[13] == 27
    && m[14] == 26 && m[15] == 27 && m[16] == 4 && m[17] == 27 && m[18] == 1001 && m[19] == 28 && m[20] == -1
    && m[21] == 28 && m[22] == 1005 && m[23] == 28 && m[24] == 6 && m[25] == 99
    && m[26] == p && m[27] == y && m[28] == c
  }

  /** An amplifier of the sample between group steps, or inside the loop
      of `step`: running, nothing queued for output, at `ip`. */
  predicate Amplifier(s: State, p: int, y: int, c: int, ip: int, inputs: seq<int>) {
    s.ip == ip && s.base == 0 && s.inputs == inputs && s.outputs == [] && s.running && !s.waiting
    && LoopMemory(s.mem, p, y, c)
  }

  /** The program as written is the loop with its cells at 0, 0 and 5. */
  lemma LoopProgramMemory()
    ensures LoopMemory(LoopProgram(), 0, 0, 5)
  {
    // One cell at a time: the whole display at once is slow.
    var m := LoopProgram();
    assert m[0] == 3;
    assert m[1] == 26;
    assert m[2] == 1001;
    assert m[3] == 26;
    assert m[4] == -4;
    assert m[5] == 26;
    assert m[6] == 3;
    assert m[7] == 27;
    assert m[8] == 1002;
    assert m[9] == 27;
    assert m[10] == 2;
    assert m[11] == 27;
    assert m[12] == 1;
    assert m[13] == 27;
    assert m[14] == 26;
    assert m[15] == 27;
    assert m[16] == 4;
    assert m[17] == 27;
    assert m[18] == 1001;
    assert m[19] == 28;
    assert m[20] == -1;
    assert m[21] == 28;
    assert m[22] == 1005;
    assert m[23] == 28;
    assert m[24] == 6;
    assert m[25] == 99;
    assert m[26] == 0;
    assert m[27] == 0;
    assert m[28] == 5;
  }

  /** The modes of the words the loop uses: all positional but the
      immediate second parameter of 1001, 1002 and 1005. */
  lemma LoopModes(v: Variant)
    ensures ParameterModes(v, 1) == [Positional, Positional, Positional]
    ensures ParameterModes(v, 4) == [Positional, Positional, Positional]
    ensures ParameterModes(v, 1001) == [Positional, Immediate, Positional]
    ensures ParameterModes(v, 1002) == [Positional, Immediate, Positional]
    ensures ParameterModes(v, 1005) == [Positional, Immediate, Positional]
  {
    IntcodeMachineExamples.PlainModes(v, 1);
    IntcodeMachineExamples.PlainModes(v, 4);
    IntcodeMachineExamples.PlainModes(v, 1001);
    IntcodeMachineExamples.PlainModes(v, 1002);
    IntcodeMachineExamples.PlainModes(v, 1005);
  }

  // The instructions the loop uses, on any day-7 machine with nothing
  // queued for output whose words and operands are at non-negative
  // addresses: what one step does, and the loop of `step` taking it
  // from `s` to `t`.

  /** `3 a`: the oldest input stored at `a`. */
  lemma ReadWord(s: State, t: State, fuel: nat, rest: nat)
    requires s.running && !s.waiting && s.outputs == [] && 0 <= s.ip && s.ip + 1 < |s.mem| && s.mem[s.ip] == 3
    requires 0 <= s.mem[s.ip + 1] < |s.mem| && |s.inputs| > 0
    requires t == s.(mem := s.mem[s.mem[s.ip + 1] := s.inputs[0]], ip := s.ip + 2, inputs := s.inputs[1..],
                     steps := s.steps + 1)
    requires fuel == rest + 1
    ensures Await(s, fuel) == Await(t, rest)
  {
    InputStep(BooleanModes, s, s.mem[s.ip + 1]);
    AwaitNext(s, t, fuel, rest);
  }

  /** `1001 a k d` and `1002 a k d`: the word at `a` plus or times `k`. */
  lemma ConstantStep(s: State, word: int)
    requires word == 1001 || word == 1002
    requires s.running && 0 <= s.ip && s.ip + 3 < |s.mem| && s.mem[s.ip] == word
    requires 0 <= s.mem[s.ip + 1] < |s.mem| && 0 <= s.mem[s.ip + 3] < |s.mem|
    ensures var a := s.mem[s.mem[s.ip + 1]]; var k := s.mem[s.ip + 2];
      Transition(BooleanModes, s)
        == Done(s.(mem := s.mem[s.mem[s.ip + 3] := if word == 1001 then a + k else a * k], ip := s.ip + 4,
                   waiting := false, steps := s.steps + 1))
  {
    var a := s.mem[s.mem[s.ip + 1]];
    var k := s.mem[s.ip + 2];
    LoopModes(BooleanModes);
    IntcodeMachineExamples.Params2(BooleanModes, s, word, a, k);
    ComputeStep(BooleanModes, s, word % 100, [a, k], s.mem[s.ip + 3]);
  }

  /** `1001 a k d`: the word at `a` plus `k`, stored at `d`. */
  lemma AddConstant(s: State, a: int, k: int, d: int, t: State, fuel: nat, rest: nat)
    requires s.running && !s.waiting && s.outputs == [] && 0 <= s.ip && s.ip + 3 < |s.mem| && s.mem[s.ip] == 1001
    requires s.mem[s.ip + 1] == a && s.mem[s.ip + 2] == k && s.mem[s.ip + 3] == d
    requires 0 <= a < |s.mem| && 0 <= d < |s.mem|
    requires t == s.(mem := s.mem[d := s.mem[a] + k], ip := s.ip + 4, steps := s.steps + 1)
    requires fuel == rest + 1
    ensures Await(s, fuel) == Await(t, rest)
  {
    ConstantStep(s, 1001);
    AwaitNext(s, t, fuel, rest);
  }

  /** `1002 a 2 d`: the word at `a` doubled, stored at `d`. */
  lemma DoubleWord(s: State, a: int, d: int, t: State, fuel: nat, rest: nat)
    requires s.running && !s.waiting && s.outputs == [] && 0 <= s.ip && s.ip + 3 < |s.mem| && s.mem[s.ip] == 1002
    requires s.mem[s.ip + 1] == a && s.mem[s.ip + 2] == 2 && s.mem[s.ip + 3] == d
    requires 0 <= a < |s.mem| && 0 <= d < |s.mem|
    requires t == s.(mem := s.mem[d := s.mem[a] + s.mem[a]], ip := s.ip + 4, steps := s.steps + 1)
    requires fuel == rest + 1
    ensures Await(s, fuel) == Await(t, rest)
  {
    ConstantStep(s, 1002);
    AwaitNext(s, t, fuel, rest);
  }

  /** `1 a b d`: the words at `a` and `b` added, stored at `d`. */
  lemma AddStep(s: State)
    requires s.running && 0 <= s.ip && s.ip + 3 < |s.mem| && s.mem[s.ip] == 1
    requires 0 <= s.mem[s.ip + 1] < |s.mem| && 0 <= s.mem[s.ip + 2] < |s.mem| && 0 <= s.mem[s.ip + 3] < |s.mem|
    ensures Transition(BooleanModes, s)
      == Done(s.(mem := s.mem[s.mem[s.ip + 3] := s.mem[s.mem[s.ip + 1]] + s.mem[s.mem[s.ip + 2]]], ip := s.ip + 4,
                 waiting := false, steps := s.steps + 1))
  {
    var a := s.mem[s.mem[s.ip + 1]];
    var b := s.mem[s.mem[s.ip + 2]];
    LoopModes(BooleanModes);
    IntcodeMachineExamples.Params2(BooleanModes, s, 1, a, b);
    ComputeStep(BooleanModes, s, 1, [a, b], s.mem[s.ip + 3]);
  }

  /** `1 a b d` in the loop of `step`. */
  lemma AddWords(s: State, t: State, fuel: nat, rest: nat)
    requires s.running && !s.waiting && s.outputs == [] && 0 <= s.ip && s.ip + 3 < |s.mem| && s.mem[s.ip] == 1
    requires 0 <= s.mem[s.ip + 1] < |s.mem| && 0 <= s.mem[s.ip + 2] < |s.mem| && 0 <= s.mem[s.ip + 3] < |s.mem|
    requires t == s.(mem := s.mem[s.mem[s.ip + 3] := s.mem[s.mem[s.ip + 1]] + s.mem[s.mem[s.ip + 2]]], ip := s.ip + 4,
                     steps := s.steps + 1)
    requires fuel == rest + 1
    ensures Await(s, fuel) == Await(t, rest)
  {
    AddStep(s);
    AwaitNext(s, t, fuel, rest);
  }

  /** `4 a`: the word at `a` is queued, and the loop ends. */
  lemma PrintWord(s: State, t: State, fuel: nat, rest: nat)
    requires s.running && !s.waiting && s.outputs == [] && 0 <= s.ip && s.ip + 1 < |s.mem| && s.mem[s.ip] == 4
    requires 0 <= s.mem[s.ip + 1] < |s.mem|
    requires t == s.(outputs := [s.mem[s.mem[s.ip + 1]]], ip := s.ip + 2, steps := s.steps + 1)
    requires fuel == rest + 1
    ensures Await(s, fuel) == Ready(t)
  {
    var a := s.mem[s.mem[s.ip + 1]];
    LoopModes(BooleanModes);
    IntcodeMachineExamples.Params1(BooleanModes, s, 4, a);
    OutputStep(BooleanModes, s, [a]);
    assert s.outputs + [a] == [a];
    AwaitNext(s, t, fuel, rest);
  }

  /** `1005 a j`: to `j` when the word at `a` is nonzero, else on. */
  lemma JumpIfWord(s: State, a: int, j: int, t: State, fuel: nat, rest: nat)
    requires s.running && !s.waiting && s.outputs == [] && 0 <= s.ip && s.ip + 2 < |s.mem| && s.mem[s.ip] == 1005
    requires s.mem[s.ip + 1] == a && s.mem[s.ip + 2] == j && 0 <= a < |s.mem|
    requires t == s.(ip := if s.mem[a] != 0 then j else s.ip + 3, steps := s.steps + 1)
    requires fuel == rest + 1
    ensures Await(s, fuel) == Await(t, rest)
  {
    LoopModes(BooleanModes);
    IntcodeMachineExamples.Params2(BooleanModes, s, 1005, s.mem[a], j);
    JumpStep(BooleanModes, s, 5, [s.mem[a], j]);
    AwaitNext(s, t, fuel, rest);
  }

  /** `99`: the program halts; the loop steps the halted machine, which
      raises "Program has halted". */
  lemma HaltWord(s: State, fuel: nat)
    requires s.running && !s.waiting && s.outputs == [] && 0 <= s.ip < |s.mem| && s.mem[s.ip] == 99
    requires fuel >= 2
    ensures Await(s, fuel) == Failed(NotRunning, s.(running := false, steps := s.steps + 1))
  {
    HaltStep(BooleanModes, s, 1);
    AwaitNext(s, s.(running := false, steps := s.steps + 1), fuel, fuel - 1);
  }

  // ---------------------------------------------------------------------
  // The loop of `step` on one amplifier, one instruction per lemma: each
  // says how the loop ends from a machine at one address of the pass.

  /** What the loop leaves once a pass prints `out`: the value printed
      queued, the machine back at address 18. */
  predicate Printed(w: Wait, p: int, out: int, c: int) {
    w.Ready? && |w.state.outputs| == 1 && w.state.outputs[0] == out && Amplifier(w.state.(outputs := []), p, out, c, 18, [])
  }

  lemma PrintAt16(s: State, p: int, y: int, c: int, fuel: nat)
    requires Amplifier(s, p, y, c, 16, [])
    ensures Printed(Await(s, fuel + 1), p, y, c)
  {
    assert s.mem[16] == 4 && s.mem[17] == 27;
    PrintWord(s, s.(outputs := [y], ip := 18, steps := s.steps + 1), fuel + 1, fuel);
  }

  lemma AddAt12(s: State, p: int, y: int, c: int, fuel: nat)
    requires Amplifier(s, p, y, c, 12, [])
    ensures Printed(Await(s, fuel + 2), p, y + p, c)
  {
    assert s.mem[12] == 1 && s.mem[13] == 27 && s.mem[14] == 26 && s.mem[15] == 27;
    var t := s.(mem := s.mem[27 := y + p], ip := 16, steps := s.steps + 1);
    AddWords(s, t, fuel + 2, fuel + 1);
    PrintAt16(t, p, y + p, c, fuel);
  }

  lemma DoubleAt8(s: State, p: int, y: int, c: int, fuel: nat)
    requires Amplifier(s, p, y, c, 8, [])
    ensures Printed(Await(s, fuel + 3), p, y + y + p, c)
  {
    assert s.mem[8] == 1002 && s.mem[9] == 27 && s.mem[10] == 2 && s.mem[11] == 27;
    var t := s.(mem := s.mem[27 := y + y], ip := 12, steps := s.steps + 1);
    AddAt12(t, p, y + y, c, fuel);
    DoubleWord(s, 27, 27, t, fuel + 3, fuel + 2);
  }

  /** From address 6: the value read is doubled, the phase less 4 added
      and the sum printed. */
  lemma ReadAt6(s: State, p: int, y: int, c: int, x: int, fuel: nat)
    requires Amplifier(s, p, y, c, 6, [x])
    ensures Printed(Await(s, fuel + 4), p, x + x + p, c)
  {
    assert s.mem[6] == 3 && s.mem[7] == 27;
    var t := s.(mem := s.mem[27 := x], ip := 8, inputs := s.inputs[1..], steps := s.steps + 1);
    ReadWord(s, t, fuel + 4, fuel + 3);
    DoubleAt8(t, p, x, c, fuel);
  }

  lemma SubtractAt2(s: State, p: int, y: int, c: int, x: int, fuel: nat)
    requires Amplifier(s, p, y, c, 2, [x])
    ensures Printed(Await(s, fuel + 5), p - 4, x + x + (p - 4), c)
  {
    assert s.mem[2] == 1001 && s.mem[3] == 26 && s.mem[4] == -4 && s.mem[5] == 26;
    var t := s.(mem := s.mem[26 := p - 4], ip := 6, steps := s.steps + 1);
    AddConstant(s, 26, -4, 26, t, fuel + 5, fuel + 4);
    ReadAt6(t, p - 4, y, c, x, fuel);
  }

  /** The first pass, from the machine `__init__` builds with the phase
      and one value queued: the phase less 4 is stored, then the value
      read is turned into the first signal. */
  lemma FirstPass(s: State, phase: int, x: int, fuel: nat)
    requires Amplifier(s, 0, 0, 5, 0, [phase, x])
    ensures Printed(Await(s, fuel + 6), phase - 4, x + x + (phase - 4), 5)
  {
    assert s.mem[0] == 3 && s.mem[1] == 26 && s.inputs[1..] == [x];
    var t := s.(mem := s.mem[26 := phase], ip := 2, inputs := [x], steps := s.steps + 1);
    ReadWord(s, t, fuel + 6, fuel + 5);
    SubtractAt2(t, phase, 0, 5, x, fuel);
  }

  lemma JumpAt22(s: State, p: int, y: int, c: int, x: int, fuel: nat)
    requires Amplifier(s, p, y, c, 22, [x]) && c != 0
    ensures Printed(Await(s, fuel + 5), p, x + x + p, c)
  {
    assert s.mem[22] == 1005 && s.mem[23] == 28 && s.mem[24] == 6;
    var t := s.(ip := 6, steps := s.steps + 1);
    JumpIfWord(s, 28, 6, t, fuel + 5, fuel + 4);
    ReadAt6(t, p, y, c, x, fuel);
  }

  /** Back at address 18 with passes left: the count goes down and the
      next value read is turned into the next signal. */
  lemma NextPass(s: State, p: int, y: int, c: int, x: int, fuel: nat)
    requires Amplifier(s, p, y, c, 18, [x]) && c != 1
    ensures Printed(Await(s, fuel + 6), p, x + x + p, c - 1)
  {
    assert s.mem[18] == 1001 && s.mem[19] == 28 && s.mem[20] == -1 && s.mem[21] == 28;
    var t := s.(mem := s.mem[28 := c - 1], ip := 22, steps := s.steps + 1);
    AddConstant(s, 28, -1, 28, t, fuel + 6, fuel + 5);
    JumpAt22(t, p, y, c - 1, x, fuel);
  }

  /** Back at address 18 on the last pass: the count reaches 0, the jump
      falls through to 99 and the program halts; the loop of `step` then
      steps the halted machine, which raises "Program has halted" with the value
      sent to it still queued and nothing printed. */
  lemma LastPass(s: State, p: int, y: int, x: int, fuel: nat)
    requires Amplifier(s, p, y, 1, 18, [x])
    ensures var w := Await(s, fuel + 6);
      w.Failed? && w.fault == NotRunning && w.state.outputs == [] && !w.state.running
  {
    assert s.mem[18] == 1001 && s.mem[19] == 28 && s.mem[20] == -1 && s.mem[21] == 28;
    var t := s.(mem := s.mem[28 := 0], ip := 22, steps := s.steps + 1);
    AddConstant(s, 28, -1, 28, t, fuel + 6, fuel + 5);
    assert t.mem[22] == 1005 && t.mem[23] == 28 && t.mem[24] == 6 && t.mem[28] == 0;
    var u := t.(ip := 25, steps := t.steps + 1);
    JumpIfWord(t, 28, 6, u, fuel + 5, fuel + 4);
    assert u.mem[25] == 99;
    HaltWord(u, fuel + 4);
  }

  // ---------------------------------------------------------------------
  // The group, one `step` at a time. Amplifier `i` has phase 9 - i, so
  // its cell 26 holds 5 - i once the phase is read.

  /** Amplifier `i` between its passes: at address 18 with `c` passes
      left and `inputs` queued. */
  predicate Idle(s: State, i: int, c: int, inputs: seq<int>) {
    |s.mem| == 29 && Amplifier(s, 5 - i, s.mem[27], c, 18, inputs)
  }

  /** The signal amplifier `i` prints for `x`: twice `x` plus its phase
      less 4. */
  function Amplify(i: int, x: int): int {
    x + x + (5 - i)
  }

  /** Machine `j` of the group. The predicates below say what each
      machine holds only where a proof names `Machine(g, j)`, so a proof
      about whole runs does not unfold them. */
  function Machine(g: Group, j: int): State
    requires 0 <= j < |g.machines|
  {
    g.machines[j]
  }

  /** The group during the first round: amplifier `i` is active with its
      phase and `x` queued, those before it have made their first pass,
      those after it still hold only their phase. */
  predicate InFirstRound(g: Group, i: int, x: int) {
    |g.machines| == 5 && 0 <= i < 5 && g.index == i && g.final == (if i == 0 then None else Some(x))
    && forall j {:trigger Machine(g, j)} :: 0 <= j < 5 ==>
      if j < i then Idle(Machine(g, j), j, 5, [])
      else Amplifier(Machine(g, j), 0, 0, 5, 0, if j == i then [9 - j, x] else [9 - j])
  }

  /** The group later on: amplifier `i` is active with `x` queued, `c`
      passes left, and those before it have one pass fewer left. */
  predicate InRound(g: Group, i: int, c: int, x: int) {
    |g.machines| == 5 && 0 <= i < 5 && g.index == i && g.final == Some(x)
    && forall j {:trigger Machine(g, j)} :: 0 <= j < 5 ==> Idle(Machine(g, j), j, if j < i then c - 1 else c, if j == i then [x] else [])
  }

  /** A machine given one more input is the same amplifier with it
      queued. */
  lemma Fed(s: State, i: int, c: int, x: int)
    requires Idle(s, i, c, [])
    ensures Idle(s.(inputs := s.inputs + [x]), i, c, [x])
  {
    assert s.inputs + [x] == [x];
  }

  /** Where `Forward` leaves each machine of a group of five. */
  lemma ForwardFive(g: Group, t: State, j: int)
    requires |g.machines| == 5 && g.index < 5 && |t.outputs| == 1 && 0 <= j < 5
    ensures var h := Forward(g, t); var n := if g.index < 4 then g.index + 1 else 0;
      |h.machines| == 5 && h.index == n && h.final == Some(t.outputs[0])
      && Machine(h, j) ==
        if j == n then Machine(g, j).(inputs := Machine(g, j).inputs + [t.outputs[0]])
        else if j == g.index then t.(outputs := [])
        else Machine(g, j)
  {
    assert (g.index + 1) % 5 == if g.index < 4 then g.index + 1 else 0;
  }

  /** Forwarding the first signal of amplifier `i` in the first round. */
  lemma FirstForwarded(g: Group, t: State, i: int, x: int)
    requires InFirstRound(g, i, x)
    requires |t.outputs| == 1 && t.outputs[0] == Amplify(i, x) && Idle(t.(outputs := []), i, 5, [])
    ensures if i < 4 then InFirstRound(Forward(g, t), i + 1, Amplify(i, x)) else InRound(Forward(g, t), 0, 5, Amplify(i, x))
  {
    var h := Forward(g, t);
    var y := Amplify(i, x);
    if i < 4 {
      forall j | 0 <= j < 5
        ensures if j < i + 1 then Idle(Machine(h, j), j, 5, [])
          else Amplifier(Machine(h, j), 0, 0, 5, 0, if j == i + 1 then [9 - j, y] else [9 - j])
      {
        ForwardFive(g, t, j);
        if j == i + 1 {
          assert [9 - j] + [y] == [9 - j, y];
        }
      }
    } else {
      forall j | 0 <= j < 5
        ensures Idle(Machine(h, j), j, 5, if j == 0 then [y] else [])
      {
        ForwardFive(g, t, j);
        if j == 0 {
          Fed(Machine(g, 0), 0, 5, y);
        }
      }
    }
  }

  /** A step in the first round forwards the active amplifier's first
      signal and makes the next one active. */
  lemma FirstStep(g: Group, i: int, x: int, fuel: nat)
    requires InFirstRound(g, i, x)
    ensures WellFormed(g) && AnyRunning(g)
    ensures var (h, pass) := GroupStep(g, fuel + 6);
      pass == Forwarded && WellFormed(h)
      && if i < 4 then InFirstRound(h, i + 1, Amplify(i, x)) else InRound(h, 0, 5, Amplify(i, x))
  {
    var s := Machine(g, i);
    assert Amplifier(s, 0, 0, 5, 0, [9 - i, x]);
    FirstPass(s, 9 - i, x, fuel);
    var t := Await(s, fuel + 6).state;
    assert 9 - i - 4 == 5 - i;
    assert Printed(Await(s, fuel + 6), 5 - i, Amplify(i, x), 5);
    StepOf(g, fuel + 6, Forwarded, t);
    FirstForwarded(g, t, i, x);
  }

  /** Forwarding the signal of amplifier `i` in a later round. */
  lemma RoundForwarded(g: Group, t: State, i: int, c: int, x: int)
    requires InRound(g, i, c, x)
    requires |t.outputs| == 1 && t.outputs[0] == Amplify(i, x) && Idle(t.(outputs := []), i, c - 1, [])
    ensures if i < 4 then InRound(Forward(g, t), i + 1, c, Amplify(i, x)) else InRound(Forward(g, t), 0, c - 1, Amplify(i, x))
  {
    var h := Forward(g, t);
    var y := Amplify(i, x);
    if i < 4 {
      forall j | 0 <= j < 5
        ensures Idle(Machine(h, j), j, if j < i + 1 then c - 1 else c, if j == i + 1 then [y] else [])
      {
        ForwardFive(g, t, j);
        if j == i + 1 {
          Fed(Machine(g, j), j, c, y);
        }
      }
    } else {
      forall j | 0 <= j < 5
        ensures Idle(Machine(h, j), j, c - 1, if j == 0 then [y] else [])
      {
        ForwardFive(g, t, j);
        if j == 0 {
          Fed(Machine(g, 0), 0, c - 1, y);
        }
      }
    }
  }

  /** A step in a later round with passes left forwards the active
      amplifier's next signal and makes the next one active; after the
      last amplifier every count is one lower. */
  lemma RoundStep(g: Group, i: int, c: int, x: int, fuel: nat)
    requires InRound(g, i, c, x) && c != 1
    ensures WellFormed(g) && AnyRunning(g)
    ensures var (h, pass) := GroupStep(g, fuel + 6);
      pass == Forwarded && WellFormed(h)
      && if i < 4 then InRound(h, i + 1, c, Amplify(i, x)) else InRound(h, 0, c - 1, Amplify(i, x))
  {
    var s := Machine(g, i);
    assert Idle(s, i, c, [x]);
    NextPass(s, 5 - i, s.mem[27], c, x, fuel);
    var t := Await(s, fuel + 6).state;
    assert Printed(Await(s, fuel + 6), 5 - i, Amplify(i, x), c - 1);
    StepOf(g, fuel + 6, Forwarded, t);
    RoundForwarded(g, t, i, c, x);
  }

  /** With one pass left, amplifier A halts and the next step raises "not
      running", leaving `final_result` as it was. */
  lemma HaltingStep(g: Group, x: int, rounds: nat, fuel: nat)
    requires InRound(g, 0, 1, x) && rounds >= 1
    ensures WellFormed(g)
    ensures var (h, e) := GroupRun(g, rounds, fuel + 6); e == Stopped(NotRunning) && h.final == Some(x)
  {
    var s := Machine(g, 0);
    assert Idle(s, 0, 1, [x]);
    LastPass(s, 5, s.mem[27], x, fuel);
    var w := Await(s, fuel + 6);
    assert w == Failed(NotRunning, w.state);
    StepOf(g, fuel + 6, Broke(NotRunning), w.state);
    assert AnyRunning(g) by {
      assert Machine(g, 0).running;
    }
  }

  /** The signal after `n` more values are forwarded, amplifier `i`
      active with `x` queued. */
  function Amplified(x: int, i: int, n: nat): int
    decreases n
  {
    if n == 0 then x else Amplified(Amplify(i, x), if i < 4 then i + 1 else 0, n - 1)
  }

  /** A forwarded step followed by a run that raises "Program has halted" with
      `v` recorded is such a run one round longer. */
  lemma Continued(g: Group, h: Group, rounds: nat, fuel: nat, v: int)
    requires WellFormed(g) && WellFormed(h) && AnyRunning(g) && rounds >= 1
    requires GroupStep(g, fuel) == (h, Forwarded)
    requires var (k, e) := GroupRun(h, rounds - 1, fuel); e == Stopped(NotRunning) && k.final == Some(v)
    ensures var (k, e) := GroupRun(g, rounds, fuel); e == Stopped(NotRunning) && k.final == Some(v)
  {
    RunNext(g, h, rounds, rounds - 1, fuel);
  }

  /** From a later round: the run raises "Program has halted" once amplifier A
      halts, with the signal after every remaining pass recorded. */
  lemma {:induction false} RoundsRun(g: Group, i: int, c: int, x: int, rounds: nat, fuel: nat)
    requires InRound(g, i, c, x) && (c >= 2 || (c == 1 && i == 0))
    requires rounds >= 5 * (c - 1) - i + 1
    ensures WellFormed(g)
    ensures var (h, e) := GroupRun(g, rounds, fuel + 6);
      e == Stopped(NotRunning) && h.final == Some(Amplified(x, i, 5 * (c - 1) - i))
    decreases 5 * c - i, 1
  {
    if c == 1 {
      assert Amplified(x, i, 5 * (c - 1) - i) == x;
      HaltingStep(g, x, rounds, fuel);
    } else {
      RoundsOnward(g, i, c, x, rounds, fuel);
    }
  }

  /** `RoundsRun` with passes left: one forwarded step, then the rest. */
  lemma {:induction false} RoundsOnward(g: Group, i: int, c: int, x: int, rounds: nat, fuel: nat)
    requires InRound(g, i, c, x) && c >= 2
    requires rounds >= 5 * (c - 1) - i + 1
    ensures WellFormed(g)
    ensures var (h, e) := GroupRun(g, rounds, fuel + 6);
      e == Stopped(NotRunning) && h.final == Some(Amplified(x, i, 5 * (c - 1) - i))
    decreases 5 * c - i, 0
  {
    var n := 5 * (c - 1) - i;
    var y := Amplify(i, x);
    var (i', c') := if i < 4 then (i + 1, c) else (0, c - 1);
    var m := 5 * (c' - 1) - i';
    assert m == n - 1;
    assert Amplified(x, i, n) == Amplified(y, i', m);
    RoundStep(g, i, c, x, fuel);
    var (h, _) := GroupStep(g, fuel + 6);
    assert InRound(h, i', c', y);
    RoundsRun(h, i', c', y, rounds - 1, fuel);
    Continued(g, h, rounds, fuel + 6, Amplified(y, i', m));
  }

  /** From the first round: every amplifier makes five passes. */
  lemma {:induction false} FirstRoundRuns(g: Group, i: int, x: int, rounds: nat, fuel: nat)
    requires InFirstRound(g, i, x) && rounds >= 26 - i
    ensures WellFormed(g)
    ensures var (h, e) := GroupRun(g, rounds, fuel + 6);
      e == Stopped(NotRunning) && h.final == Some(Amplified(x, i, 25 - i))
    decreases 5 - i
  {
    if i == 4 {
      FirstRoundEnds(g, x, rounds, fuel);
    } else {
      var y := Amplify(i, x);
      var m := 25 - (i + 1);
      assert Amplified(x, i, 25 - i) == Amplified(y, i + 1, m);
      FirstStep(g, i, x, fuel);
      var (h, _) := GroupStep(g, fuel + 6);
      FirstRoundRuns(h, i + 1, y, rounds - 1, fuel);
      Continued(g, h, rounds, fuel + 6, Amplified(y, i + 1, m));
    }
  }

  /** The last step of the first round leads into the later rounds. */
  lemma FirstRoundEnds(g: Group, x: int, rounds: nat, fuel: nat)
    requires InFirstRound(g, 4, x) && rounds >= 22
    ensures WellFormed(g)
    ensures var (h, e) := GroupRun(g, rounds, fuel + 6);
      e == Stopped(NotRunning) && h.final == Some(Amplified(x, 4, 21))
  {
    var y := Amplify(4, x);
    assert Amplified(x, 4, 21) == Amplified(y, 0, 20);
    FirstStep(g, 4, x, fuel);
    var (h, _) := GroupStep(g, fuel + 6);
    RoundsRun(h, 0, 5, y, rounds - 1, fuel);
    Continued(g, h, rounds, fuel + 6, Amplified(y, 0, 20));
  }

  /** `__init__` on the sample with phases 9, 8, 7, 6, 5 starts the first
      round. */
  lemma SampleAssembled()
    ensures Assembled(LoopProgram(), [9, 8, 7, 6, 5]).Some?
    ensures InFirstRound(Assembled(LoopProgram(), [9, 8, 7, 6, 5]).value, 0, 0)
  {
    var g := Assembled(LoopProgram(), [9, 8, 7, 6, 5]).value;
    LoopProgramMemory();
    forall j | 0 <= j < 5
      ensures Amplifier(Machine(g, j), 0, 0, 5, 0, if j == 0 then [9 - j, 0] else [9 - j])
    {
      assert [9, 8, 7, 6, 5][j] == 9 - j;
    }
  }

  /** One round of the sample's five amplifiers sends on 32x + 129 for x. */
  lemma RoundAmplified(x: int, n: nat)
    ensures Amplified(x, 0, n + 5) == Amplified(32 * x + 129, 0, n)
  {
    assert Amplified(x, 0, n + 5) == Amplified(2 * x + 5, 1, n + 4);
    assert Amplified(2 * x + 5, 1, n + 4) == Amplified(4 * x + 14, 2, n + 3);
    assert Amplified(4 * x + 14, 2, n + 3) == Amplified(8 * x + 31, 3, n + 2);
    assert Amplified(8 * x + 31, 3, n + 2) == Amplified(16 * x + 64, 4, n + 1);
  }

  /** Twenty-five values forwarded from 0, amplifier A first. */
  lemma SampleAmplified()
    ensures Amplified(0, 0, 25) == 139629729
  {
    RoundAmplified(0, 20);
    RoundAmplified(129, 15);
    RoundAmplified(4257, 10);
    RoundAmplified(136353, 5);
    RoundAmplified(4363425, 0);
  }

  /** The first feedback sample: phases 9, 8, 7, 6, 5 give 139629729,
      recorded before amplifier A is stepped after halting; the run takes
      26 group steps of at most 6 machine steps each. */
  lemma FeedbackSample(rounds: nat, fuel: nat)
    ensures FeedbackSignal(LoopProgram(), [9, 8, 7, 6, 5], rounds + 26, fuel + 6) == Some(139629729)
  {
    SampleAssembled();
    FirstRoundRuns(Assembled(LoopProgram(), [9, 8, 7, 6, 5]).value, 0, 0, rounds + 26, fuel);
    SampleAmplified();
  }

  // ---------------------------------------------------------------------
  // A group of one that starves: the value it forwards to itself is read,
  // and the next read finds no input. `IntcodeInputError` is not an
  // `IntcodeError`, so the harness does not catch it and takes no signal.

  /** Read the phase and the signal, print the signal, then read twice. */
  function StarvedProgram(): seq<int> {
    [3, 11, 3, 11, 4, 11, 3, 11, 3, 11, 99, 0]
  }

  /** The program's code, with `v` in its one data cell 11. */
  predicate StarvedMemory(m: seq<int>, v: int) {
    |m| == 12
    && m[0] == 3 && m[1] == 11 && m[2] == 3 && m[3] == 11 && m[4] == 4 && m[5] == 11
    && m[6] == 3 && m[7] == 11 && m[8] == 3 && m[9] == 11 && m[10] == 99 && m[11] == v
  }

  lemma StarvedProgramMemory()
    ensures StarvedMemory(StarvedProgram(), 0)
  {
    var m := StarvedProgram();
    assert m[0] == 3 && m[1] == 11 && m[2] == 3 && m[3] == 11 && m[4] == 4 && m[5] == 11;
    assert m[6] == 3 && m[7] == 11 && m[8] == 3 && m[9] == 11 && m[10] == 99 && m[11] == 0;
  }

  /** `3 a` with nothing queued: the step raises the input error and
      flags the machine waiting, and the loop of `step` passes it on. */
  lemma StarveWord(s: State, fuel: nat)
    requires s.running && !s.waiting && s.outputs == [] && 0 <= s.ip < |s.mem| && s.mem[s.ip] == 3
    requires s.inputs == [] && fuel >= 1
    ensures Await(s, fuel) == Failed(NoInput, s.(waiting := true))
  {
    StarvedStep(BooleanModes, s);
  }

  /** The first step of the group: the phase and the signal 0 are read,
      0 is printed and handed back to the same amplifier. */
  lemma StarvedFirstStep(g: Group, fuel: nat)
    requires |g.machines| == 1 && g.index == 0
    requires var s := g.machines[0];
      s.ip == 0 && s.base == 0 && s.inputs == [5, 0] && s.outputs == [] && s.running && !s.waiting
      && StarvedMemory(s.mem, 0)
    ensures var (h, pass) := GroupStep(g, fuel + 3);
      pass == Forwarded && |h.machines| == 1 && h.index == 0 && h.final == Some(0)
      && var t := h.machines[0];
      t.ip == 6 && t.inputs == [0] && t.outputs == [] && t.running && !t.waiting && StarvedMemory(t.mem, 0)
  {
    var s := g.machines[0];
    assert s.mem[0] == 3 && s.mem[1] == 11 && s.inputs[1..] == [0];
    var s1 := s.(mem := s.mem[11 := 5], ip := 2, inputs := [0], steps := s.steps + 1);
    ReadWord(s, s1, fuel + 3, fuel + 2);
    assert s1.mem[2] == 3 && s1.mem[3] == 11 && s1.inputs[1..] == [];
    var s2 := s1.(mem := s1.mem[11 := 0], ip := 4, inputs := [], steps := s1.steps + 1);
    ReadWord(s1, s2, fuel + 2, fuel + 1);
    assert s2.mem[4] == 4 && s2.mem[5] == 11 && s2.mem[11] == 0;
    var t := s2.(outputs := [0], ip := 6, steps := s2.steps + 1);
    PrintWord(s2, t, fuel + 1, fuel);
    StepOf(g, fuel + 3, Forwarded, t);
  }

  /** The second step: the 0 handed back is read, and the next read
      starves with 0 still the final result. */
  lemma StarvedSecondStep(g: Group, fuel: nat)
    requires |g.machines| == 1 && g.index == 0 && g.final == Some(0)
    requires var s := g.machines[0];
      s.ip == 6 && s.inputs == [0] && s.outputs == [] && s.running && !s.waiting && StarvedMemory(s.mem, 0)
    ensures var (h, pass) := GroupStep(g, fuel + 3); pass == Broke(NoInput) && h.final == Some(0)
  {
    var s := g.machines[0];
    assert s.mem[6] == 3 && s.mem[7] == 11 && s.inputs[1..] == [];
    var s1 := s.(mem := s.mem[11 := 0], ip := 8, inputs := [], steps := s.steps + 1);
    ReadWord(s, s1, fuel + 3, fuel + 2);
    assert s1.mem[8] == 3;
    StarveWord(s1, fuel + 2);
    StepOf(g, fuel + 3, Broke(NoInput), s1.(waiting := true));
  }

  /** One amplifier with phase 5 forwards 0 to itself and then starves:
      `final_result` holds 0, but the input error escapes the harness,
      so the sequence has no signal. */
  lemma StarvedSample(rounds: nat, fuel: nat)
    ensures Assembled(StarvedProgram(), [5]).Some?
    ensures var (h, e) := GroupRun(Assembled(StarvedProgram(), [5]).value, rounds + 2, fuel + 3);
      e == Stopped(NoInput) && h.final == Some(0)
    ensures FeedbackSignal(StarvedProgram(), [5], rounds + 2, fuel + 3) == None
  {
    var g := Assembled(StarvedProgram(), [5]).value;
    StarvedProgramMemory();
    assert [5] + [0] == [5, 0];
    StarvedFirstStep(g, fuel);
    var (h, _) := GroupStep(g, fuel + 3);
    assert AnyRunning(g) by { assert g.machines[0].running; }
    assert AnyRunning(h) by { assert h.machines[0].running; }
    StarvedSecondStep(h, fuel);
    RunNext(g, h, rounds + 2, rounds + 1, fuel + 3);
  }
}
