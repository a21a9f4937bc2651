/** Day 2: the first Intcode interpreter. It knows only add (1) and
    multiply (2), reads every operand by position, and advances the
    program counter by 4 whatever the command, until the word at the
    program counter is 99. Both parts share this interpreter; part 2
    adds a search over the noun and verb cells. */
module GravityAssist {
  import opened Common

  /** How a run ends: at a 99, or with an IndexError raised while the
      loop body at `pc` read or wrote memory out of range. */
  datatype Outcome = Halted(pc: int) | Crashed(pc: int)

  /** One pass of the loop body for a command word other than 99: both
      operands and the destination are read whatever the command; only
      commands 1 and 2 write. None means the pass raised IndexError. */
  function Iterate(mem: seq<int>, pc: nat): (r: Option<seq<int>>)
    requires pc < |mem|
    ensures r.Some? ==> |r.value| == |mem|
  {
    var a :- Get(mem, pc + 1);
    var reg1 :- Get(mem, a);
    var b :- Get(mem, pc + 2);
    var reg2 :- Get(mem, b);
    var dest :- Get(mem, pc + 3);
    if mem[pc] == 1 then Set(mem, dest, reg1 + reg2)
    else if mem[pc] == 2 then Set(mem, dest, reg1 * reg2)
    else Some(mem)
  }

  /** The whole loop from program counter `pc`: the final memory and how
      the run ended. It always ends, since `pc` only grows. */
  function Run(mem: seq<int>, pc: nat): (seq<int>, Outcome)
    decreases |mem| - pc
  {
    if pc >= |mem| then (mem, Crashed(pc))
    else if mem[pc] == 99 then (mem, Halted(pc))
    else match Iterate(mem, pc)
      case None => (mem, Crashed(pc))
      case Some(next) => Run(next, pc + 4)
  }

  /** `runIntcode`: runs the program in place. */
  method RunIntcode(program: array<int>) returns (outcome: Outcome)
    modifies program
    ensures (program[..], outcome) == Run(old(program[..]), 0)
  {
    var pc: nat := 0;
    while true
      invariant Run(program[..], pc) == Run(old(program[..]), 0)
      decreases program.Length - pc
    {
      if pc >= program.Length {
        return Crashed(pc);
      }
      if program[pc] == 99 {
        return Halted(pc);
      }
      ghost var before := program[..];
      var command := program[pc];
      var a := ArrayGet(program, pc + 1);
      if a.None? { return Crashed(pc); }
      var reg1 := ArrayGet(program, a.value);
      if reg1.None? { return Crashed(pc); }
      var b := ArrayGet(program, pc + 2);
      if b.None? { return Crashed(pc); }
      var reg2 := ArrayGet(program, b.value);
      if reg2.None? { return Crashed(pc); }
      var dest := ArrayGet(program, pc + 3);
      if dest.None? { return Crashed(pc); }
      if command == 1 {
        var ok := ArraySet(program, dest.value, reg1.value + reg2.value);
        if !ok { return Crashed(pc); }
      }
      if command == 2 {
        var ok := ArraySet(program, dest.value, reg1.value * reg2.value);
        if !ok { return Crashed(pc); }
      }
      assert Iterate(before, pc) == Some(program[..]);
      pc := pc + 4;
    }
  }

  /** `restoreGravityAssistProgram`: the 1202 alarm state. */
  method RestoreGravityAssistProgram(program: array<int>)
    requires program.Length >= 3
    modifies program
    ensures program[..] == old(program[..])[1 := 12][2 := 2]
  {
    program[1] := 12;
    program[2] := 2;
  }

  // ---------------------------------------------------------------------
  // What the interpreter guarantees.

  /** A pass writes at most the destination cell. */
  lemma IterateWritesOnlyDestination(mem: seq<int>, pc: nat, k: nat)
    requires pc + 3 < |mem| && k < |mem|
    requires Iterate(mem, pc).Some?
    requires mem[pc + 3] != k && mem[pc + 3] != k - |mem|
    ensures Iterate(mem, pc).value[k] == mem[k]
  {
  }

  /** A command other than 1 and 2 writes nothing: it is skipped. */
  lemma OtherCommandsAreSkipped(mem: seq<int>, pc: nat)
    requires pc < |mem| && mem[pc] != 1 && mem[pc] != 2
    ensures Iterate(mem, pc).Some? ==> Iterate(mem, pc).value == mem
  {
  }

  /** Memory never grows or shrinks. */
  lemma {:induction false} RunPreservesLength(mem: seq<int>, pc: nat)
    ensures |Run(mem, pc).0| == |mem|
    decreases |mem| - pc
  {
    if pc < |mem| && mem[pc] != 99 && Iterate(mem, pc).Some? {
      RunPreservesLength(Iterate(mem, pc).value, pc + 4);
    }
  }

  /** A run halts only on a 99 in the final memory, at a program counter
      reached in steps of 4. */
  lemma {:induction false} HaltsOnNinetyNine(mem: seq<int>, pc: nat)
    requires Run(mem, pc).1.Halted?
    ensures var (final, outcome) := Run(mem, pc);
      pc <= outcome.pc < |final| && (outcome.pc - pc) % 4 == 0 && final[outcome.pc] == 99
    decreases |mem| - pc
  {
    if pc < |mem| && mem[pc] != 99 {
      var r := Iterate(mem, pc);
      if r.Some? {
        var final := Run(r.value, pc + 4);
        assert Run(mem, pc) == final;
        HaltsOnNinetyNine(r.value, pc + 4);
        assert (final.1.pc - pc) % 4 == ((final.1.pc - (pc + 4)) % 4 + 4) % 4;
      }
    }
  }

  // ---------------------------------------------------------------------
  // The four examples of the puzzle text.

  lemma ExampleAdd()
    ensures Run([1, 0, 0, 0, 99], 0) == ([2, 0, 0, 0, 99], Halted(4))
  {
    var m := [1, 0, 0, 0, 99];
    assert m[0 := 2] == [2, 0, 0, 0, 99];
    assert Iterate(m, 0) == Some([2, 0, 0, 0, 99]);
    assert Run([2, 0, 0, 0, 99], 4) == ([2, 0, 0, 0, 99], Halted(4));
  }

  lemma ExampleMultiply()
    ensures Run([2, 3, 0, 3, 99], 0) == ([2, 3, 0, 6, 99], Halted(4))
  {
    assert [2, 3, 0, 3, 99][3 := 6] == [2, 3, 0, 6, 99];
    assert Iterate([2, 3, 0, 3, 99], 0) == Some([2, 3, 0, 6, 99]);
    assert Run([2, 3, 0, 6, 99], 4) == ([2, 3, 0, 6, 99], Halted(4));
  }

  lemma ExampleSquare()
    ensures Run([2, 4, 4, 5, 99, 0], 0) == ([2, 4, 4, 5, 99, 9801], Halted(4))
  {
    assert [2, 4, 4, 5, 99, 0][5 := 9801] == [2, 4, 4, 5, 99, 9801];
    assert Iterate([2, 4, 4, 5, 99, 0], 0) == Some([2, 4, 4, 5, 99, 9801]);
    assert Run([2, 4, 4, 5, 99, 9801], 4) == ([2, 4, 4, 5, 99, 9801], Halted(4));
  }

  lemma ExampleSelfModifying()
    ensures Run([1, 1, 1, 4, 99, 5, 6, 0, 99], 0) == ([30, 1, 1, 4, 2, 5, 6, 0, 99], Halted(8))
  {
    assert [1, 1, 1, 4, 99, 5, 6, 0, 99][4 := 2] == [1, 1, 1, 4, 2, 5, 6, 0, 99];
    assert Iterate([1, 1, 1, 4, 99, 5, 6, 0, 99], 0) == Some([1, 1, 1, 4, 2, 5, 6, 0, 99]);
    assert [1, 1, 1, 4, 2, 5, 6, 0, 99][0 := 30] == [30, 1, 1, 4, 2, 5, 6, 0, 99];
    assert Iterate([1, 1, 1, 4, 2, 5, 6, 0, 99], 4) == Some([30, 1, 1, 4, 2, 5, 6, 0, 99]);
    assert Run([30, 1, 1, 4, 2, 5, 6, 0, 99], 8) == ([30, 1, 1, 4, 2, 5, 6, 0, 99], Halted(8));
  }

  // ---------------------------------------------------------------------
  // Part 2: find the noun and verb that make cell 0 equal the target.

  /** One attempt: a fresh copy of the program with the noun in cell 1
      and the verb in cell 2, run to its end. */
  function Attempt(program: seq<int>, noun: int, verb: int): (seq<int>, Outcome)
    requires |program| >= 3
  {
    Run(program[1 := noun][2 := verb], 0)
  }

  predicate Hit(program: seq<int>, target: int, noun: int, verb: int)
    requires |program| >= 3
  {
    var (final, outcome) := Attempt(program, noun, verb);
    outcome.Halted? && |final| > 0 && final[0] == target
  }

  predicate Miss(program: seq<int>, target: int, noun: int, verb: int)
    requires |program| >= 3
  {
    var (final, outcome) := Attempt(program, noun, verb);
    outcome.Halted? && !(|final| > 0 && final[0] == target)
  }

  /** Pairs are tried noun-major: (n, v) comes before (noun, verb). */
  predicate Before(n: int, v: int, noun: int, verb: int) {
    n < noun || (n == noun && v < verb)
  }

  predicate InGrid(n: int, v: int) {
    0 <= n < 100 && 0 <= v < 100
  }

  /** The search either finds a pair, finds none, or is aborted by an
      IndexError escaping from the attempt with that pair. */
  datatype Search = Found(noun: int, verb: int) | NotFound | Aborted(noun: int, verb: int)

  /** `bruteForce`, with the program passed in instead of read from a file. */
  method BruteForce(program: seq<int>, target: int) returns (r: Search)
    requires |program| >= 3
    ensures r.Found? ==> InGrid(r.noun, r.verb) && Hit(program, target, r.noun, r.verb)
    ensures r.Aborted? ==> InGrid(r.noun, r.verb) && Attempt(program, r.noun, r.verb).1.Crashed?
    ensures !r.NotFound? ==> forall n, v :: InGrid(n, v) && Before(n, v, r.noun, r.verb) ==> Miss(program, target, n, v)
    ensures r.NotFound? ==> forall n, v :: InGrid(n, v) ==> Miss(program, target, n, v)
  {
    for noun := 0 to 100
      invariant forall n, v :: InGrid(n, v) && n < noun ==> Miss(program, target, n, v)
    {
      for verb := 0 to 100
        invariant forall n, v :: InGrid(n, v) && Before(n, v, noun, verb) ==> Miss(program, target, n, v)
      {
        var memory := new int[|program|](i requires 0 <= i < |program| => program[i]);
        memory[1] := noun;
        memory[2] := verb;
        assert memory[..] == program[1 := noun][2 := verb];
        var outcome := RunIntcode(memory);
        RunPreservesLength(program[1 := noun][2 := verb], 0);
        if outcome.Crashed? {
          return Aborted(noun, verb);
        }
        if memory[0] == target {
          return Found(noun, verb);
        }
      }
    }
    return NotFound;
  }
}
