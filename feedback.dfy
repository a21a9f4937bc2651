// The day-7 feedback loop: a group of Intcode machines with boolean
// modes, stepped round-robin, each output passed on to the next
// machine's input queue.

module AmplifierFeedback {
  import opened Common
  import opened IntcodeMachines

  // ---------------------------------------------------------------------
  // The group's fields as one value.

  /** One machine state per amplifier, the index of the active one and the
      last value passed on (`final_result`). */
  datatype Group = Group(machines: seq<State>, index: nat, final: Option<int>)

  predicate WellFormed(g: Group) {
    1 <= |g.machines| && g.index < |g.machines|
  }

  /** `is_waiting`: every amplifier is flagged waiting. */
  predicate AllWaiting(g: Group) {
    forall i :: 0 <= i < |g.machines| ==> g.machines[i].waiting
  }

  /** `is_running`: some amplifier is still running. */
  predicate AnyRunning(g: Group) {
    exists i :: 0 <= i < |g.machines| && g.machines[i].running
  }

  /** One amplifier as `__init__` leaves it before machine 0 gets its
      signal: the program loaded, the running flag set directly, the phase
      as its only input. */
  function Primed(program: seq<int>, phase: int): State {
    Load(BooleanModes, Fresh(), program).(running := true, inputs := [phase])
  }

  /** `__init__`: one amplifier per phase, and machine 0 also gets the
      signal 0. Naming takes one letter of "ABCDE" per amplifier and
      `self.amplifiers[0]` needs one, so fewer than one or more than five
      phases raise, here None. */
  function Assembled(program: seq<int>, sequence: seq<int>): (r: Option<Group>)
    ensures r.Some? <==> 1 <= |sequence| <= 5
    ensures r.Some? ==>
      (WellFormed(r.value) && |r.value.machines| == |sequence| && r.value.index == 0
       && r.value.final == None && !AllWaiting(r.value) && AnyRunning(r.value))
    ensures r.Some? ==> forall i :: 0 <= i < |sequence| ==>
      (var m := r.value.machines[i];
       m.mem == program && m.ip == 0 && m.base == 0 && m.outputs == [] && m.steps == 0
       && m.running && !m.waiting
       && m.inputs == [sequence[i]] + (if i == 0 then [0] else []))
  {
    if !(1 <= |sequence| <= 5) then None
    else
      var ms := seq(|sequence|, i requires 0 <= i < |sequence| => Primed(program, sequence[i]));
      var g := Group(ms[0 := ms[0].(inputs := ms[0].inputs + [0])], 0, None);
      assert g.machines[0].running;
      Some(g)
  }

  // ---------------------------------------------------------------------
  // What one machine step does to the flags and queues the group uses.

  /** A completed step clears the waiting flag and can only append to the
      output queue; a raise is never the group's hanging error, leaves the
      output queue alone, and flags the machine waiting when it ran out of
      input. */
  lemma StepFlags(s: State)
    ensures var o := Transition(BooleanModes, s);
      (o.Done? ==>
         !o.state.waiting && |s.outputs| <= |o.state.outputs| && o.state.outputs[..|s.outputs|] == s.outputs)
      && (o.Raised? ==>
         o.fault != Hanging && o.state.outputs == s.outputs && (o.fault == NoInput ==> o.state.waiting))
  {
    if s.running && Opcode(s).Some? && Known(BooleanModes, Opcode(s).value) {
      var opcode := Opcode(s).value;
      StepRunsHandler(BooleanModes, s, opcode);
      HandlerFlags(s.(waiting := false), opcode);
    }
  }

  /** The same for the handler alone, on a machine whose flag is clear. */
  lemma HandlerFlags(s: State, opcode: int)
    requires Known(BooleanModes, opcode) && !s.waiting
    ensures var o := Execute(BooleanModes, s, opcode);
      (o.Done? ==>
         !o.state.waiting && |s.outputs| <= |o.state.outputs| && o.state.outputs[..|s.outputs|] == s.outputs)
      && (o.Raised? ==>
         o.fault != Hanging && o.state.outputs == s.outputs && (o.fault == NoInput ==> o.state.waiting))
  {
    var o := Execute(BooleanModes, s, opcode);
    if opcode == 4 {
      assert o == OutputBranch(BooleanModes, s);
      if o.Done? {
        assert o.state.outputs == s.outputs + [o.state.outputs[|s.outputs|]];
        assert o.state.outputs[..|s.outputs|] == s.outputs;
      }
    } else if opcode == 3 {
      assert o == InputBranch(BooleanModes, s);
    } else {
      assert o.state.outputs == s.outputs;
    }
  }

  // ---------------------------------------------------------------------
  // The inner loop of `step`.

  /** How `while not amplifier.has_output()` ends. */
  datatype Wait = Ready(state: State) | Failed(fault: Fault, state: State) | Exhausted(state: State)

  /** Steps the machine until it has output, raising `Hanging` if it is
      flagged waiting at the test and passing on whatever a step raises;
      `fuel` bounds the steps (the source has no bound). */
  function Await(s: State, fuel: nat): (w: Wait)
    ensures w.Ready? ==> |w.state.outputs| > 0
    decreases fuel, 0
  {
    if |s.outputs| > 0 then Ready(s)
    else if s.waiting then Failed(Hanging, s)
    else if fuel == 0 then Exhausted(s)
    else
      Resume(Transition(BooleanModes, s), fuel - 1)
  }

  /** What `Await` does after one step, with `fuel` left. */
  function Resume(o: Outcome, fuel: nat): (w: Wait)
    ensures w.Ready? ==> |w.state.outputs| > 0
    decreases fuel, 1
  {
    if o.Done? then Await(o.state, fuel) else Failed(o.fault, o.state)
  }

  /** The loop returns at once when output is already queued; otherwise
      only with output, or with the queue still empty. It raises "hanging"
      exactly when the machine starts out flagged waiting with nothing
      queued, and then changes nothing: a machine that was not waiting
      reports its own running out of input as `NoInput` instead. */
  lemma {:induction false} AwaitEnds(s: State, fuel: nat)
    ensures var w := Await(s, fuel);
      (|s.outputs| > 0 ==> w == Ready(s))
      && (w.Ready? ==> |w.state.outputs| > 0)
      && (w.Failed? ==> w.state.outputs == [])
      && (w.Exhausted? ==> w.state.outputs == [] && !w.state.waiting)
      && (w.Failed? && w.fault == Hanging <==> s.outputs == [] && s.waiting)
      && (w.Failed? && w.fault == Hanging ==> w.state == s)
    decreases fuel
  {
    if |s.outputs| == 0 && !s.waiting && fuel > 0 {
      StepFlags(s);
      var o := Transition(BooleanModes, s);
      if o.Done? {
        var rest := fuel - 1;
        AwaitNext(s, o.state, fuel, rest);
        AwaitEnds(o.state, rest);
      }
    }
  }

  // ---------------------------------------------------------------------
  // The group's `step` and `run`.

  /** How a group step ends. */
  datatype Pass = Forwarded | Broke(fault: Fault) | Stalled

  /** After the loop: the oldest output `t` holds is popped, recorded, and
      appended to the next machine's inputs, which becomes the active
      one. */
  function Forward(g: Group, t: State): Group
    requires WellFormed(g) && |t.outputs| > 0
  {
    var x := t.outputs[0];
    var ms := g.machines[g.index := t.(outputs := t.outputs[1..])];
    var j := (g.index + 1) % |ms|;
    Group(ms[j := ms[j].(inputs := ms[j].inputs + [x])], j, Some(x))
  }

  /** `step`: the active machine runs until it has output; an error leaves
      the machine as the failing step did and nothing else changed. */
  function GroupStep(g: Group, fuel: nat): (Group, Pass)
    requires WellFormed(g)
  {
    match Await(g.machines[g.index], fuel)
    case Ready(t) => (Forward(g, t), Forwarded)
    case Failed(f, t) => (g.(machines := g.machines[g.index := t]), Broke(f))
    case Exhausted(t) => (g.(machines := g.machines[g.index := t]), Stalled)
  }

  /** A step keeps the group well formed. When it forwards, the value is
      the oldest output of the active machine after its loop, it becomes
      `final_result`, the next machine (cyclically) is active and has it
      appended to the inputs it had, and no third machine changes. When it
      does not, only the active machine changes. */
  lemma StepForwards(g: Group, fuel: nat)
    requires WellFormed(g)
    ensures var (h, p) := GroupStep(g, fuel);
      var n := |g.machines|;
      var w := Await(g.machines[g.index], fuel);
      WellFormed(h) && |h.machines| == n
      && (p == Forwarded <==> w.Ready?)
      && (p == Stalled <==> w.Exhausted?)
      && (p == Forwarded ==>
            var x := w.state.outputs[0];
            var before := if h.index == g.index then w.state.inputs else g.machines[h.index].inputs;
            h.index == (g.index + 1) % n && h.final == Some(x)
            && h.machines[h.index].inputs == before + [x]
            && h.machines[g.index].outputs == w.state.outputs[1..]
            && (forall i :: 0 <= i < n && i != g.index && i != h.index ==> h.machines[i] == g.machines[i]))
      && (p != Forwarded ==>
            h.index == g.index && h.final == g.final && h.machines[g.index] == w.state
            && (forall i :: 0 <= i < n && i != g.index ==> h.machines[i] == g.machines[i]))
  {
    AwaitEnds(g.machines[g.index], fuel);
  }

  /** When every amplifier is waiting and the active one has nothing
      queued, the step raises "hanging" and changes nothing. */
  lemma DeadlockHangs(g: Group, fuel: nat)
    requires WellFormed(g) && AllWaiting(g) && g.machines[g.index].outputs == []
    ensures GroupStep(g, fuel) == (g, Broke(Hanging))
  {
    AwaitEnds(g.machines[g.index], fuel);
    assert g.machines[g.index := g.machines[g.index]] == g.machines;
  }

  /** `run`: `while self.is_running(): self.step()`, for at most `rounds`
      group steps of at most `fuel` machine steps each. */
  function GroupRun(g: Group, rounds: nat, fuel: nat): (Group, Ending)
    requires WellFormed(g)
    decreases rounds
  {
    if !AnyRunning(g) then (g, Halted)
    else if rounds == 0 then (g, OutOfFuel)
    else
      var (h, p) := GroupStep(g, fuel);
      StepForwards(g, fuel);
      match p
      case Forwarded => GroupRun(h, rounds - 1, fuel)
      case Broke(f) => (h, Stopped(f))
      case Stalled => (h, OutOfFuel)
  }

  /** The run keeps the group well formed, and it returns normally only
      once no amplifier is running. (It usually ends by raising instead:
      the first machine to halt is stepped again by the inner loop.) */
  lemma {:induction false} RunEnds(g: Group, rounds: nat, fuel: nat)
    requires WellFormed(g)
    ensures var (h, e) := GroupRun(g, rounds, fuel);
      WellFormed(h) && |h.machines| == |g.machines| && (e == Halted ==> !AnyRunning(h))
    decreases rounds
  {
    if AnyRunning(g) && rounds > 0 {
      var (h, p) := GroupStep(g, fuel);
      StepForwards(g, fuel);
      if p == Forwarded {
        RunEnds(h, rounds - 1, fuel);
      }
    }
  }

  // ---------------------------------------------------------------------
  // The answer for one sequence, and the best over many.

  /** The run ends in a way the harness catches: it returns, or it raises
      an `IntcodeError`. `IntcodeInputError` and Python's IndexError are not
      caught and end the program. */
  predicate Caught(e: Ending) {
    e == Halted || (e.Stopped? && IsIntcodeError(e.fault))
  }

  /** The harness takes `final_result` when the run returns or raises an
      `IntcodeError`; None when the group cannot be built, nothing was
      forwarded, the run raised anything else, or (only in this model) the
      budget ran out. */
  function FeedbackSignal(program: seq<int>, sequence: seq<int>, rounds: nat, fuel: nat): Option<int> {
    match Assembled(program, sequence)
    case None => None
    case Some(g) =>
      var (h, e) := GroupRun(g, rounds, fuel);
      if Caught(e) then h.final else None
  }

  /** A signal exists exactly when the group can be built, its run returned
      or raised an `IntcodeError`, and something was forwarded; it is then
      the last value forwarded. A run that starves an amplifier of input
      (`IntcodeInputError`) or reads outside memory has no signal. */
  lemma SignalCaught(program: seq<int>, sequence: seq<int>, rounds: nat, fuel: nat)
    ensures var r := FeedbackSignal(program, sequence, rounds, fuel);
      var a := Assembled(program, sequence);
      (r.Some? <==>
         a.Some? && 1 <= |sequence| <= 5
         && var (h, e) := GroupRun(a.value, rounds, fuel);
         (e == Halted || (e.Stopped? && e.fault != NoInput && e.fault != IndexError)) && h.final.Some?)
      && (r.Some? ==> r == GroupRun(a.value, rounds, fuel).0.final)
      && (a.Some? && GroupRun(a.value, rounds, fuel).1 in {Stopped(NoInput), Stopped(IndexError), OutOfFuel} ==> r.None?)
  {
  }

  /** `max` of a list of signals; None when the list is empty or holds a
      missing signal. */
  function Best(signals: seq<Option<int>>): Option<int>
    decreases |signals|
  {
    if |signals| == 0 then None
    else if signals[0].None? || |signals| == 1 then signals[0]
    else
      match Best(signals[1..])
      case None => None
      case Some(best) => Some(if signals[0].value >= best then signals[0].value else best)
  }

  /** The best is one of the signals, all are present, and none is larger;
      with an empty list or a missing signal there is no best. */
  lemma {:induction false} BestIsMaximum(signals: seq<Option<int>>)
    ensures var r := Best(signals);
      (r.Some? <==> |signals| > 0 && forall k :: 0 <= k < |signals| ==> signals[k].Some?)
      && (r.Some? ==> r in signals && forall k :: 0 <= k < |signals| ==> signals[k].value <= r.value)
    decreases |signals|
  {
    if |signals| > 1 {
      var tail := signals[1..];
      BestIsMaximum(tail);
      assert forall k :: 1 <= k < |signals| ==> signals[k] == tail[k - 1];
      if signals[0].None? {
      } else if Best(tail).Some? {
        assert Best(signals) == signals[0] || Best(signals) == Best(tail);
      } else {
        var k :| 0 <= k < |tail| && tail[k].None?;
        assert signals[k + 1] == tail[k];
      }
    }
  }

  /** The signal of each of the caller's sequences, in order. */
  function Signals(program: seq<int>, sequences: seq<seq<int>>, rounds: nat, fuel: nat): (r: seq<Option<int>>)
    ensures |r| == |sequences|
    ensures forall k :: 0 <= k < |sequences| ==> r[k] == FeedbackSignal(program, sequences[k], rounds, fuel)
  {
    seq(|sequences|, k requires 0 <= k < |sequences| => FeedbackSignal(program, sequences[k], rounds, fuel))
  }

  /** `max(signals)` over the caller's list of phase sequences. */
  function BestFeedback(program: seq<int>, sequences: seq<seq<int>>, rounds: nat, fuel: nat): Option<int> {
    Best(Signals(program, sequences, rounds, fuel))
  }

  /** The best feedback signal is the signal of one of the sequences and no
      sequence's is larger; it exists exactly when every sequence has one. */
  lemma BestFeedbackIsMaximum(program: seq<int>, sequences: seq<seq<int>>, rounds: nat, fuel: nat)
    ensures var r := BestFeedback(program, sequences, rounds, fuel);
      (r.Some? <==>
         (|sequences| > 0 && forall k :: 0 <= k < |sequences| ==> FeedbackSignal(program, sequences[k], rounds, fuel).Some?))
      && (r.Some? ==>
            (exists k :: 0 <= k < |sequences| && FeedbackSignal(program, sequences[k], rounds, fuel) == r)
            && forall k :: 0 <= k < |sequences| ==> FeedbackSignal(program, sequences[k], rounds, fuel).value <= r.value)
  {
    var signals := Signals(program, sequences, rounds, fuel);
    BestIsMaximum(signals);
    if Best(signals).Some? {
      var k :| 0 <= k < |signals| && signals[k] == Best(signals);
    }
  }

  /** The outcome of the inner loop of `step`, from how it ended and the
      machine as it was left. */
  function Waited(pass: Pass, s: State): Wait {
    match pass
    case Forwarded => Ready(s)
    case Broke(f) => Failed(f, s)
    case Stalled => Exhausted(s)
  }

  /** One forwarded round of `GroupRun`. */
  lemma RunNext(g: Group, h: Group, rounds: nat, rest: nat, fuel: nat)
    requires WellFormed(g) && WellFormed(h) && AnyRunning(g) && rounds == rest + 1
    requires GroupStep(g, fuel) == (h, Forwarded)
    ensures GroupRun(g, rounds, fuel) == GroupRun(h, rest, fuel)
  {
  }

  /** `Forward` told by the machines after the output is taken. */
  lemma ForwardOf(g: Group, t: State, m: seq<State>, h: Group)
    requires WellFormed(g) && |t.outputs| > 0
    requires m == g.machines[g.index := t.(outputs := t.outputs[1..])]
    requires h.index == (g.index + 1) % |g.machines| && h.final == Some(t.outputs[0])
    requires h.machines == m[h.index := m[h.index].(inputs := m[h.index].inputs + [t.outputs[0]])]
    ensures h == Forward(g, t)
  {
  }

  /** `Forward` overwrites the active machine, whatever it held before. */
  lemma ForwardOverwrites(g: Group, t: State)
    requires WellFormed(g) && |t.outputs| > 0
    ensures Forward(g.(machines := g.machines[g.index := t]), t) == Forward(g, t)
  {
    assert g.machines[g.index := t][g.index := t.(outputs := t.outputs[1..])]
      == g.machines[g.index := t.(outputs := t.outputs[1..])];
  }

  /** `GroupStep` told by the pass it reports and the state it leaves. */
  lemma StepOf(g: Group, fuel: nat, pass: Pass, t: State)
    requires WellFormed(g) && Await(g.machines[g.index], fuel) == Waited(pass, t)
    ensures pass == Forwarded ==> |t.outputs| > 0 && GroupStep(g, fuel) == (Forward(g, t), pass)
    ensures pass != Forwarded ==> GroupStep(g, fuel) == (g.(machines := g.machines[g.index := t]), pass)
  {
  }

  /** A completed step on a machine with nothing queued and not waiting
      continues the loop. */
  lemma AwaitNext(s: State, t: State, fuel: nat, rest: nat)
    requires |s.outputs| == 0 && !s.waiting && fuel == rest + 1 && Transition(BooleanModes, s) == Done(t)
    ensures Await(s, fuel) == Await(t, rest)
  {
    assert Await(s, fuel) == Resume(Done(t), rest);
  }

  /** `while not amplifier.has_output()` in `step`, on the active machine:
      it reports `Forwarded` once output is queued. */
  method AwaitOutput(amplifier: IntcodeMachine, fuel: nat) returns (pass: Pass)
    requires amplifier.variant == BooleanModes
    modifies amplifier
    ensures Await(old(amplifier.Snapshot()), fuel) == Waited(pass, amplifier.Snapshot())
  {
    var budget := fuel;
    while !amplifier.HasOutput()
      invariant Await(amplifier.Snapshot(), budget) == Await(old(amplifier.Snapshot()), fuel)
      decreases budget
    {
      if amplifier.isWaiting {
        return Broke(Hanging);
      }
      if budget == 0 {
        return Stalled;
      }
      ghost var before := amplifier.Snapshot();
      var fault := amplifier.Step();
      if fault.Some? {
        return Broke(fault.value);
      }
      var rest := budget - 1;
      AwaitNext(before, amplifier.Snapshot(), budget, rest);
      budget := rest;
    }
    return Forwarded;
  }

  // ---------------------------------------------------------------------
  // The group object.

  /** The loop of `__init__`: one new amplifier per phase, loaded with the
      program, marked running and given its phase. */
  method PrimedAmplifiers(program: seq<int>, sequence: seq<int>) returns (ms: seq<IntcodeMachine>)
    ensures |ms| == |sequence|
    ensures forall i, j :: 0 <= i < j < |ms| ==> ms[i] != ms[j]
    ensures forall i :: 0 <= i < |ms| ==>
      fresh(ms[i]) && ms[i].variant == BooleanModes && ms[i].Snapshot() == Primed(program, sequence[i])
  {
    ms := [];
    var k := 0;
    while k < |sequence|
      invariant k == |ms| <= |sequence|
      invariant forall i, j :: 0 <= i < j < k ==> ms[i] != ms[j]
      invariant forall i :: 0 <= i < k ==>
        fresh(ms[i]) && ms[i].variant == BooleanModes && ms[i].Snapshot() == Primed(program, sequence[i])
    {
      var amplifier := new IntcodeMachine(BooleanModes);
      amplifier.SetProgram(program);
      amplifier.isRunning := true;
      amplifier.AddInput(sequence[k]);
      ms := ms + [amplifier];
      k := k + 1;
    }
  }

  class AmplifierGroup {
    const amplifiers: seq<IntcodeMachine>
    var currentIndex: nat
    var finalResult: Option<int>

    /** At least one amplifier, all distinct machines with boolean modes,
        and the index in range. */
    ghost predicate Valid()
      reads this
    {
      1 <= |amplifiers| && currentIndex < |amplifiers|
      && (forall i, j :: 0 <= i < j < |amplifiers| ==> amplifiers[i] != amplifiers[j])
      && (forall i :: 0 <= i < |amplifiers| ==> amplifiers[i].variant == BooleanModes)
    }

    /** The fields as one value. */
    function Snapshot(): Group
      reads this, amplifiers
    {
      Group(seq(|amplifiers|, i requires 0 <= i < |amplifiers| reads amplifiers => amplifiers[i].Snapshot()),
            currentIndex, finalResult)
    }

    /** `__init__` with a non-empty program (an empty one makes the source
        read its input file). */
    constructor (program: seq<int>, sequence: seq<int>)
      requires 1 <= |sequence| <= 5 && |program| > 0
      ensures Valid() && forall i :: 0 <= i < |amplifiers| ==> fresh(amplifiers[i])
      ensures Assembled(program, sequence) == Some(Snapshot())
    {
      var ms := PrimedAmplifiers(program, sequence);
      amplifiers := ms;
      currentIndex := 0;
      finalResult := None;
      new;
      amplifiers[0].AddInput(0);
      assert Snapshot().machines == Assembled(program, sequence).value.machines;
    }

    /** `is_waiting`. */
    predicate IsWaiting()
      reads this, amplifiers
      ensures IsWaiting() <==> AllWaiting(Snapshot())
    {
      var g := Snapshot();
      assert forall i :: 0 <= i < |amplifiers| ==> g.machines[i].waiting == amplifiers[i].isWaiting;
      forall i :: 0 <= i < |amplifiers| ==> amplifiers[i].isWaiting
    }

    /** `is_running`. */
    predicate IsRunning()
      reads this, amplifiers
      ensures IsRunning() <==> AnyRunning(Snapshot())
    {
      var g := Snapshot();
      assert forall i :: 0 <= i < |amplifiers| ==> g.machines[i].running == amplifiers[i].isRunning;
      exists i :: 0 <= i < |amplifiers| && amplifiers[i].isRunning
    }

    /** When only amplifier `k` has changed, the group's snapshot differs
        from the earlier one in that amplifier alone. */
    twostate lemma OnlyChanged(k: nat)
      requires k < |amplifiers|
      requires forall i :: 0 <= i < |amplifiers| && i != k ==> unchanged(amplifiers[i])
      ensures Snapshot().machines == old(Snapshot()).machines[k := amplifiers[k].Snapshot()]
    {
    }

    /** `step`. */
    method Step(fuel: nat) returns (pass: Pass)
      requires Valid()
      modifies this, amplifiers
      ensures Valid()
      ensures (Snapshot(), pass) == GroupStep(old(Snapshot()), fuel)
    {
      ghost var g := Snapshot();
      var amplifier := amplifiers[currentIndex];
      pass := AwaitOutput(amplifier, fuel);
      ghost var t := amplifier.Snapshot();
      OnlyChanged(g.index);
      StepOf(g, fuel, pass, t);
      if pass != Forwarded {
        return;
      }
      ghost var u := Snapshot();
      assert u == g.(machines := g.machines[g.index := t]);
      Hand();
      ForwardOverwrites(g, t);
    }

    /** The end of `step`: the active amplifier's first output becomes the
        final result and is queued on the next amplifier, which becomes
        the active one. */
    method Hand()
      requires Valid() && |amplifiers[currentIndex].outputs| > 0
      modifies this, amplifiers[currentIndex], amplifiers[(currentIndex + 1) % |amplifiers|]
      ensures Valid()
      ensures Snapshot() == Forward(old(Snapshot()), old(amplifiers[currentIndex].Snapshot()))
    {
      ghost var g := Snapshot();
      ghost var t := amplifiers[currentIndex].Snapshot();
      label Awaited:
      var output := amplifiers[currentIndex].GetOutput();
      finalResult := output;
      currentIndex := (currentIndex + 1) % |amplifiers|;
      OnlyChanged@Awaited(g.index);
      ghost var m := Snapshot().machines;
      label Taken:
      amplifiers[currentIndex].AddInput(output.value);
      OnlyChanged@Taken(currentIndex);
      ForwardOf(g, t, m, Snapshot());
    }

    /** `run`, for at most `rounds` group steps. `result` is `final_result`,
        which the harness reads whether the run returns or raises. */
    method Run(rounds: nat, fuel: nat) returns (result: Option<int>, ending: Ending)
      requires Valid()
      modifies this, amplifiers
      ensures Valid() && result == finalResult
      ensures (Snapshot(), ending) == GroupRun(old(Snapshot()), rounds, fuel)
    {
      var budget := rounds;
      while IsRunning()
        invariant Valid()
        invariant GroupRun(Snapshot(), budget, fuel) == GroupRun(old(Snapshot()), rounds, fuel)
        decreases budget
      {
        if budget == 0 {
          return finalResult, OutOfFuel;
        }
        ghost var before := Snapshot();
        var pass := Step(fuel);
        if pass.Broke? {
          return finalResult, Stopped(pass.fault);
        }
        if pass.Stalled? {
          return finalResult, OutOfFuel;
        }
        var rest := budget - 1;
        RunNext(before, Snapshot(), budget, rest, fuel);
        budget := rest;
      }
      return finalResult, Halted;
    }
  }
}
