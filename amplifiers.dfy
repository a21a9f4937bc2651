/** Day 7 part 1: five amplifiers in series. Each stage runs a fresh copy
    of the program on the inputs [phase, signal] with the day 5 part 2
    interpreter and passes its first output on as the next signal; the
    first stage gets signal 0. */
module SeriesAmplifiers {
  import opened Common
  import opened DiagnosticIntcode

  /** What a stage, a chain or a search yields: a signal, an IndexError
      (a missing phase, a run that raises, a run with no output), or a run
      that is still going when its budget is spent (the source would loop
      for ever). */
  datatype Outcome = Signal(value: int) | Failed | Unfinished

  /** One stage: run a copy of the program on [phase, signal], take output[0]. */
  function Stage(program: seq<int>, phase: int, signal: int, fuel: nat): Outcome {
    var (m, s) := Exec(EightOpcodes, Boot(program, [phase, signal]), fuel);
    if s == OutOfFuel then Unfinished
    else if s == Crashed || |m.output| == 0 then Failed
    else Signal(m.output[0])
  }

  /** `stages` more stages, taking their phases from the front of `sequence`. */
  function Chain(program: seq<int>, sequence: seq<int>, signal: int, stages: nat, fuel: nat): Outcome
    decreases stages
  {
    if stages == 0 then Signal(signal)
    else if |sequence| == 0 then Failed
    else
      match Stage(program, sequence[0], signal, fuel)
      case Signal(next) => Chain(program, sequence[1..], next, stages - 1, fuel)
      case other => other
  }

  /** `runAmplifierCombination`: five stages from signal 0. */
  function AmplifierCombination(program: seq<int>, sequence: seq<int>, fuel: nat): Outcome {
    Chain(program, sequence, 0, 5, fuel)
  }

  /** The stage loop. Every stage runs on its own copy, so the caller's
      program is never written (the method may modify nothing it was given). */
  method RunAmplifierCombination(program: array<int>, sequence: seq<int>, fuel: nat)
    returns (result: Outcome)
    ensures result == AmplifierCombination(program[..], sequence, fuel)
  {
    var signal := 0;
    var rest := sequence;
    for x := 0 to 5
      invariant Chain(program[..], rest, signal, 5 - x, fuel) == AmplifierCombination(program[..], sequence, fuel)
    {
      if |rest| == 0 {
        return Failed;
      }
      var phase := rest[0];
      rest := rest[1..];
      var copy := new int[program.Length](i reads program requires 0 <= i < program.Length => program[i]);
      assert copy[..] == program[..];
      var output, status, _ := RunIntcode(EightOpcodes, copy, [phase, signal], fuel);
      if status == OutOfFuel {
        return Unfinished;
      }
      if status == Crashed || |output| == 0 {
        return Failed;
      }
      signal := output[0];
    }
    result := Signal(signal);
  }

  /** Only the first five phases are read. */
  lemma {:induction false} ChainReadsPhasesOnly(program: seq<int>, sequence: seq<int>, signal: int, stages: nat, fuel: nat)
    requires stages <= |sequence|
    ensures Chain(program, sequence, signal, stages, fuel) == Chain(program, sequence[..stages], signal, stages, fuel)
    decreases stages
  {
    if stages > 0 {
      var first := Stage(program, sequence[0], signal, fuel);
      assert sequence[..stages][0] == sequence[0];
      assert sequence[..stages][1..] == sequence[1..][..stages - 1];
      if first.Signal? {
        ChainReadsPhasesOnly(program, sequence[1..], first.value, stages - 1, fuel);
      }
    }
  }

  lemma AmplifierCombinationReadsFivePhases(program: seq<int>, sequence: seq<int>, fuel: nat)
    requires |sequence| >= 5
    ensures AmplifierCombination(program, sequence, fuel) == AmplifierCombination(program, sequence[..5], fuel)
  {
    ChainReadsPhasesOnly(program, sequence, 0, 5, fuel);
  }

  /** With fewer phases than stages there is never a signal. */
  lemma {:induction false} ChainNeedsPhases(program: seq<int>, sequence: seq<int>, signal: int, stages: nat, fuel: nat)
    requires |sequence| < stages
    ensures !Chain(program, sequence, signal, stages, fuel).Signal?
    decreases stages
  {
    if |sequence| > 0 {
      var first := Stage(program, sequence[0], signal, fuel);
      if first.Signal? {
        ChainNeedsPhases(program, sequence[1..], first.value, stages - 1, fuel);
      }
    }
  }

  lemma AmplifierCombinationNeedsFivePhases(program: seq<int>, sequence: seq<int>, fuel: nat)
    requires |sequence| < 5
    ensures !AmplifierCombination(program, sequence, fuel).Signal?
  {
    ChainNeedsPhases(program, sequence, 0, 5, fuel);
  }

  /** A stage that finishes within its budget finishes the same way with
      a larger one. */
  lemma StageMoreFuel(program: seq<int>, phase: int, signal: int, fuel: nat, more: nat)
    requires fuel <= more && Stage(program, phase, signal, fuel) != Unfinished
    ensures Stage(program, phase, signal, more) == Stage(program, phase, signal, fuel)
  {
    ExecMoreFuel(EightOpcodes, Boot(program, [phase, signal]), fuel, more);
  }

  /** So the budget only bounds the chain: any answer it gives is final. */
  lemma {:induction false} ChainMoreFuel(program: seq<int>, sequence: seq<int>, signal: int, stages: nat, fuel: nat, more: nat)
    requires fuel <= more && Chain(program, sequence, signal, stages, fuel) != Unfinished
    ensures Chain(program, sequence, signal, stages, more) == Chain(program, sequence, signal, stages, fuel)
    decreases stages
  {
    if stages > 0 && |sequence| > 0 {
      var first := Stage(program, sequence[0], signal, fuel);
      StageMoreFuel(program, sequence[0], signal, fuel, more);
      if first.Signal? {
        ChainMoreFuel(program, sequence[1..], first.value, stages - 1, fuel, more);
      }
    }
  }

  // ---------------------------------------------------------------------
  // The answer: `max` of the combination results over the phase
  // sequences, which the caller lists. Like the list comprehension, the
  // first sequence whose combination fails decides the outcome; `max` of
  // an empty list raises.

  function MaxSignal(program: seq<int>, sequences: seq<seq<int>>, fuel: nat): Outcome
    decreases |sequences|
  {
    if |sequences| == 0 then Failed
    else
      var first := AmplifierCombination(program, sequences[0], fuel);
      if !first.Signal? then first
      else if |sequences| == 1 then first
      else
        match MaxSignal(program, sequences[1..], fuel)
        case Signal(best) => Signal(if first.value >= best then first.value else best)
        case other => other
  }

  /** A signal found by the search is the combination result of one of the
      sequences, and no sequence's result is larger. */
  lemma {:induction false} MaxSignalIsMaximum(program: seq<int>, sequences: seq<seq<int>>, fuel: nat)
    requires MaxSignal(program, sequences, fuel).Signal?
    ensures var best := MaxSignal(program, sequences, fuel).value;
      (exists k :: 0 <= k < |sequences| && AmplifierCombination(program, sequences[k], fuel) == Signal(best))
      && (forall k :: 0 <= k < |sequences| ==>
            AmplifierCombination(program, sequences[k], fuel).Signal?
            && AmplifierCombination(program, sequences[k], fuel).value <= best)
    decreases |sequences|
  {
    var best := MaxSignal(program, sequences, fuel).value;
    var first := AmplifierCombination(program, sequences[0], fuel);
    if |sequences| == 1 {
      assert AmplifierCombination(program, sequences[0], fuel) == Signal(best);
    } else {
      var tail := sequences[1..];
      MaxSignalIsMaximum(program, tail, fuel);
      var rest := MaxSignal(program, tail, fuel).value;
      if first.value >= rest {
        assert AmplifierCombination(program, sequences[0], fuel) == Signal(best);
      } else {
        var k :| 0 <= k < |tail| && AmplifierCombination(program, tail[k], fuel) == Signal(rest);
        assert sequences[k + 1] == tail[k];
      }
      forall k | 0 <= k < |sequences|
        ensures AmplifierCombination(program, sequences[k], fuel).Signal?
          && AmplifierCombination(program, sequences[k], fuel).value <= best
      {
        if k > 0 {
          assert sequences[k] == tail[k - 1];
        }
      }
    }
  }

  /** The search fails exactly when the list is empty or some sequence's
      combination gives no signal. */
  lemma {:induction false} MaxSignalFails(program: seq<int>, sequences: seq<seq<int>>, fuel: nat)
    ensures !MaxSignal(program, sequences, fuel).Signal? <==>
      (|sequences| == 0 || exists k :: 0 <= k < |sequences| && !AmplifierCombination(program, sequences[k], fuel).Signal?)
    decreases |sequences|
  {
    if |sequences| > 1 {
      var tail := sequences[1..];
      MaxSignalFails(program, tail, fuel);
      if exists k :: 0 <= k < |tail| && !AmplifierCombination(program, tail[k], fuel).Signal? {
        var k :| 0 <= k < |tail| && !AmplifierCombination(program, tail[k], fuel).Signal?;
        assert sequences[k + 1] == tail[k];
      }
      if exists k :: 0 <= k < |sequences| && !AmplifierCombination(program, sequences[k], fuel).Signal? {
        var k :| 0 <= k < |sequences| && !AmplifierCombination(program, sequences[k], fuel).Signal?;
        if k > 0 {
          assert tail[k - 1] == sequences[k];
        }
      }
    }
  }
}
