# Advent of Code 2019, days 1 to 10, in Dafny

This project models the puzzle solutions of moopet's Advent of Code 2019
repository and proves properties of them. The solutions cover these days:

- **Day 1:** rocket fuel for module masses.
- **Day 2:** the first Intcode interpreter, and the noun/verb search.
- **Day 3:** two crossed wires on a grid.
- **Day 4:** six-digit password rules.
- **Day 5:** the Intcode interpreter with parameter modes, input, output, jumps and comparisons.
- **Day 6:** an orbit map.
- **Day 7:** amplifiers in series. Part 2 adds the class-based Intcode machine and a group of amplifiers wired in a feedback loop.
- **Day 8:** the Space Image Format.
- **Day 9:** the Intcode machine with relative mode.
- **Day 10:** asteroid visibility.

Each source file maps to one module:

| module | file | models |
|---|---|---|
| `Common` | `common.dfy` | Python's own behaviour the solutions rely on |
| `RocketFuel` | `fuel.dfy` | day 1 |
| `GravityAssist` | `gravity.dfy` | day 2 |
| `CrossedWires` | `wires.dfy` | day 3 |
| `Passwords` | `passwords.dfy` | day 4 |
| `DiagnosticIntcode` | `diagnostic.dfy` | the day 5 interpreter |
| `DiagnosticExamples` | `diagnostic_examples.dfy` | day 5 tests |
| `Orbits` | `orbits.dfy` | day 6 |
| `OrbitExamples` | `orbit_examples.dfy` | day 6 tests |
| `SeriesAmplifiers` | `amplifiers.dfy` | day 7 part 1 |
| `SeriesAmplifierExamples` | `amplifier_examples.dfy` | day 7 part 1 tests |
| `IntcodeMachines` | `intcode.dfy` | `IntcodeMachine` of days 7.2 and 9.2 |
| `IntcodeMachineExamples` | `intcode_examples.dfy` | the machine's test table |
| `AmplifierFeedback` | `feedback.dfy` | `AmplifierGroup` of day 7.2 |
| `SpaceImages` | `image.dfy` | day 8 |
| `Asteroids` | `asteroids.dfy` | day 10 |

`Common` covers these Python behaviours:

- list indexing, including negative indices and IndexError;
- `int(a / b)`, which truncates toward zero;
- `str.split`, `str.strip` and `str()` of an integer;
- decimal parsing.

Code that works in place is modelled imperatively:

- Day 2 and day 5 run on an `array<int>`.
- `Path`, `SpaceImage`, `AsteroidField`, `IntcodeMachine` and `AmplifierGroup` become classes.
  - Each has the source's fields and one method per source method.
  - A method's `ensures` ties its new state to a pure specification function of the old state.
- Properties are proved as lemmas about those functions.

Pure code becomes functions and lemmas. Every way a source function can raise is modelled as a value:

- `None`;
- a `Status`;
- a `Fault`;
- a `Crashed` outcome.

`requires` clauses are used only where the source itself never handles the case. Examples:

- a run over an orbit map with a cycle, which the source would loop on for ever;
- a parameter address the caller computes.

Intcode runs, which need not terminate, take a `fuel` bound on the number of steps. Running out of fuel is an outcome of its own.

Behaviours of the code that the model keeps:

- **Memory.** The day 9 machine appends 100000 zero cells after the program. It does not grow memory on demand.
  - An address beyond the padding raises IndexError.
  - A negative address reads from the end, as Python does.
- **Destination parameters.** Their mode is not checked.
  - Day 7's machine ignores the mode.
  - Day 9's machine adds the relative base only for `Relative`.
  - An immediate destination is not an error.
- **Opcodes 7 and 8.** Every machine modelled maps 7 to less-than and 8 to equals.
- **Blocking on day 10.** `is_between` does not check on which side of the station a point lies. An asteroid behind the station, on the same line and no farther away than the target, blocks the target as well. The model keeps this.
- **Map sizes on day 10.** `set_map` stores the number of rows as the width and the first row's length as the height. `get_asteroids` then lets the row index y run up to that height and the column index x up to that width. Only a square map is therefore listed in full; any other shape raises or misses cells. The model keeps this.
- **The station counts itself on day 10.** `is_between` is false when start and end coincide, so `get_visibility_score` counts the station among the asteroids it sees. On the first test map this gives 9 at (3, 4), where the test expects 8, and `AsteroidExamples.SampleTestFails` shows that the test's expected pair cannot come out as written.
- **A stuck amplifier.** The group raises "hanging" only when the active amplifier is already flagged waiting at the test of its inner loop. An amplifier that runs out of input during that loop raises its own input error instead. The harness catches only `IntcodeError`, so that sequence has no signal (`AmplifierFeedback.SignalCaught`, `AmplifierFeedbackExamples.StarvedSample`).

## Model

| member | source | states |
|---|---|---|
| RocketFuel.ModuleFuelNegative | 1/aoc-1.1.py:7 | `int(mass / 3) - 2` is negative exactly for masses below 6 |
| RocketFuel.ModuleFuelMonotonic | 1/aoc-1.1.py:7 | a heavier module never needs less fuel |
| RocketFuel.SumMapAppend | 1/aoc-1.1.py:7-9 | the total over two lists of masses is the sum of their totals |
| RocketFuel.SumMapPermutation | 1/aoc-1.1.py:7-9 | summing a function over two lists with the same elements gives the same total |
| RocketFuel.TotalFuelPermutation | 1/aoc-1.1.py:7-9 | the total fuel does not depend on the order of the masses |
| RocketFuel.FuelForMass | 1/aoc-1.2.py:3-9 | `calculateFuelForMass` never returns a negative amount |
| RocketFuel.FuelForMassUnfold | 1/aoc-1.2.py:4-9 | the fuel is the module fuel plus the fuel for that fuel, or 0 when the module fuel is not positive, and the recursion strictly shrinks its argument |
| RocketFuel.FuelForMassZero | 1/aoc-1.2.py:4-9 | no fuel is needed exactly for masses up to 8 |
| RocketFuel.FuelForMassCoversModuleFuel | 1/aoc-1.2.py:4-9 | counting the fuel's own fuel never lowers the requirement below part 1's |
| RocketFuel.TotalFuelRecursiveBounds | 1/aoc-1.2.py:15-17 | part 2's total is non-negative and at least part 1's total |
| GravityAssist.Iterate | 2/aoc-2.1.py:25-38 | one pass of the loop keeps the program's length, or fails with IndexError |
| GravityAssist.RunIntcode | 2/aoc-2.1.py:19-40 | the in-place loop over the array leaves the array and the halt/crash outcome of the specification run |
| GravityAssist.RestoreGravityAssistProgram | 2/aoc-2.1.py:12-16 | cells 1 and 2 become 12 and 2, and no other cell changes |
| GravityAssist.IterateWritesOnlyDestination | 2/aoc-2.1.py:28-36 | a pass writes only the destination cell, including when the destination is given as a negative index |
| GravityAssist.OtherCommandsAreSkipped | 2/aoc-2.1.py:30-38 | a command other than 1 or 2 changes nothing |
| GravityAssist.RunPreservesLength | 2/aoc-2.1.py:19-40 | a run never changes the program's length |
| GravityAssist.HaltsOnNinetyNine | 2/aoc-2.1.py:24 | a run that halts stops at a 99, a multiple of 4 cells after its start |
| GravityAssist.ExampleAdd | 2/aoc-2.1.py:48-49 | the first test program halts with `[2, 0, 0, 0, 99]` |
| GravityAssist.ExampleMultiply | 2/aoc-2.1.py:52-53 | the second test program halts with `[2, 3, 0, 6, 99]` |
| GravityAssist.ExampleSquare | 2/aoc-2.1.py:56-57 | the third test program halts with 9801 in its last cell |
| GravityAssist.ExampleSelfModifying | 2/aoc-2.1.py:60-61 | the self-modifying test program halts with `[30, 1, 1, 4, 2, 5, 6, 0, 99]` |
| GravityAssist.BruteForce | 2/aoc-2.2.py:80-92 | the pair found hits the target and every earlier pair misses; `None` means that no pair in 0..99 hits; a run that raises aborts the search at that pair |
| CrossedWires.Delta | 3/aoc-3.1.py:15-22 | each direction letter is a unit move: U, D and L as named, and any other letter to the right |
| CrossedWires.Trail | 3/aoc-3.1.py:14-25 | the points appended by one instruction are the successive unit moves from the start |
| CrossedWires.TrailUnitSteps | 3/aoc-3.1.py:14-25 | the first point of a trail is one step from the start, each next point one step from the last, and the last is the distance away in the instruction's direction |
| CrossedWires.Path.constructor | 3/aoc-3.1.py:4-8 | a new path stands at the origin with no instructions and no points |
| CrossedWires.Path.SetInstructions | 3/aoc-3.1.py:35-38 | the instructions become the comma-separated pieces of the line, and nothing else changes |
| CrossedWires.Path.ProcessSingleInstruction | 3/aoc-3.1.py:10-25 | a readable instruction appends its trail and moves the position to its end; an unreadable one raises and changes nothing |
| CrossedWires.Path.ProcessInstructions | 3/aoc-3.1.py:40-42 | the position and points follow the specification route, stopping at the first instruction that raises |
| CrossedWires.RouteStep | 3/aoc-3.1.py:40-42 | following the instructions is following the first one and then the rest from where it ends |
| CrossedWires.RouteLength | 3/aoc-3.1.py:40-42 | the route succeeds exactly when every instruction can be read, and then records as many points as the distances add up to |
| CrossedWires.RouteEnds | 3/aoc-3.1.py:24 | the position reached is the last point recorded, or the start when none is |
| CrossedWires.RouteUnitSteps | 3/aoc-3.1.py:14-25 | consecutive recorded points, the start included, are one step apart |
| CrossedWires.TrailAvoidsStart | 3/aoc-3.1.py:14-25 | an instruction never records its own starting point |
| CrossedWires.CommonPoints | 3/aoc-3.1.py:90-92 | the common points are exactly those on both wires |
| CrossedWires.CommonPointsAppend | 3/aoc-3.1.py:90-92 | the comprehension keeps the order of the first wire |
| CrossedWires.Min | 3/aoc-3.1.py:104 | `min` is a member of the list and no larger than any element; it raises exactly on an empty list |
| CrossedWires.Distances | 3/aoc-3.1.py:95-102 | each distance is the Manhattan distance of the point from the origin |
| CrossedWires.ClosestCommonPointIsNearest | 3/aoc-3.1.py:100-104 | the answer is the distance of a crossing, no crossing is nearer, and there is none exactly when the wires never cross |
| CrossedWires.StepCounts | 3/aoc-3.2.py:99 | each count is the sum of the crossing's first indices on both wires |
| CrossedWires.StepsAttained | 3/aoc-3.2.py:97-102 | the fewest steps are those of some crossing |
| CrossedWires.StepsLeast | 3/aoc-3.2.py:97-102 | no crossing takes fewer combined steps |
| CrossedWires.NumberOfStepsIsFewest | 3/aoc-3.2.py:97-102 | the answer exists exactly when the wires cross, and is the least combined step count, each wire counted from 1 |
| Passwords.LowDigits | 4/aoc-4.1.py:8-17 | `% 10` and `int(/ 10)` peel off exactly k decimal digits |
| Passwords.ScanStep | 4/aoc-4.1.py:10-16 | one iteration rejects a digit larger than the one before it (read from the right), and records an equal pair |
| Passwords.IsValidPassword | 4/aoc-4.1.py:3-19 | the loop returns true exactly when the six low decimal digits never decrease from left to right and two neighbours are equal |
| Passwords.FilterRange | 4/aoc-4.1.py:22-23 | the list holds exactly the values of the range that pass |
| Passwords.FilterRangeAscending | 4/aoc-4.1.py:22-23 | the list is strictly ascending |
| Passwords.ReadDigits | 4/aoc-4.2.py:8-9 | reading the text gives six decimal digits, or raises on a short or non-numeric text |
| Passwords.IsValidPassword2 | 4/aoc-4.2.py:5-21 | part 2's loop agrees with the specification, and raises where the source raises |
| Passwords.ValidPasswordsAgree | 4/aoc-4.2.py:5-21 | on six-digit numbers, part 2's text scan and part 1's arithmetic scan agree |
| Passwords.TextDigits | 4/aoc-4.2.py:8-9 | the decimal text read right to left lists the arithmetic digits |
| Passwords.LeadingCount | 4/aoc-4.2.py:30 | the run of a character at the front of a string is maximal |
| Passwords.EncodeIsMaximal | 4/aoc-4.2.py:28-34 | splitting a string into maximal runs and expanding them gives back the string |
| Passwords.EncodeExpand | 4/aoc-4.2.py:28-34 | expanding maximal non-empty runs and splitting again gives back the runs |
| Passwords.ReplaceOnRuns | 4/aoc-4.2.py:30 | `re.sub(c + '{3,}', 'x', s)` replaces each run of three or more c by one 'x' and leaves every other run |
| Passwords.PairOnRuns | 4/aoc-4.2.py:33 | `re.search(c + '{2}', s)` succeeds exactly when some run of c has length at least two |
| Passwords.ReplaceDigitRunsOnRuns | 4/aoc-4.2.py:29-30 | the ten substitutions squash every long run of a digit |
| Passwords.ReplacedPairs | 4/aoc-4.2.py:28-36 | after the substitutions, a digit pair remains exactly when the text has a run of a digit of length exactly two |
| Passwords.IsTripleFree | 4/aoc-4.2.py:24-36 | the two loops return true exactly when some maximal run of a digit has length two |
| Passwords.TryFilterRange | 4/aoc-4.2.py:40 | the filtered list exists exactly when no test raises, and holds exactly the passing values |
| Passwords.TryFilterRangeAscending | 4/aoc-4.2.py:40 | that list is strictly ascending |
| Passwords.Filter | 4/aoc-4.2.py:42 | the second filter keeps exactly the list's passing elements |
| Passwords.FilterKeepsOrder | 4/aoc-4.2.py:42 | the second filter keeps the order |
| Passwords.PossiblePasswords2IsSublist | 4/aoc-4.2.py:39-42 | part 2's list is ascending and holds exactly the values of its first filter's list that also pass the run test |
| Passwords.ValidListsAgree | 4/aoc-4.2.py:40 | on six-digit ranges, part 2's first filter never raises and equals part 1's list |
| Passwords.Part1Sample1 | 4/aoc-4.1.py:29 | 111111 is valid |
| Passwords.Part1Sample2 | 4/aoc-4.1.py:32 | 223450 is not: its digits decrease |
| Passwords.Part1Sample3 | 4/aoc-4.1.py:35 | 123789 is not: it has no pair |
| Passwords.Part2Sample1 | 4/aoc-4.2.py:48 | 112233 passes part 2 |
| Passwords.Part2Sample2 | 4/aoc-4.2.py:54 | 123444 fails part 2: its only pair is part of a triple |
| Passwords.Part2Sample3 | 4/aoc-4.2.py:60 | 111122 passes part 2 |
| DiagnosticIntcode.ModeDigits | 5/aoc-5.2.py:25-30 | the loop yields one mode flag per digit asked for |
| DiagnosticIntcode.ParameterModes | 5/aoc-5.2.py:17-34 | there are always three mode flags |
| DiagnosticIntcode.ModeDigitsThree | 5/aoc-5.2.py:17-34 | the digit loop run three times on the word divided by 100 gives the three flags |
| DiagnosticIntcode.ParameterModesDigits | 5/aoc-5.2.py:17-34 | for a non-negative word, the three flags are its hundreds, thousands and ten-thousands digits being non-zero |
| DiagnosticIntcode.GetParameterModes | 5/aoc-5.2.py:17-34 | the method computes the specification's modes |
| DiagnosticIntcode.Parameters | 5/aoc-5.2.py:37-52 | when the parameters can be read, there are as many as asked for |
| DiagnosticIntcode.ParametersMeaning | 5/aoc-5.2.py:37-52 | an immediate parameter is the cell after the opcode; a positional one is the cell that cell addresses |
| DiagnosticIntcode.OperandsFailurePersists | 5/aoc-5.2.py:37-52 | once a parameter raises, asking for more parameters also raises |
| DiagnosticIntcode.GetParameters | 5/aoc-5.2.py:37-52 | the method over the array computes the specification's parameters |
| DiagnosticIntcode.Operands | 5/aoc-5.2.py:37-52 | reading parameters that succeeds yields one value per parameter |
| DiagnosticIntcode.ExecuteCompute | 5/aoc-5.2.py:69-89 | add, multiply, less-than and equal on the array are one specification step |
| DiagnosticIntcode.ExecuteInput | 5/aoc-5.2.py:91-99 | input pops the reversed input list, stores the value, and is one specification step |
| DiagnosticIntcode.ExecuteOutput | 5/aoc-5.2.py:101-108 | output appends one parameter and is one specification step |
| DiagnosticIntcode.ExecuteJump | 5/aoc-5.2.py:110-128 | the jumps are one specification step |
| DiagnosticIntcode.ExecuteInstruction | 5/aoc-5.2.py:67-148 | the dispatch on the opcode is one specification step of either dialect |
| DiagnosticIntcode.RunIntcode | 5/aoc-5.2.py:55-150 | the whole loop leaves the array, the outputs, how the run ended and the unread inputs of the specification run |
| DiagnosticIntcode.ExecNext | 5/aoc-5.2.py:62-150 | when the word is not 99 and a step completes, the loop goes on from the next state with one step less of budget |
| DiagnosticIntcode.ExecStopped | 5/aoc-5.2.py:62 | the loop stops with a crash when the word cannot be read, halts on 99, and is cut short when the budget is spent |
| DiagnosticIntcode.ExecFault | 5/aoc-5.2.py:62-150 | a step that raises ends the run as a crash in the state the step left |
| DiagnosticIntcode.ComputeStep | 5/aoc-5.2.py:69-89 | add, multiply, less-than and equal write their result at the third parameter and advance by 4 |
| DiagnosticIntcode.InputStep | 5/aoc-5.2.py:91-99 | input stores the next input at its parameter and advances by 2 |
| DiagnosticIntcode.StarvedInputFaults | 5/aoc-5.2.py:91-99 | input with no input left raises and changes nothing |
| DiagnosticIntcode.OutputStep | 5/aoc-5.2.py:101-108 | output appends its parameter and advances by 2 |
| DiagnosticIntcode.JumpStep | 5/aoc-5.2.py:110-128 | jump-if-true and jump-if-false go to the second parameter when taken, else advance by 3 |
| DiagnosticIntcode.UnknownOpcodeStep | 5/aoc-5.1.py:66-107 | an opcode the dialect does not know changes nothing |
| DiagnosticIntcode.UnknownOpcodeSpins | 5/aoc-5.1.py:64-107 | on an unknown opcode the loop never ends, so every budget runs out |
| DiagnosticIntcode.DialectsAgree | 5/aoc-5.1.py:55-109 | on the four opcodes of part 1, both interpreters take the same step |
| DiagnosticIntcode.StepExtends | 5/aoc-5.2.py:55-150 | a step keeps the memory's length, only appends outputs, and consumes at most one input |
| DiagnosticIntcode.ExecKeepsLength | 5/aoc-5.2.py:55-150 | a run keeps the memory's length |
| DiagnosticIntcode.ExecAppendsOutputs | 5/aoc-5.2.py:55-150 | a run only appends outputs |
| DiagnosticIntcode.ExecConsumesInOrder | 5/aoc-5.2.py:55-150 | inputs are consumed from the front, in order |
| DiagnosticIntcode.HaltsOnNinetyNine | 5/aoc-5.2.py:64 | a run that halts stops on a 99 |
| DiagnosticIntcode.ExecMoreFuel | 5/aoc-5.2.py:55-150 | a run that ends within a budget ends the same way with any larger budget |
| DiagnosticExamples.EchoesInput | 5/aoc-5.1.py:117-119 | `[3, 0, 4, 0, 99]` prints back any input, in both dialects |
| DiagnosticExamples.MultiplyHalts | 5/aoc-5.1.py:122-124 | `[1002, 4, 3, 4, 33]` writes 99 over the 33 and halts without output |
| DiagnosticExamples.EqualPositional | 5/aoc-5.2.py:207-215 | the positional equal-to-8 program prints 1 exactly for input 8 |
| DiagnosticExamples.LessThanPositional | 5/aoc-5.2.py:219-227 | the positional less-than-8 program prints 1 exactly for inputs below 8 |
| DiagnosticExamples.EqualImmediate | 5/aoc-5.2.py:231-239 | the immediate equal-to-8 program prints 1 exactly for input 8 |
| DiagnosticExamples.LessThanImmediate | 5/aoc-5.2.py:243-251 | the immediate less-than-8 program prints 1 exactly for inputs below 8 |
| DiagnosticExamples.JumpPositional | 5/aoc-5.2.py:171-185 | the positional jump program prints 0 for input 0 and 1 for any other input |
| DiagnosticExamples.JumpImmediate | 5/aoc-5.2.py:189-203 | the immediate jump program prints 0 for input 0 and 1 for any other input |
| DiagnosticExamples.ComparesWithEight | 5/aoc-5.2.py:255-269 | the larger example prints 999, 1000 or 1001 for an input below, equal to or above 8 |
| Orbits.ParseOrbit | 6/aoc-6.1.py:15-16 | a line can be read exactly when its stripped text holds a ')' |
| Orbits.ParseOrbitLine | 6/aoc-6.1.py:15-16 | `A)B` maps B to A |
| Orbits.ReadOrbits | 6/aoc-6.1.py:11-18 | the loop over the lines builds the specification map |
| Orbits.ParseOrbitsSucceeds | 6/aoc-6.1.py:14-16 | the map is built exactly when every line can be read |
| Orbits.ParseOrbitsFails | 6/aoc-6.1.py:14-16 | an unreadable line aborts the whole read |
| Orbits.ParseOrbitsKeys | 6/aoc-6.1.py:14-16 | the keys are exactly the bodies named on the right of some line |
| Orbits.ParseOrbitsLastWins | 6/aoc-6.1.py:16 | a body listed twice keeps the parent from its last line |
| Orbits.OrbitsOfChain | 6/aoc-6.2.py:35-42 | a body's path starts at its parent, links each body to the next, and ends at a body that orbits nothing |
| Orbits.Ancestors | 6/aoc-6.2.py:35-42 | k steps of the walk towards the centre list at most k bodies |
| Orbits.WalkSplit | 6/aoc-6.2.py:35-42 | walking m + n steps is walking m steps and then n more, and the bodies passed are those of both parts |
| Orbits.WalkStopped | 6/aoc-6.2.py:35-42 | once the walk has reached a body that orbits nothing, further steps change neither where it stands nor the bodies passed |
| Orbits.OrbitsOfStep | 6/aoc-6.2.py:35-42 | a body that orbits nothing has an empty path and depth 0; any other body's path is its parent followed by the parent's path, one deeper |
| Orbits.OrbitsForSingleBody | 6/aoc-6.2.py:35-42 | the loop returns the body's chain of ancestors |
| Orbits.ChainLength | 6/aoc-6.1.py:26-30 | the inner loop counts the body's depth |
| Orbits.DepthBound | 6/aoc-6.1.py:26-30 | a body orbits at most as many bodies as the map has entries, and at least one when it is in the map |
| Orbits.RunOrbitProgram | 6/aoc-6.1.py:21-32 | the total is the sum of the depths of all bodies in the map |
| Orbits.DepthSumRemove | 6/aoc-6.1.py:25-31 | the total over a set of bodies is one body's depth plus the total over the others |
| Orbits.DepthSumBounds | 6/aoc-6.1.py:25-31 | over bodies of the map, the total lies between the number of bodies and that number times the size of the map |
| Orbits.TotalOrbitsBounds | 6/aoc-6.1.py:21-32 | the total lies between the number of bodies in the map and the square of that number |
| Orbits.ListDepthSumIsDepthSum | 6/aoc-6.1.py:25-30 | summing over the bodies in any order of listing gives the same total |
| Orbits.FirstShared | 6/aoc-6.2.py:49-50 | the scan stops at the first body of the first path that lies on the second |
| Orbits.TransferCount | 6/aoc-6.2.py:49-53 | the loop computes the specification's transfer count |
| Orbits.TransferPath | 6/aoc-6.2.py:45-53 | `getTransferPath` is the transfer count of the two bodies' paths |
| Orbits.TransfersMeaning | 6/aoc-6.2.py:45-53 | the count is the sum of the indices of the first shared body on both paths, and there is none exactly when the paths share no body |
| OrbitExamples.CountingSample | 6/aoc-6.1.py:38-55 | the sample map has no cycle and 42 orbits |
| OrbitExamples.TransferSample | 6/aoc-6.2.py:59-78 | YOU and SAN are 4 transfers apart |
| SeriesAmplifiers.RunAmplifierCombination | 7/aoc-7.1.py:196-207 | the loop over five stages computes the specification's signal, and each stage runs on a copy so the caller's program is never written |
| SeriesAmplifiers.ChainReadsPhasesOnly | 7/aoc-7.1.py:199-201 | the chain reads only as many phases as it has stages |
| SeriesAmplifiers.AmplifierCombinationReadsFivePhases | 7/aoc-7.1.py:199-201 | phases after the fifth are ignored |
| SeriesAmplifiers.AmplifierCombinationNeedsFivePhases | 7/aoc-7.1.py:200 | fewer than five phases never give a signal |
| SeriesAmplifiers.ChainNeedsPhases | 7/aoc-7.1.py:199-201 | a chain with more stages than phases never gives a signal |
| SeriesAmplifiers.ChainMoreFuel | 7/aoc-7.1.py:196-207 | a chain that finishes within a budget finishes the same way with any larger budget |
| SeriesAmplifiers.StageMoreFuel | 7/aoc-7.1.py:56-150 | a stage that finishes within a budget finishes the same way with any larger budget |
| SeriesAmplifiers.MaxSignalIsMaximum | 7/aoc-7.1.py:220-222 | the best signal is that of some sequence, and no sequence's is larger |
| SeriesAmplifiers.MaxSignalFails | 7/aoc-7.1.py:220-222 | there is no best exactly when the list is empty or some sequence gives no signal |
| SeriesAmplifierExamples.Series1Stage | 7/aoc-7.1.py:158 | one stage of the first test program outputs signal * 10 + phase |
| SeriesAmplifierExamples.Series1Combination | 7/aoc-7.1.py:157-161 | the first test gives 43210 |
| SeriesAmplifierExamples.Series2Stage | 7/aoc-7.1.py:163 | one stage of the second test program outputs signal * 10 + 5 - phase |
| SeriesAmplifierExamples.Series2Combination | 7/aoc-7.1.py:162-166 | the second test gives 54321 |
| SeriesAmplifierExamples.Series3Stage | 7/aoc-7.1.py:168 | one stage of the third test program outputs signal * 10 + phase - 2, plus 7 when the phase is below 2 |
| SeriesAmplifierExamples.Series3Combination | 7/aoc-7.1.py:167-171 | the third test gives 65210 |
| IntcodeMachines.Cleared | 9/aoc-9.2.py:33-42 | `reset` keeps the memory and clears the pointer, the base, both queues, the flags and the counter |
| IntcodeMachines.Load | 9/aoc-9.2.py:45-53 | `set_program` installs the program, followed by only zero cells, in a reset machine |
| IntcodeMachines.Padding | 9/aoc-9.2.py:47 | day 9 appends 100000 zero cells and day 7 none |
| IntcodeMachines.Dequeue | 9/aoc-9.2.py:109-136 | popping a queue yields its oldest value, or nothing from an empty queue |
| IntcodeMachines.QueueFifo | 9/aoc-9.2.py:91-136 | values come out of a queue in the order they went in |
| IntcodeMachines.DrainInOrder | 9/aoc-9.2.py:109-118 | k pops yield the first k values in order |
| IntcodeMachines.Opcode | 9/aoc-9.2.py:139-142 | the opcode is the low two digits of a readable word, and raises otherwise |
| IntcodeMachines.ModeOf | 9/aoc-9.2.py:145-170 | day 7 turns any non-zero digit into Immediate; day 9 knows the digits 0, 1 and 2 and drops any other |
| IntcodeMachines.ModeDigits | 9/aoc-9.2.py:156-168 | the digit loop yields at most one mode per digit, and day 7 always exactly one |
| IntcodeMachines.ModeDigitsThree | 9/aoc-9.2.py:153-170 | the digit loop run three times on the word divided by 100 gives the specification's modes |
| IntcodeMachines.ModesFromDigits | 9/aoc-9.2.py:145-170 | the modes are decoded from the hundreds, thousands and ten-thousands digits |
| IntcodeMachines.ModesComplete | 9/aoc-9.2.py:145-170 | day 9 gets three modes exactly when no digit exceeds 2; a dropped digit shifts the later modes down |
| IntcodeMachines.BooleanModesAgree | 7/aoc-7.2.py:140-155 | day 7's modes are day 5's flags |
| IntcodeMachines.ModesAgree | 9/aoc-9.2.py:145-170 | on words whose mode digits are 0 or 1, both machines decode the same modes |
| IntcodeMachines.OperandsMeaning | 9/aoc-9.2.py:173-195 | positional, immediate and relative parameters read the addressed cell, the cell itself, and the cell at base plus offset |
| IntcodeMachines.Operands | 9/aoc-9.2.py:179-195 | reading parameters that succeeds yields one value per parameter |
| IntcodeMachines.Parameters | 9/aoc-9.2.py:173-195 | `get_parameters` that succeeds yields as many values as asked for |
| IntcodeMachines.OperandsNext | 9/aoc-9.2.py:183-193 | one more iteration appends the next parameter, or raises when it cannot be read |
| IntcodeMachines.OperandsFailurePersists | 9/aoc-9.2.py:173-195 | once a parameter raises, asking for more parameters also raises |
| IntcodeMachines.DestinationMeaning | 9/aoc-9.2.py:275-292 | day 7 writes to the raw destination; day 9 adds the base in relative mode, and raises when the mode is missing |
| IntcodeMachines.StepRejects | 9/aoc-9.2.py:224-254 | a step raises and changes nothing on a halted machine, an unreadable word or an unknown opcode |
| IntcodeMachines.StepRunsHandler | 9/aoc-9.2.py:224-254 | on a running machine with a known opcode, a step runs that opcode's handler, clears the waiting flag and counts the step |
| IntcodeMachines.StepCounts | 9/aoc-9.2.py:224-254 | the counter goes up exactly when the step completes, and memory keeps its size |
| IntcodeMachines.HandlerKeepsSize | 9/aoc-9.2.py:275-436 | no handler changes the step counter or the size of memory |
| IntcodeMachines.ComputeStep | 9/aoc-9.2.py:275-312 | add, multiply, less-than and equal write their result at the destination and advance by 4 |
| IntcodeMachines.StarvedStep | 9/aoc-9.2.py:315-335 | input with an empty queue raises, flags the machine waiting, and changes nothing else |
| IntcodeMachines.InputStep | 9/aoc-9.2.py:315-335 | input pops the oldest value into the destination and advances by 2 |
| IntcodeMachines.ResumeAfterInput | 9/aoc-9.2.py:315-335 | after starving, adding one value and stepping again runs the same input instruction once, consuming exactly that value |
| IntcodeMachines.OutputStep | 9/aoc-9.2.py:338-348 | output appends its parameter to the output queue and advances by 2 |
| IntcodeMachines.JumpStep | 9/aoc-9.2.py:351-380 | both jumps go to the second parameter when taken, and otherwise advance by 3 |
| IntcodeMachines.BaseStep | 9/aoc-9.2.py:423-429 | day 9 adds the parameter to the relative base; day 7 does not know opcode 9 |
| IntcodeMachines.HaltStep | 9/aoc-9.2.py:432-436 | 99 clears the running flag and the run returns halted |
| IntcodeMachines.RunStarts | 9/aoc-9.2.py:67-76 | `run` raises on an already running machine, and otherwise sets the flag and loops |
| IntcodeMachines.LoopNext | 9/aoc-9.2.py:73-76 | a completed step on a running machine continues the loop from the next state |
| IntcodeMachines.LoopEnds | 9/aoc-9.2.py:67-76 | a run that halts has cleared the flag, one that runs out of budget is still running, and memory keeps its size |
| IntcodeMachines.VariantsAgree | 7/aoc-7.2.py:206-235 | on words that use only modes 0 and 1 and not opcode 9, both machines take the same step |
| IntcodeMachines.OperandsAgree | 7/aoc-7.2.py:158-177 | with modes 0 and 1 only, the machine reads the same parameters as day 5's interpreter |
| IntcodeMachines.ParametersAgree | 7/aoc-7.2.py:158-177 | day 7's `get_parameters` agrees with day 5's `getParameters` |
| IntcodeMachines.RefinesCompute | 7/aoc-7.2.py:252-280 | add, multiply, less-than and equal of day 7 do what day 5 does |
| IntcodeMachines.RefinesInput | 7/aoc-7.2.py:282-299 | with input queued, day 7's input does what day 5's does |
| IntcodeMachines.RefinesOutput | 7/aoc-7.2.py:301-312 | day 7's output does what day 5's does |
| IntcodeMachines.RefinesJump | 7/aoc-7.2.py:314-344 | day 7's jumps do what day 5's do |
| IntcodeMachines.RefinesDiagnostic | 5/aoc-5.2.py:55-150 | on opcodes 1 to 8, a step of day 7's machine matches a step of day 5's interpreter |
| IntcodeMachines.IntcodeMachine.constructor | 9/aoc-9.2.py:25-30 | a new machine is fresh: empty, not running, nothing queued |
| IntcodeMachines.IntcodeMachine.Reset | 9/aoc-9.2.py:33-42 | the fields become `Cleared` of the old ones |
| IntcodeMachines.IntcodeMachine.SetProgram | 9/aoc-9.2.py:45-53 | the fields become `Load` of the program |
| IntcodeMachines.IntcodeMachine.Run | 9/aoc-9.2.py:67-76 | the loop leaves the fields and the ending of the specification run |
| IntcodeMachines.IntcodeMachine.AddInput | 9/aoc-9.2.py:91-94 | the value is appended to the input queue, and nothing else changes |
| IntcodeMachines.IntcodeMachine.AddOutput | 9/aoc-9.2.py:97-100 | the value is appended to the output queue, and nothing else changes |
| IntcodeMachines.IntcodeMachine.SetInputs | 9/aoc-9.2.py:103-106 | the input queue is replaced, and nothing else changes |
| IntcodeMachines.IntcodeMachine.GetInput | 9/aoc-9.2.py:109-118 | the oldest input is removed and returned, or the machine raises that there is none |
| IntcodeMachines.IntcodeMachine.GetOutput | 9/aoc-9.2.py:127-136 | the oldest output is removed and returned, or the machine raises that there is none |
| IntcodeMachines.IntcodeMachine.GetOpcode | 9/aoc-9.2.py:139-142 | the method computes `Opcode` |
| IntcodeMachines.IntcodeMachine.DecodeMode | 9/aoc-9.2.py:145-170 | the method computes `ModeOf` |
| IntcodeMachines.IntcodeMachine.GetParameterModes | 9/aoc-9.2.py:145-170 | the digit loop computes the specification's modes |
| IntcodeMachines.IntcodeMachine.GetParameters | 9/aoc-9.2.py:173-195 | the loop computes the specification's parameters |
| IntcodeMachines.IntcodeMachine.GetParameter | 9/aoc-9.2.py:184-192 | one iteration reads the specification's parameter for its mode |
| IntcodeMachines.IntcodeMachine.SetMemoryValue | 9/aoc-9.2.py:198-200 | an in-range write changes that one cell; an out-of-range one raises and changes nothing |
| IntcodeMachines.IntcodeMachine.GetDestination | 9/aoc-9.2.py:279-284 | the destination is the raw word, plus the base on day 9 in relative mode |
| IntcodeMachines.IntcodeMachine.ExecuteCompute | 9/aoc-9.2.py:275-312 | the handlers for 1, 2, 7 and 8 do what the specification step does |
| IntcodeMachines.IntcodeMachine.ExecuteInput | 9/aoc-9.2.py:315-335 | the input handler does what the specification step does, starving included |
| IntcodeMachines.IntcodeMachine.ExecuteOutput | 9/aoc-9.2.py:338-348 | the output handler does what the specification step does |
| IntcodeMachines.IntcodeMachine.ExecuteJump | 9/aoc-9.2.py:351-380 | the jump handlers do what the specification step does |
| IntcodeMachines.IntcodeMachine.ExecuteBaseOffset | 9/aoc-9.2.py:423-429 | the base handler does what the specification step does |
| IntcodeMachines.IntcodeMachine.ExecuteInstruction | 9/aoc-9.2.py:234-238 | the dictionary lookup runs the handler of a known opcode |
| IntcodeMachines.IntcodeMachine.Step | 9/aoc-9.2.py:224-254 | `step` changes the fields as the specification transition does, and raises what it raises |
| IntcodeMachineExamples.Nop | 9/aoc-9.2.py:443-448 | the nop program halts with no output and 297 at address 0, on both machines |
| IntcodeMachineExamples.PrintInput | 9/aoc-9.2.py:449-454 | `[3, 0, 4, 0, 99]` prints 123 back, on both machines |
| IntcodeMachineExamples.PositionNonZero | 9/aoc-9.2.py:455-466 | the positional test prints 0 for input 0 and 1 for any other input |
| IntcodeMachineExamples.ImmediateNonZero | 9/aoc-9.2.py:467-478 | the immediate test prints 0 for input 0 and 1 for any other input |
| IntcodeMachineExamples.CompareWithEight | 9/aoc-9.2.py:479-496 | the day 5 example prints 999, 1000 or 1001 for an input below, equal to or above 8 |
| IntcodeMachineExamples.Quine | 9/aoc-9.2.py:497-502 | the relative-mode program prints exactly itself and halts |
| IntcodeMachineExamples.SixteenDigits | 9/aoc-9.2.py:503-508 | the multiplication prints one value with 16 decimal digits |
| IntcodeMachineExamples.SixteenDigitSquare | 9/aoc-9.2.py:503-508 | the multiplication program halts printing 1219070632396864 |
| IntcodeMachineExamples.LargeNumber | 9/aoc-9.2.py:509-514 | the large-number program prints 1125899906842624 |
| IntcodeMachineExamples.PreparedStarts | 9/aoc-9.2.py:45-76 | loading a program with its inputs and running it starts the loop from the padded program |
| AmplifierFeedback.Assembled | 7/aoc-7.2.py:386-412 | one to five phases build a group in which every amplifier has the program, is running, and holds its phase as input, machine 0 also holding the signal 0; any other number of phases raises |
| AmplifierFeedback.AmplifierGroup.constructor | 7/aoc-7.2.py:386-412 | the fields are those of `Assembled`, each amplifier a new machine |
| AmplifierFeedback.PrimedAmplifiers | 7/aoc-7.2.py:397-410 | one distinct new day 7 machine per phase, each primed with the program and its phase |
| AmplifierFeedback.AmplifierGroup.IsWaiting | 7/aoc-7.2.py:415-420 | true exactly when every amplifier is flagged waiting |
| AmplifierFeedback.AmplifierGroup.IsRunning | 7/aoc-7.2.py:423-428 | true exactly when some amplifier is running |
| AmplifierFeedback.StepFlags | 7/aoc-7.2.py:440 | a completed step clears the waiting flag and only appends outputs; a failed one changes no output and flags starvation |
| AmplifierFeedback.HandlerFlags | 7/aoc-7.2.py:252-384 | a handler that completes clears the waiting flag and only appends outputs; one that raises leaves the outputs, never says "hanging", and flags starvation |
| AmplifierFeedback.Await | 7/aoc-7.2.py:436-442 | the inner loop is ready only with output queued |
| AmplifierFeedback.Resume | 7/aoc-7.2.py:436-442 | resuming the loop after a step is ready only with output queued |
| AmplifierFeedback.AwaitNext | 7/aoc-7.2.py:436-440 | a completed step with no output yet continues the inner loop with the next state |
| AmplifierFeedback.AwaitEnds | 7/aoc-7.2.py:436-442 | the inner loop returns at once with output queued; otherwise it ends with output, with an error on an empty queue, or out of budget; it raises "hanging" exactly when the amplifier starts out waiting with nothing queued, and then changes nothing |
| AmplifierFeedback.AwaitOutput | 7/aoc-7.2.py:436-442 | the loop over the machine object does what `Await` specifies |
| AmplifierFeedback.StepForwards | 7/aoc-7.2.py:431-448 | a forwarding step pops the active amplifier's oldest output, records it as the final result, appends it to the next amplifier's inputs, makes that amplifier active, and changes no third amplifier; a failing step changes only the active amplifier |
| AmplifierFeedback.StepOf | 7/aoc-7.2.py:431-448 | a step forwards what the inner loop produced, or keeps the machine the loop left and stops |
| AmplifierFeedback.ForwardOf | 7/aoc-7.2.py:442-448 | forwarding pops one output, records it, appends it to the next amplifier and makes that amplifier active |
| AmplifierFeedback.ForwardOverwrites | 7/aoc-7.2.py:442-448 | forwarding replaces the active amplifier by the state it handed over |
| AmplifierFeedback.DeadlockHangs | 7/aoc-7.2.py:436-438 | when every amplifier waits and the active one has no output, a step raises "hanging" and changes nothing |
| AmplifierFeedback.AmplifierGroup.Step | 7/aoc-7.2.py:431-448 | the fields change as `GroupStep` specifies |
| AmplifierFeedback.AmplifierGroup.Hand | 7/aoc-7.2.py:442-448 | popping, recording and handing on the output is `Forward` |
| AmplifierFeedback.RunEnds | 7/aoc-7.2.py:451-457 | the run keeps the group well formed, and returns normally only when no amplifier is running |
| AmplifierFeedback.RunNext | 7/aoc-7.2.py:451-457 | a round that forwards a value continues the run with one round fewer |
| AmplifierFeedback.AmplifierGroup.Run | 7/aoc-7.2.py:451-457 | the loop changes the fields as `GroupRun` specifies and returns the final result |
| AmplifierFeedback.BestIsMaximum | 7/aoc-7.2.py:620 | `max` is one of the signals, all of them are present, and none is larger |
| AmplifierFeedback.SignalCaught | 7/aoc-7.2.py:610-618 | a sequence has a signal exactly when its group can be built, its run returns or raises IntcodeError, and a value was forwarded; the signal is then the group's final result, and a run that raises the input error, IndexError or runs out of budget gives none |
| AmplifierFeedback.Signals | 7/aoc-7.2.py:610-618 | one entry per sequence, in order: the final result of its group when the run returned or raised IntcodeError |
| AmplifierFeedback.BestFeedbackIsMaximum | 7/aoc-7.2.py:607-620 | the best feedback signal is that of one of the sequences, and no sequence's is larger; it exists exactly when every sequence has one |
| AmplifierFeedbackExamples.LoopProgramMemory | 7/aoc-7.2.py:557 | the first feedback test program holds its 29 words, with 0, 0 and 5 in its data cells |
| AmplifierFeedbackExamples.PrintAt16 | 7/aoc-7.2.py:301-312 | at address 16 the program prints cell 27 in one step and stops the inner loop at address 18 with that value queued |
| AmplifierFeedbackExamples.AddAt12 | 7/aoc-7.2.py:252-265 | at address 12 the program adds the stored phase to cell 27 and prints the sum two steps later |
| AmplifierFeedbackExamples.DoubleAt8 | 7/aoc-7.2.py:267-280 | at address 8 the program doubles cell 27 and prints twice that value plus the stored phase |
| AmplifierFeedbackExamples.ReadAt6 | 7/aoc-7.2.py:282-299 | at address 6 the program reads the queued value x and, four steps later, prints 2x plus the stored phase |
| AmplifierFeedbackExamples.SubtractAt2 | 7/aoc-7.2.py:252-265 | at address 2 the program stores its phase less 4 and goes on to print 2x plus that |
| AmplifierFeedbackExamples.FirstPass | 7/aoc-7.2.py:436-440 | a fresh amplifier with its phase and a value x queued prints 2x + phase - 4 within six steps and stops at address 18, its pass count still 5 |
| AmplifierFeedbackExamples.JumpAt22 | 7/aoc-7.2.py:314-328 | at address 22 with passes left the program jumps back to read the next value |
| AmplifierFeedbackExamples.NextPass | 7/aoc-7.2.py:436-440 | back at address 18 with more than one pass left, the amplifier counts one pass off and prints 2x plus its stored phase for the next value x |
| AmplifierFeedbackExamples.LastPass | 7/aoc-7.2.py:206-210 | on the last pass the count reaches 0, the program halts, and the inner loop steps the halted machine, which raises "Program has halted" with nothing printed |
| AmplifierFeedbackExamples.Fed | 7/aoc-7.2.py:446-448 | handing a value to an idle amplifier queues exactly that value |
| AmplifierFeedbackExamples.ForwardFive | 7/aoc-7.2.py:442-448 | in a group of five, forwarding replaces the active amplifier, queues the value on the next one (A after E), records it as the final result and leaves the others alone |
| AmplifierFeedbackExamples.FirstStep | 7/aoc-7.2.py:431-448 | in the first round, a step of amplifier i forwards twice its input plus 5 - i to the next amplifier, keeping the group in its first round until E hands on to A |
| AmplifierFeedbackExamples.RoundStep | 7/aoc-7.2.py:431-448 | in a later round with passes left, a step forwards twice the active amplifier's input plus 5 - i and counts one pass off once E has hit its turn |
| AmplifierFeedbackExamples.HaltingStep | 7/aoc-7.2.py:431-457 | when amplifier A has one pass left the run raises "Program has halted" and the final result is the last value forwarded |
| AmplifierFeedbackExamples.Continued | 7/aoc-7.2.py:451-457 | a forwarding step followed by a run that raises "Program has halted" is such a run one round longer, with the same final result |
| AmplifierFeedbackExamples.RoundsRun | 7/aoc-7.2.py:451-457 | from a later round the run ends raising "Program has halted" with the signal after every remaining pass recorded |
| AmplifierFeedbackExamples.RoundsOnward | 7/aoc-7.2.py:451-457 | the same with passes left: one forwarded step, then the rest of the run |
| AmplifierFeedbackExamples.FirstRoundRuns | 7/aoc-7.2.py:451-457 | from the first round every amplifier makes five passes before the run raises "Program has halted" |
| AmplifierFeedbackExamples.FirstRoundEnds | 7/aoc-7.2.py:451-457 | E's first step leads into the later rounds with A active |
| AmplifierFeedbackExamples.SampleAssembled | 7/aoc-7.2.py:386-412 | `__init__` on the first sample with phases 9, 8, 7, 6, 5 builds a group in its first round, signal 0 queued at A |
| AmplifierFeedbackExamples.RoundAmplified | 7/aoc-7.2.py:557 | one round of the five amplifiers turns a signal x into 32x + 129 |
| AmplifierFeedbackExamples.SampleAmplified | 7/aoc-7.2.py:557-559 | twenty-five passes from 0 give 139629729 |
| AmplifierFeedbackExamples.FeedbackSample | 7/aoc-7.2.py:556-590 | the first feedback test gives 139629729 for every budget of at least 26 rounds of 6 steps, taken from `final_result` after the run raises |
| AmplifierFeedbackExamples.StarvedProgramMemory | 7/aoc-7.2.py:44-48 | the one-amplifier program holds its twelve words with 0 in its data cell |
| AmplifierFeedbackExamples.StarveWord | 7/aoc-7.2.py:282-288 | reading with nothing queued raises the input error and flags the machine waiting, and the loop of `step` passes the error on |
| AmplifierFeedbackExamples.StarvedFirstStep | 7/aoc-7.2.py:431-448 | the first step reads the phase and 0, prints 0 and hands it back to the same amplifier, which is active again |
| AmplifierFeedbackExamples.StarvedSecondStep | 7/aoc-7.2.py:431-440 | the second step reads the 0 handed back, then raises the input error with 0 still the final result |
| AmplifierFeedbackExamples.StarvedSample | 7/aoc-7.2.py:610-616 | with phase 5 the run raises the input error with `final_result` at 0, and the sequence has no signal because only `IntcodeError` is caught |
| SpaceImages.Chunks | 8/aoc-8.1.py:34-38 | `int(len / size)` slices, each of the layer size |
| SpaceImages.ChunkAt | 8/aoc-8.1.py:38 | slice k is the data from k times the layer size to k + 1 times it |
| SpaceImages.TotalLength | 8/aoc-8.1.py:40 | summing the slices' lengths gives the length of their concatenation |
| SpaceImages.ChunksCover | 8/aoc-8.1.py:34-41 | the slices spell out the data up to its last whole layer |
| SpaceImages.SizeCheckPredictsConversion | 8/aoc-8.1.py:26-41 | the size check passes exactly when the conversion check passes, and then the layers spell out the data |
| SpaceImages.NegativeSizeConversion | 8/aoc-8.1.py:34-41 | with a negative layer size, the conversion check passes exactly on empty data |
| SpaceImages.SpaceImage.SetLayerSize | 8/aoc-8.1.py:26-31 | width and height are stored before the check raises on a zero size or a length that is not a multiple |
| SpaceImages.SpaceImage.ConvertToLayers | 8/aoc-8.1.py:34-41 | a zero size raises before anything is stored; otherwise the layers are stored and checked against the data's length |
| SpaceImages.SpaceImage.constructor | 8/aoc-8.1.py:16-24 | a new image holds the data with no sizes and no layers |
| SpaceImages.OccurrencesOfChar | 8/aoc-8.1.py:45 | `count` of one digit is its number of occurrences |
| SpaceImages.DigitCount | 8/aoc-8.1.py:44-45 | counting raises exactly when the layer number is out of range |
| SpaceImages.DigitCountMeaning | 8/aoc-8.1.py:44-45 | the count is the digit's number of occurrences in the indexed layer |
| SpaceImages.FirstMin | 8/aoc-8.1.py:56 | `totals.index(min(totals))` is the first position of a least total, and raises on no totals |
| SpaceImages.Min | 8/aoc-8.1.py:56 | `min` is one of the totals and no larger than any of them |
| SpaceImages.FewestLayerMeaning | 8/aoc-8.1.py:48-56 | the layer found has no more of the digit than any other, and strictly fewer than every earlier layer |
| SpaceImages.ChecksumMeaning | 8/aoc-8.1.py:65-67 | the answer is the count of 1s times the count of 2s in the layer with the fewest 0s |
| SpaceImages.Checksum | 8/aoc-8.1.py:65-67 | the checksum exists exactly when there is a layer |
| SpaceImages.SpaceImage.MergeLayers | 8/aoc-8.2.py:59-75 | the loop over pixels and layers computes the specification's picture, and raises on a short layer |
| SpaceImages.Merged | 8/aoc-8.2.py:59-75 | a merged picture has the front layer's size |
| SpaceImages.FirstVisibleTransparent | 8/aoc-8.2.py:63-73 | looking down the stack always finds a colour, and finds transparent exactly when every layer is transparent there |
| SpaceImages.FirstVisibleOpaque | 8/aoc-8.2.py:63-73 | an opaque colour found is that of some layer, with only transparent layers above it |
| SpaceImages.MergedSingle | 8/aoc-8.2.py:59-75 | a single layer merges to itself |
| SpaceImages.MergedPixel | 8/aoc-8.2.py:59-75 | a merged pixel is transparent exactly when every layer is, and otherwise is the first opaque pixel down the stack |
| SpaceImages.MergedKeepsFront | 8/aoc-8.2.py:65-66 | an opaque pixel of the front layer is kept |
| SpaceImages.MergedSucceeds | 8/aoc-8.2.py:59-75 | layers of equal length always merge |
| SpaceImages.ChunksMerge | 8/aoc-8.2.py:59-75 | the layers cut from data holding at least one whole layer always merge |
| Asteroids.Delta | 10/aoc-10.1.py:51-55 | the delta leads from the start to the end |
| Asteroids.Row | 10/aoc-10.1.py:29 | a map line becomes one flag per character of the stripped line, set exactly on '#' |
| Asteroids.Rows | 10/aoc-10.1.py:28-29 | there is one row per map line, each read by `Row` |
| Asteroids.AsteroidField.constructor | 10/aoc-10.1.py:13-22 | a new field is empty |
| Asteroids.AsteroidField.Reset | 10/aoc-10.1.py:17-22 | the map is emptied and both sizes become 0 |
| Asteroids.AsteroidField.SetMap | 10/aoc-10.1.py:25-32 | the rows are read, the width is the number of rows, the height is the first row's length, and no rows raise |
| Asteroids.CollinearBlocks | 10/aoc-10.1.py:66-76 | every other grid point on the line through the station and the target, no farther from the station than the target, blocks it, on either side of the station: the direction is not checked |
| Asteroids.NoBlockAtStation | 10/aoc-10.1.py:67-68 | neither the station nor the target itself ever blocks |
| Asteroids.ScanFits | 10/aoc-10.1.py:79-92 | listing the asteroids raises exactly when a cell it reads does not exist |
| Asteroids.SquareScans | 10/aoc-10.1.py:79-92 | a square map lists in full |
| Asteroids.NonSquareRaises | 10/aoc-10.1.py:31-32 | a one-row map two cells wide raises, because the width and height are swapped |
| Asteroids.ScanSound | 10/aoc-10.1.py:79-92 | every point listed is an asteroid within the bounds |
| Asteroids.ScanComplete | 10/aoc-10.1.py:79-92 | every asteroid within the bounds is listed |
| Asteroids.ScanOrdered | 10/aoc-10.1.py:82-90 | the list is in row-major order |
| Asteroids.AsteroidField.GetAsteroids | 10/aoc-10.1.py:79-92 | the double loop computes the specification's list |
| Asteroids.Blocked | 10/aoc-10.1.py:106-110 | the inner loop finds a blocker exactly when the target is not visible |
| Asteroids.AsteroidField.GetVisibilityScore | 10/aoc-10.1.py:95-115 | the loops count the visible asteroids |
| Asteroids.CountVisible | 10/aoc-10.1.py:103-113 | no more targets are counted than there are |
| Asteroids.StationSeesItself | 10/aoc-10.1.py:103-113 | a station among the asteroids always counts itself |
| Asteroids.ScoreBounds | 10/aoc-10.1.py:95-115 | a score lies between 1 and the number of asteroids |
| Asteroids.Scores | 10/aoc-10.1.py:122-124 | there is one score per asteroid, in order |
| Asteroids.ScoresAt | 10/aoc-10.1.py:122-124 | score k is the score of asteroid k |
| Asteroids.AsteroidField.CollectScores | 10/aoc-10.1.py:122-124 | the loop collects the specification's scores |
| Asteroids.BestScoreMeaning | 10/aoc-10.1.py:118-127 | the best score is some asteroid's score, no asteroid scores more, and `max` raises exactly on no asteroids |
| Asteroids.BestCandidateMeaning | 10/aoc-10.1.py:130-137 | the candidate is the first asteroid with the best score |
| Asteroids.AsteroidField.GetBestScore | 10/aoc-10.1.py:118-127 | the loop over the stations computes the specification's best score |
| Asteroids.AsteroidField.GetBestCandidateStation | 10/aoc-10.1.py:130-137 | the loop computes the specification's candidate |
| AsteroidExamples.SampleRows | 10/aoc-10.1.py:25-33 | `set_map` reads the first test map into its five rows of cells |
| AsteroidExamples.ScanFiveColumns | 10/aoc-10.1.py:79-91 | on a grid five columns wide, `get_asteroids` lists a row's asteroids left to right and goes on with the next row |
| AsteroidExamples.SampleRowScan | 10/aoc-10.1.py:79-91 | each row of the first test map lists its own asteroids |
| AsteroidExamples.SampleScan | 10/aoc-10.1.py:79-91 | the first test map's grid lists its ten asteroids in row-major order |
| AsteroidExamples.SampleListed | 10/aoc-10.1.py:25-33 | the first test map is five by five and `get_asteroids` lists all ten asteroids |
| AsteroidExamples.ClearVisible | 10/aoc-10.1.py:103-110 | a target with none of the sample's positions between it and the station counts |
| AsteroidExamples.SeenAbove | 10/aoc-10.1.py:66-76 | from (3, 4) nothing blocks the six asteroids of rows 0 and 2 other than (1, 0) |
| AsteroidExamples.SeenBeside | 10/aoc-10.1.py:66-76 | from (3, 4) nothing blocks (4, 3), (4, 4) or the station itself |
| AsteroidExamples.HiddenFromStation | 10/aoc-10.1.py:66-76 | (2, 2) blocks (1, 0) from (3, 4) |
| AsteroidExamples.CountOneMore | 10/aoc-10.1.py:100-113 | counting one more target adds one exactly when it is visible |
| AsteroidExamples.TallyTen | 10/aoc-10.1.py:100-113 | the score over ten targets is what each contributes |
| AsteroidExamples.SampleStationScore | 10/aoc-10.1.py:96-115 | nine of the ten asteroids count from (3, 4), the station among them |
| AsteroidExamples.SampleVisibilityScore | 10/aoc-10.1.py:96-115 | `get_visibility_score` on the first test map gives 9 at (3, 4) |
| AsteroidExamples.SampleTestFails | 10/aoc-10.1.py:144-154 | as written, the first test's expectation, best station (3, 4) with score 8, cannot both hold |

## Left out

- **Input and output.**
  - Reading input files (`readInput`, `readInstructions`, `load_program_from_file`, `read_from_file`, `load_map_from_file`) is left out. The programs, lines and maps become parameters.
  - Every `print`, `display`, `debug`, the verbose flags, and the `ipdb` and exception-hook setup are left out. They produce output only.
- **The `main` functions.** They read input files, so they appear only where they compute an answer from modelled parts. Examples are `MaxSignal`, `BestFeedback`, `BruteForce` and `Checksum`.
- **Permutations.** `itertools.permutations` is not modelled. The searches over phase sequences take the caller's list of sequences.
- **Python's `int()`.**
  - `int()` also accepts signs, surrounding whitespace and underscores. The distance parser of day 3 is modelled on plain decimal digits, and any other text raises. A negative distance would make the source's `while distance` loop run for ever.
  - `int(x / 3)` goes through a float. It is modelled as exact truncating division, which differs only beyond 2^53.
- **Square roots.** Day 10 compares `get_distance` values, which are square roots. The model compares squared distances, which order the same way, and leaves the floating point out.
- **Aliasing in `set_inputs`.** `set_inputs` stores the caller's list itself, so later changes to that list would show in the machine. The model stores a copy of its value.
- **Fuel bounds.** Intcode runs, the day 7 chains and the feedback group take step or round budgets that the source does not have. A run that exceeds its budget ends as `OutOfFuel`, `Unfinished` or `Stalled`, and is not claimed to terminate.
- **Machines with no program.**
  - `IntcodeMachine` and `AmplifierGroup` without a program read an input file.
  - `AmplifierFeedback.AmplifierGroup.constructor` therefore requires a non-empty program.
  - It also requires one to five phases. `Assembled` models the other phase counts as raising.
- **Amplifier objects.** The group's amplifiers are assumed distinct objects, as `__init__` creates them.
- **Machine names.** The `name` attribute is left out. Only its bound of five amplifiers is modelled.
- **`getRouteLengthToPoint`.** It has no `self` parameter, so it cannot be called on a `Path`, and nothing calls it.
- **Test samples with no lemmas.**
  - The day 3 samples are left out: their wires are hundreds of points long.
  - The day 10 samples other than the first are left out: their maps are 10 by 10 and 20 by 20, and each station's score takes a visibility check of every asteroid against every other.
  - The second feedback sample (18216) is left out. Its 57-word program loops through a branch-heavy body on each pass, and it would need its own chain of step lemmas like those of `AmplifierFeedbackExamples`.
- **How the sample lemmas are stated.** They hold for every budget at least as large as the steps the run takes, written `fuel >= k` or `extra + k`.
- **Regular expressions.** Day 4's `re.sub(c + '{3,}', 'x', s)` and `re.search(c + '{2}', s)` are modelled for those two patterns only, as operations on runs of equal characters.
- RunEnds: the lemma does not characterise how a run ends except by halting. With the source's machine, the first amplifier to halt is stepped again by the group's inner loop and raises NotRunning, so the run hardly ever returns normally.
- Orbits.RunOrbitProgram: requires a map without cycles, on which the source's inner loop would never end.
- GravityAssist.RestoreGravityAssistProgram: requires at least three cells; on a shorter program the source raises IndexError.
- GravityAssist.BruteForce: requires at least three cells for the same reason.
