/** Day 1: fuel needed to launch the spacecraft's modules.
    Part 1 charges `int(mass / 3) - 2` per module; part 2 also charges fuel
    for the fuel, recursively, until the extra requirement is not positive. */
module RocketFuel {
  import opened Common

  /** Part 1 fuel for one module. There is no clamping: a mass below 6
      gives a negative requirement. */
  function ModuleFuel(mass: int): int {
    TruncDiv(mass, 3) - 2
  }

  /** `sum(map(f, masses))`. */
  function SumMap(f: int -> int, masses: seq<int>): int
    decreases |masses|
  {
    if |masses| == 0 then 0 else f(masses[0]) + SumMap(f, masses[1..])
  }

  /** Part 1 total: the sum of the per-module fuel. */
  function TotalFuel(masses: seq<int>): int {
    SumMap(ModuleFuel, masses)
  }

  /** The requirement is negative exactly for masses below 6. */
  lemma ModuleFuelNegative(mass: int)
    ensures ModuleFuel(mass) < 0 <==> mass < 6
  {
  }

  /** Heavier modules never need less fuel. */
  lemma ModuleFuelMonotonic(a: int, b: int)
    requires a <= b
    ensures ModuleFuel(a) <= ModuleFuel(b)
  {
  }

  lemma {:induction false} SumMapAppend(f: int -> int, a: seq<int>, b: seq<int>)
    ensures SumMap(f, a + b) == SumMap(f, a) + SumMap(f, b)
    decreases |a|
  {
    if |a| > 0 {
      assert (a + b)[1..] == a[1..] + b;
      SumMapAppend(f, a[1..], b);
    } else {
      assert a + b == b;
    }
  }

  /** The order in which the masses are listed does not change the total. */
  lemma {:induction false} SumMapPermutation(f: int -> int, a: seq<int>, b: seq<int>)
    requires multiset(a) == multiset(b)
    ensures SumMap(f, a) == SumMap(f, b)
    decreases |a|
  {
    if |a| > 0 {
      assert a[0] in multiset(b);
      var k :| 0 <= k < |b| && b[k] == a[0];
      var rest := b[..k] + b[k + 1..];
      assert b == b[..k] + ([b[k]] + b[k + 1..]);
      assert a == [a[0]] + a[1..];
      assert multiset(b) == multiset(b[..k]) + multiset([b[k]]) + multiset(b[k + 1..]);
      assert multiset(rest) == multiset(b[..k]) + multiset(b[k + 1..]);
      assert multiset(a) == multiset([a[0]]) + multiset(a[1..]);
      assert multiset(a[1..]) == multiset(a) - multiset{a[0]};
      assert multiset(rest) == multiset(b) - multiset{a[0]};
      SumMapPermutation(f, a[1..], rest);
      SumMapAppend(f, b[..k], [b[k]] + b[k + 1..]);
      SumMapAppend(f, b[..k], b[k + 1..]);
      assert ([b[k]] + b[k + 1..])[1..] == b[k + 1..];
    } else {
      assert |b| == |multiset(b)| == 0;
    }
  }

  lemma TotalFuelPermutation(a: seq<int>, b: seq<int>)
    requires multiset(a) == multiset(b)
    ensures TotalFuel(a) == TotalFuel(b)
  {
    SumMapPermutation(ModuleFuel, a, b);
  }

  /** Part 2 fuel for one module: the fuel itself needs fuel, and so on.
      The recursion stops at the first requirement that is not positive;
      the result is never negative. */
  function FuelForMass(mass: int): (fuel: int)
    ensures fuel >= 0
    decreases mass
  {
    var fuelMass := TruncDiv(mass, 3) - 2;
    var total := if fuelMass > 0 then fuelMass + FuelForMass(fuelMass) else fuelMass;
    if total > 0 then total else 0
  }

  /** The recursion in closed form: with g the part 1 requirement, the
      result is 0 when g is not positive and g + FuelForMass(g) otherwise;
      and the recursive argument is smaller than the mass. */
  lemma FuelForMassUnfold(mass: int)
    ensures var g := ModuleFuel(mass);
      FuelForMass(mass) == (if g > 0 then g + FuelForMass(g) else 0)
    ensures ModuleFuel(mass) > 0 ==> ModuleFuel(mass) < mass
  {
  }

  /** For a non-negative mass, no fuel is needed exactly when the mass is at most 8. */
  lemma FuelForMassZero(mass: int)
    requires mass >= 0
    ensures FuelForMass(mass) == 0 <==> mass <= 8
  {
    FuelForMassUnfold(mass);
  }

  /** Part 2 never asks for less than part 1. */
  lemma FuelForMassCoversModuleFuel(mass: int)
    ensures FuelForMass(mass) >= ModuleFuel(mass)
  {
    FuelForMassUnfold(mass);
  }

  /** Part 2 total: the sum of the recursive per-module fuel. */
  function TotalFuelRecursive(masses: seq<int>): int {
    SumMap(FuelForMass, masses)
  }

  lemma {:induction false} TotalFuelRecursiveBounds(masses: seq<int>)
    ensures TotalFuelRecursive(masses) >= 0
    ensures TotalFuelRecursive(masses) >= TotalFuel(masses)
    decreases |masses|
  {
    if |masses| > 0 {
      TotalFuelRecursiveBounds(masses[1..]);
      FuelForMassCoversModuleFuel(masses[0]);
    }
  }
}
