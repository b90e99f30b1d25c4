/**
 * A toy "space calculator" for missions: it keeps an amount of fuel,
 * lets the caller add fuel, computes a distance from speed and time,
 * and decides whether the fuel on board is enough to reach Mars.
 *
 * Quantities are unbounded integers, as in the demonstration scenario.
 */
module SpaceMission {

  /** Units of fuel needed to reach Mars; a fixed constant of the calculator. */
  const MarsFuelThreshold: int := 100

  /** Whether a given amount of fuel suffices for Mars (at least the threshold). */
  predicate HasFuelForMars(fuel: int) {
    fuel >= MarsFuelThreshold
  }

  /** Sum of a sequence of fuel amounts. */
  function Sum(amounts: seq<int>): (total: int) {
    if amounts == [] then 0 else amounts[0] + Sum(amounts[1..])
  }

  /**
   * The fuel left after adding each of `amounts`, first to last, to `fuel`:
   * the value-level view of successive `AddFuel` calls on one calculator.
   */
  function Refuelled(fuel: int, amounts: seq<int>): (remaining: int)
    decreases amounts
  {
    if amounts == [] then fuel else Refuelled(fuel + amounts[0], amounts[1..])
  }

  /**
   * Distance covered at `speed` over `steps` whole time units, as the
   * speed accumulated once per unit: an independent reference for the
   * distance formula.
   */
  function Travelled(speed: int, steps: nat): (distance: int) {
    if steps == 0 then 0 else Travelled(speed, steps - 1) + speed
  }

  class SpaceCalculator {
    /** Fuel currently on board. */
    var fuel: int

    /** Starts with `initialFuel` units of fuel, zero when none is given; any value is accepted. */
    constructor (initialFuel: int := 0)
      ensures fuel == initialFuel
    {
      fuel := initialFuel;
    }

    /**
     * Adds `amount` to the fuel on board and returns the new total.
     * There is no bounds check: a negative amount lowers the fuel.
     */
    method AddFuel(amount: int) returns (total: int)
      modifies this
      ensures fuel == Refuelled(old(fuel), [amount])
      ensures fuel == old(fuel) + amount
      ensures total == fuel
    {
      fuel := fuel + amount;
      total := fuel;
    }

    /**
     * Distance covered at `speed` during `time`. It depends on its
     * arguments only: with no `reads` clause it cannot consult the fuel.
     */
    function ComputeDistance(speed: int, time: int): (distance: int)
      ensures time >= 0 ==> distance == Travelled(speed, time)
      ensures time < 0 ==> distance == -Travelled(speed, -time)
      ensures speed == 0 || time == 0 ==> distance == 0
    {
      if time >= 0 then TravelledIsProduct(speed, time); speed * time
      else
        TravelledIsProduct(speed, -time);
        assert speed * time == -(speed * -time);
        speed * time
    }

    /** True exactly when the fuel on board reaches the Mars threshold; changes nothing. */
    function CanReachMars(): (sufficient: bool)
      reads this
      ensures sufficient == HasFuelForMars(fuel)
    {
      if fuel >= MarsFuelThreshold then true else false
    }
  }

  /** Adding `a` and then `b` amounts to adding `a + b` once. */
  lemma RefuelledTwice(fuel: int, a: int, b: int)
    ensures Refuelled(fuel, [a, b]) == fuel + a + b
  {
    assert [a, b][1..] == [b];
    assert [b][1..] == [];
    assert Refuelled(fuel + a, [b]) == fuel + a + b;
  }

  /** Any run of refuellings leaves the initial fuel plus the sum of the amounts. */
  lemma {:induction false} RefuelledIsSum(fuel: int, amounts: seq<int>)
    ensures Refuelled(fuel, amounts) == fuel + Sum(amounts)
    decreases amounts
  {
    if amounts != [] {
      RefuelledIsSum(fuel + amounts[0], amounts[1..]);
    }
  }

  /** Refuelling with `a` and then with `b` is refuelling with `a + b`. */
  lemma {:induction false} RefuelledAppend(fuel: int, a: seq<int>, b: seq<int>)
    ensures Refuelled(fuel, a + b) == Refuelled(Refuelled(fuel, a), b)
    decreases a
  {
    if a != [] {
      assert (a + b)[0] == a[0];
      assert (a + b)[1..] == a[1..] + b;
      RefuelledAppend(fuel + a[0], a[1..], b);
    } else {
      assert a + b == b;
    }
  }

  /** With non-negative amounts only, refuelling never lowers the fuel. */
  lemma {:induction false} NonNegativeRefuelsNeverLower(fuel: int, amounts: seq<int>)
    requires forall i :: 0 <= i < |amounts| ==> amounts[i] >= 0
    ensures Refuelled(fuel, amounts) >= fuel
    decreases amounts
  {
    if amounts != [] {
      NonNegativeRefuelsNeverLower(fuel + amounts[0], amounts[1..]);
    }
  }

  /** A calculator able to reach Mars stays able after non-negative refuellings. */
  lemma NonNegativeRefuelsKeepMarsReach(fuel: int, amounts: seq<int>)
    requires HasFuelForMars(fuel)
    requires forall i :: 0 <= i < |amounts| ==> amounts[i] >= 0
    ensures HasFuelForMars(Refuelled(fuel, amounts))
  {
    NonNegativeRefuelsNeverLower(fuel, amounts);
  }

  /** A negative amount is accepted and lowers the fuel. */
  lemma NegativeAmountLowersFuel(fuel: int, amount: int)
    requires amount < 0
    ensures Refuelled(fuel, [amount]) < fuel
  {
  }

  /**
   * The threshold is inclusive: 100 units suffice, 99 do not, so adding
   * -1 to exactly 100 units takes a calculator from enough fuel to not enough.
   */
  lemma MarsThresholdBoundary()
    ensures HasFuelForMars(100)
    ensures !HasFuelForMars(99)
    ensures !HasFuelForMars(Refuelled(100, [-1]))
  {
  }

  /** The reference distance is speed times the number of time units. */
  lemma {:induction false} TravelledIsProduct(speed: int, steps: nat)
    ensures Travelled(speed, steps) == speed * steps
  {
    if steps > 0 {
      TravelledIsProduct(speed, steps - 1);
      assert speed * steps == speed * (steps - 1) + speed;
    }
  }

  /** Travelling for `t1` and then `t2` time units covers the sum of both distances. */
  lemma {:induction false} TravelledAdditive(speed: int, t1: nat, t2: nat)
    ensures Travelled(speed, t1 + t2) == Travelled(speed, t1) + Travelled(speed, t2)
  {
    if t2 > 0 {
      TravelledAdditive(speed, t1, t2 - 1);
    }
  }

  /** A calculator built without an initial amount starts with no fuel. */
  method DefaultStart() returns (fuel: int)
    ensures fuel == 0
  {
    var calculator := new SpaceCalculator();
    fuel := calculator.fuel;
  }

  /**
   * Two successive `AddFuel` calls on one calculator: the fuel ends at the
   * initial amount plus both amounts, which is `Refuelled` over the two calls,
   * and the Mars check answers for that final amount.
   */
  method SuccessiveAdditions(initialFuel: int, a: int, b: int) returns (fuel: int, sufficient: bool)
    ensures fuel == initialFuel + a + b
    ensures fuel == Refuelled(initialFuel, [a, b])
    ensures sufficient == HasFuelForMars(initialFuel + a + b)
  {
    var calculator := new SpaceCalculator(initialFuel);
    var first := calculator.AddFuel(a);
    var second := calculator.AddFuel(b);
    RefuelledTwice(initialFuel, a, b);
    fuel := calculator.fuel;
    sufficient := calculator.CanReachMars();
  }

  /**
   * The demonstration scenario: start with 50 units, add 60, and the
   * calculator reports that it can reach Mars with 110 units, so the
   * "enough fuel" message is the one selected.
   */
  method Demonstration() returns (total: int, sufficient: bool)
    ensures total == 110
    ensures sufficient
  {
    var calculator := new SpaceCalculator(50);
    total := calculator.AddFuel(60);
    sufficient := calculator.CanReachMars();
  }
}
