# Space calculator

A model of `CalculadoraEspacial`, a small "space calculator" used on missions.
It holds one piece of state, the fuel on board (`combustible`), and offers:

- `sumar_combustible` — add an amount of fuel and return the new total;
- `calcular_distancia` — distance as speed times time;
- `puede_llegar_a_marte` — whether the fuel reaches the fixed threshold of 100 units.

A short demonstration builds a calculator with 50 units, adds 60, and picks one
of two messages depending on whether Mars is reachable.

The Dafny module `SpaceMission` (file `space_calculator.dfy`) holds the class
`SpaceCalculator`. Its field `fuel` is updated in place by the method `AddFuel`.
The queries `ComputeDistance` and `CanReachMars` are functions, so they cannot
change the calculator. `ComputeDistance` has no `reads` clause, so it cannot
look at the fuel either. There are also value-level specifications:

- `Refuelled` gives the fuel value after a run of additions; `AddFuel` is tied
  to one step of it, and `SuccessiveAdditions` ties two calls on one
  calculator to it;
- `Travelled` defines distance as speed added up once per time unit;
- `HasFuelForMars` is the threshold test on a plain number.

The members' contracts connect the class to these specifications. The lemmas
prove properties of the specifications themselves, stated on fuel values.

Numbers are unbounded integers. Python integers are also unbounded, so the
arithmetic is exact and nothing wraps around.

The name `sumar_combustible` ("add fuel") suggests that fuel only grows, but
the code does not check this: `sumar_combustible` adds whatever amount it is given, so a
negative amount lowers the fuel. The model follows the code.
`NegativeAmountLowersFuel` proves that negative amounts are accepted, and
`NonNegativeRefuelsNeverLower` proves that fuel can only grow when no amount
is negative.

## Model

| member | source | states |
|---|---|---|
| `SpaceMission.SpaceCalculator.constructor` | estudiantes/martinaecheverria/tarea02-basics/prueba.py:8-13 | the new calculator's fuel is exactly the initial amount given, with no validation |
| `SpaceMission.DefaultStart` | estudiantes/martinaecheverria/tarea02-basics/prueba.py:8 | a calculator built with no initial amount starts with 0 fuel |
| `SpaceMission.SpaceCalculator.AddFuel` | estudiantes/martinaecheverria/tarea02-basics/prueba.py:15-20 | the new fuel is the old fuel plus the amount (one step of `Refuelled`), with no bounds check, and the returned total is exactly the new fuel |
| `SpaceMission.SpaceCalculator.ComputeDistance` | estudiantes/martinaecheverria/tarea02-basics/prueba.py:22-27 | the distance equals the speed accumulated once per time unit (negated for negative time), and is 0 when speed or time is 0; it reads no state |
| `SpaceMission.SpaceCalculator.CanReachMars` | estudiantes/martinaecheverria/tarea02-basics/prueba.py:29-37 | true exactly when the fuel on board is at least the threshold of 100; as a function it leaves the fuel unchanged |
| `SpaceMission.MarsThresholdBoundary` | estudiantes/martinaecheverria/tarea02-basics/prueba.py:34-37 | the threshold is inclusive: 100 units suffice and 99 do not, so adding -1 to exactly 100 units gives fuel that cannot reach Mars |
| `SpaceMission.RefuelledTwice` | estudiantes/martinaecheverria/tarea02-basics/prueba.py:15-20 | adding `a` and then `b` leaves the original fuel plus `a + b` |
| `SpaceMission.RefuelledIsSum` | estudiantes/martinaecheverria/tarea02-basics/prueba.py:15-20 | for fuel values, any sequence of additions leaves the original fuel plus the sum of the amounts |
| `SpaceMission.RefuelledAppend` | estudiantes/martinaecheverria/tarea02-basics/prueba.py:15-20 | refuelling with one sequence of amounts and then another is the same as refuelling with both sequences joined |
| `SpaceMission.NonNegativeRefuelsNeverLower` | estudiantes/martinaecheverria/tarea02-basics/prueba.py:19 | when no amount is negative, refuelling never lowers the fuel |
| `SpaceMission.NonNegativeRefuelsKeepMarsReach` | estudiantes/martinaecheverria/tarea02-basics/prueba.py:19-37 | for fuel values: an amount that reaches the Mars threshold still reaches it after additions of non-negative amounts |
| `SpaceMission.NegativeAmountLowersFuel` | estudiantes/martinaecheverria/tarea02-basics/prueba.py:19 | a negative amount is accepted and strictly lowers the fuel |
| `SpaceMission.TravelledIsProduct` | estudiantes/martinaecheverria/tarea02-basics/prueba.py:27 | the repeated-addition distance equals speed times the number of time units |
| `SpaceMission.TravelledAdditive` | estudiantes/martinaecheverria/tarea02-basics/prueba.py:22-27 | the distance over `t1 + t2` time units is the distance over `t1` plus the distance over `t2` |
| `SpaceMission.SuccessiveAdditions` | estudiantes/martinaecheverria/tarea02-basics/prueba.py:15-37 | two successive `AddFuel` calls on one calculator leave the initial fuel plus both amounts, which equals `Refuelled` over the two amounts, and `CanReachMars` then reports whether that total reaches 100 |
| `SpaceMission.Demonstration` | estudiantes/martinaecheverria/tarea02-basics/prueba.py:41-44 | starting from 50 and adding 60 gives 110 units, so the calculator can reach Mars and the "enough fuel" branch is the one taken |

## Left out

- The two printed messages and the running of the script at module level (prueba.py:44-47): these are console output. The model returns the boolean that chooses the message.
- Python's dynamic typing: arguments that are not numbers, and the runtime errors they raise, are not modelled. Every quantity is an `int`.
- Fractional and floating-point quantities: Python floats (IEEE doubles) are not modelled. Only the exact integer case used by the demonstration is covered, so a threshold check such as 99.999 cannot be stated.
