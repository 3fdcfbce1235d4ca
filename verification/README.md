# Reactive delivery agent and rabbit grid, in Dafny

This project models two parts of the intelligent-agents repository and proves
properties of them.

- **The reactive agent** (`reactive/src/template/ReactiveTemplate.java`), in
  `reactive.dfy`:
  - the reward of an action: the task reward, if any, less the vehicle's
    cost per km times the distance;
  - the lookup of the vehicle homed at a city;
  - task id allocation, with Java's 32-bit `int` wrap-around;
  - the pickup-or-move rule of `act`;
  - one pass of the body of `learn`'s endless loop. The pass takes a snapshot
    of the V-table. For every city and every neighbour, it computes and stores
    a Move Q-value, and a Pickup Q-value when the task's weight is strictly
    below the vehicle's capacity. Then it stores the largest of the city's
    Q-values as the city's new V-value.
- **The rabbit grid** (`ex0/sciper1-sciper2/src/RabbitsGrassSimulationSpace.java`),
  in `rabbits_space.dfy`. It has a grass layer and a rabbit layer, both
  `array2`. The model covers the constructor, `spreadGrass`, `addRabbit` and
  `getGrassAt`.
- **The rabbit** (`ex0/sciper1-sciper2/src/RabbitsGrassSimulationAgent.java`),
  in `rabbits_agent.dfy`: a class with `x`, `y` and `energy` fields, its two
  constructors, and the position getters and setters.

`options.dfy` holds the `Option` datatype. It stands for a Java reference that
may be null.

**How the sweep is specified.** Pure functions of the problem and the
snapshot describe what one sweep computes:

- `StoreNeighbor`, `StoreCity` and `StoreSweep` give the Q-table;
- `CityValues` and `StoreValues` give the V-table;
- `PickupsBefore` gives the number of ids handed out, which `AddInt32` adds
  to the id counter with 32-bit wrap-around.

The methods `LearnSweep`, `LearnCity`, `SweepCity` and `SweepNeighbor` follow
the loops of `learn`. Each one is proved to produce exactly what those
functions describe. Separate lemmas then characterise the new tables key by
key:

- exactly the swept keys are written, and every other entry is unchanged;
- every stored Q-value is at most its city's new V-value;
- every new V-value is one of the stored Q-values;
- the new values depend only on the snapshot at neighbouring cities;
- with a non-negative discount and non-negative probabilities, the sweep is
  monotone in the snapshot.

**How the code departs from textbook value iteration.**

- **No convergence test.** `learn` loops forever (line 60). The model proves
  facts about one pass and has no epsilon or iteration cap.
- **Strict capacity test.** A Pickup entry needs `weight < capacity` (line 74),
  not `weight <= capacity`.
- **Discounted value.** It is `discount * probability(city, neighbor) * V(neighbor)`,
  read from the snapshot (line 72). It is not a sum over all destinations.
  Only the city's neighbours are considered.
- **Missing V-values.** Line 72 passes the `int` literal `0` as the `Double`
  default of `getOrDefault`. javac rejects this, because an `int` does not box
  to a `Double`. The model reads a missing entry as 0, which is evidently what
  was meant.
- **The action choice ignores the Q-table.** `act` picks the task up when one
  is available and a uniform draw does not exceed `pPickup`. `setup` sets
  `pPickup` to the discount factor.
- **Failure cases.** A city with no neighbours makes `Collections.max` throw
  on the empty list of Q-values. A city with no homed vehicle but with at
  least one neighbour makes `computeReward` throw a null-pointer exception on
  its Move value. The sweep's precondition `SweepDefined` excludes both cases,
  so neither is modelled as a result.
- **Task ids wrap.** `id` and `numActions` are Java `int`s, so `id++` and
  `numActions++` wrap from 2^31 - 1 to -2^31. The model does the same.

## Model

| member | source | states |
|---|---|---|
| Reactive.AddInt32 | reactive/src/template/ReactiveTemplate.java:98 | Java's `int` addition: the result differs from the exact sum by a multiple of 2^32, and it is the exact sum whenever that fits in 32 bits. |
| Reactive.AddInt32Twice | reactive/src/template/ReactiveTemplate.java:98 | Two wrapped additions in a row equal one wrapped addition of their total, so wrapping once per id equals wrapping the count. |
| Reactive.ComputeReward | reactive/src/template/ReactiveTemplate.java:114-122 | Without a task, the reward is minus costPerKm times the distance. With a task, it is the task's reward less that cost. |
| Reactive.VehicleByCityFirstMatch | reactive/src/template/ReactiveTemplate.java:102-112 | VehicleByCity, the model of getVehicleByCity, finds nothing exactly when no vehicle is homed at the city. Otherwise it returns the first vehicle in the list that is homed there. |
| Reactive.ChooseAction | reactive/src/template/ReactiveTemplate.java:44-49 | The action is a Pickup if and only if a task is available and the draw is at most pPickup. A Pickup carries that task; a Move goes to the drawn neighbour. |
| Reactive.ChooseActionMonotone | reactive/src/template/ReactiveTemplate.java:44-49 | Raising pPickup never turns a pickup into a move. |
| Reactive.QValues | reactive/src/template/ReactiveTemplate.java:66-88 | The list of Q-values collected for a city has at least one entry per neighbour. |
| Reactive.QValuesLength | reactive/src/template/ReactiveTemplate.java:68-88 | Exactly one Move value is collected per neighbour, plus one Pickup value per neighbour whose task fits. |
| Reactive.MaxOfIsMaximum | reactive/src/template/ReactiveTemplate.java:90 | MaxOf, the model of Collections.max, is an element of the list, and no element exceeds it. |
| Reactive.NextNeighbor | reactive/src/template/ReactiveTemplate.java:68-88 | Proof helper for the inner loop. One more neighbour appends its own Q-values, entries and pickup count to those of the earlier neighbours. |
| Reactive.NextCity | reactive/src/template/ReactiveTemplate.java:63-91 | Proof helper for the outer loop. One more city appends its entries, its V-value and its pickup count to those of the earlier cities. |
| Reactive.CityValuesAt | reactive/src/template/ReactiveTemplate.java:90 | Proof helper. The new V-value listed for a city is the best of that city's Q-values. |
| Reactive.DiscountedValue | reactive/src/template/ReactiveTemplate.java:72 | A neighbour without an entry in the snapshot contributes a discounted value of 0. |
| Reactive.PickupMoveGap | reactive/src/template/ReactiveTemplate.java:77-122 | For the same city and neighbour, the Pickup Q-value (PickupQ, line 77) exceeds the Move Q-value (MoveQ, line 84) by exactly the task's reward. |
| Reactive.CandidatesInQValues | reactive/src/template/ReactiveTemplate.java:74-87 | Every neighbour contributes its Move value. It also contributes its Pickup value when the task's weight is below capacity. |
| Reactive.QValuesAreCandidates | reactive/src/template/ReactiveTemplate.java:74-87 | Every collected value is some neighbour's Move value, or the Pickup value of a neighbour whose task fits. |
| Reactive.StoreNeighborAt | reactive/src/template/ReactiveTemplate.java:74-87 | One neighbour writes its Move key, and its Pickup key only if the task fits, each with its Q-value. All other keys keep their values. |
| Reactive.StoreCityAt | reactive/src/template/ReactiveTemplate.java:68-88 | A city's inner loop writes exactly its neighbours' Move keys and the Pickup keys that fit, each with its Q-value. All other keys keep their values. |
| Reactive.CityValues | reactive/src/template/ReactiveTemplate.java:63-90 | The reference list of new V-values has exactly one entry per city. |
| Reactive.StoreSweepAt | reactive/src/template/ReactiveTemplate.java:63-91 | StoreSweep, the reference Q-table of a sweep: after the first i cities, it holds the old keys plus the swept keys of those cities. Swept keys hold their Q-values and other keys are unchanged. |
| Reactive.StoreValuesAt | reactive/src/template/ReactiveTemplate.java:90 | StoreValues, the reference V-table of a sweep: after the first i cities, it holds the old cities and cities 0 to i-1. Each of those holds its new value; every other city keeps its old one. |
| Reactive.SweptEntryAtMostValue | reactive/src/template/ReactiveTemplate.java:63-91 | After a sweep, every stored Q-value of a city is at most the city's new V-value. |
| Reactive.CityValueIsSweptEntry | reactive/src/template/ReactiveTemplate.java:63-91 | After a sweep, every city's new V-value equals one of its stored Q-values. |
| Reactive.CityValueIsBestQ | reactive/src/template/ReactiveTemplate.java:68-90 | The new V-value is at least every Move value and every allowed Pickup value, and it equals one of them. |
| Reactive.QValuesLocal | reactive/src/template/ReactiveTemplate.java:61-72 | Q-values read the snapshot only at neighbours, with an absent entry read as 0. Snapshots that agree there give the same Q-values. |
| Reactive.CityValueLocal | reactive/src/template/ReactiveTemplate.java:61-90 | A city's new V-value depends only on the snapshot's entries for its neighbours. |
| Reactive.DiscountedValueMonotone | reactive/src/template/ReactiveTemplate.java:72 | With a non-negative discount and probability, a larger snapshot value gives a discounted value at least as large. |
| Reactive.QValuesMonotone | reactive/src/template/ReactiveTemplate.java:68-88 | Larger snapshot values give Q-values at least as large, position by position. |
| Reactive.MaxOfMonotone | reactive/src/template/ReactiveTemplate.java:90 | A list that dominates another position by position has a maximum at least as large. |
| Reactive.CityValueMonotone | reactive/src/template/ReactiveTemplate.java:61-90 | With a non-negative discount and probabilities, larger snapshot values never give a smaller new V-value. |
| Reactive.ReactiveTemplate.constructor | reactive/src/template/ReactiveTemplate.java:22-24 | The Q-table and V-table start empty and the id counter starts at 0. |
| Reactive.ReactiveTemplate.Setup | reactive/src/template/ReactiveTemplate.java:27-38 | pPickup becomes the discount factor and numActions becomes 0. |
| Reactive.ReactiveTemplate.Act | reactive/src/template/ReactiveTemplate.java:41-57 | The action is the one ChooseAction gives for the current pPickup. numActions grows by one, wrapping around as a Java `int`. |
| Reactive.ReactiveTemplate.GetNewId | reactive/src/template/ReactiveTemplate.java:97-100 | The counter is incremented as a Java `int` and the new value is returned. Below 2^31 - 1 it grows by exactly one, so from the initial 0 it hands out 1, 2, 3, and so on. |
| Reactive.ReactiveTemplate.LearnSweep | reactive/src/template/ReactiveTemplate.java:61-91 | One sweep leaves the Q-table as StoreSweep of the old table and the V-table as StoreValues of all cities' new values. The id counter advances, with 32-bit wrap-around, by the number of Pickup entries. Every value reads the snapshot taken at the start. |
| Reactive.ReactiveTemplate.LearnCity | reactive/src/template/ReactiveTemplate.java:64-90 | One city stores its entries, sets its V-value to the maximum of its Q-values, and advances the id counter, with 32-bit wrap-around, by one per Pickup entry. |
| Reactive.ReactiveTemplate.SweepCity | reactive/src/template/ReactiveTemplate.java:66-88 | The inner loop returns the Q-values in the order they were computed. It stores every entry and advances the id counter, with 32-bit wrap-around, by one per Pickup entry. |
| Reactive.ReactiveTemplate.SweepNeighbor | reactive/src/template/ReactiveTemplate.java:69-87 | One neighbour: a Pickup value, stored with a new id, only when weight < capacity; then the Move value, stored. Both are returned in that order. |
| RabbitsAgent.RabbitsGrassSimulationAgent.constructor | ex0/sciper1-sciper2/src/RabbitsGrassSimulationAgent.java:14-19 | A new rabbit sits at (-1, -1) with energy DEFAULT_ENERGY = 50. |
| RabbitsAgent.RabbitsGrassSimulationAgent.WithEnergy | ex0/sciper1-sciper2/src/RabbitsGrassSimulationAgent.java:15-22 | A new rabbit sits at (-1, -1) with the given energy. |
| RabbitsAgent.RabbitsGrassSimulationAgent.GetX | ex0/sciper1-sciper2/src/RabbitsGrassSimulationAgent.java:29-31 | Returns the rabbit's column. |
| RabbitsAgent.RabbitsGrassSimulationAgent.GetY | ex0/sciper1-sciper2/src/RabbitsGrassSimulationAgent.java:33-35 | Returns the rabbit's row. |
| RabbitsAgent.RabbitsGrassSimulationAgent.SetX | ex0/sciper1-sciper2/src/RabbitsGrassSimulationAgent.java:37-39 | Sets the column; the row and energy are unchanged. |
| RabbitsAgent.RabbitsGrassSimulationAgent.SetY | ex0/sciper1-sciper2/src/RabbitsGrassSimulationAgent.java:41-43 | Sets the row; the column and energy are unchanged. |
| RabbitsSpace.ScaleDraw | ex0/sciper1-sciper2/src/RabbitsGrassSimulationSpace.java:32-55 | `(int) (Math.random() * size)` lies in [0, size) on a non-empty axis, and is 0 on an empty one. |
| RabbitsSpace.DrawnCellsBound | ex0/sciper1-sciper2/src/RabbitsGrassSimulationSpace.java:51-55 | n attempts pick at most n distinct cells, all inside a non-empty grid. |
| RabbitsSpace.GrassValue | ex0/sciper1-sciper2/src/RabbitsGrassSimulationSpace.java:72-80 | A cell holding nothing reads as BACKGROUND; any other cell reads as its value. |
| RabbitsSpace.SpreadCell | ex0/sciper1-sciper2/src/RabbitsGrassSimulationSpace.java:58-59 | A cell changes only if it was picked and read BACKGROUND, and then it becomes GRASS. A GRASS cell stays GRASS. |
| RabbitsSpace.RabbitsGrassSimulationSpace.constructor | ex0/sciper1-sciper2/src/RabbitsGrassSimulationSpace.java:15-24 | Both layers have the requested size, every grass cell is BACKGROUND, and every rabbit cell is empty. |
| RabbitsSpace.RabbitsGrassSimulationSpace.GetGrassAt | ex0/sciper1-sciper2/src/RabbitsGrassSimulationSpace.java:72-80 | An empty cell reads as BACKGROUND and any other cell as its value. On a valid grid the result is BACKGROUND or GRASS. |
| RabbitsSpace.RabbitsGrassSimulationSpace.SpreadGrass | ex0/sciper1-sciper2/src/RabbitsGrassSimulationSpace.java:49-62 | Each grass cell ends as SpreadCell of its old value and of whether one of the numGrass attempts picked it. Only the grass layer changes. A valid grid stays valid, and it gains at most numGrass GRASS cells (none when numGrass is not positive). |
| RabbitsSpace.RabbitsGrassSimulationSpace.SpreadAttempts | ex0/sciper1-sciper2/src/RabbitsGrassSimulationSpace.java:51-61 | The loop of spreadGrass: each grass cell ends as SpreadCell of its old value and of whether one of the attempts picked it. |
| RabbitsSpace.RabbitsGrassSimulationSpace.SpreadEffects | ex0/sciper1-sciper2/src/RabbitsGrassSimulationSpace.java:49-62 | After a spread over a set of picked cells, a valid grid stays valid, and the number of GRASS cells grows by at most the number of picked cells. |
| RabbitsSpace.RabbitsGrassSimulationSpace.FirstFree | ex0/sciper1-sciper2/src/RabbitsGrassSimulationSpace.java:30-44 | Finds the first attempt whose draws pick an empty rabbit cell, or reports that no attempt in the range does. |
| RabbitsSpace.RabbitsGrassSimulationSpace.AddRabbit | ex0/sciper1-sciper2/src/RabbitsGrassSimulationSpace.java:26-47 | Makes at most width × height attempts and succeeds if and only if one of them picks an empty cell. On success, the rabbit goes into the first such cell, its x and y are set to it, and no other cell changes. On failure, nothing changes. A valid grid stays valid. |

## Left out

- The endless loop of `learn`: the model is one pass of its body, and learning never terminates.
- Q-table keys: the source keys entries by a `(City, Action)` pair whose Move and Pickup objects are new on every pass. Unless the library's `Action` compares by value, every pass adds new entries instead of overwriting. Even then, a Pickup key carries a task with a fresh id from `getNewId()`, so if the task's id takes part in the comparison, later passes still add Pickup entries. The model keys entries by (city, neighbour, kind), so a later pass overwrites an earlier one.
- Task ids in Pickup values: the model computes the Pickup value for a task with id 0. The task's id plays no part in its reward. The id the sweep hands out is counted by the id counter.
- Randomness: the draws of `act`, `spreadGrass` and `addRabbit` are parameters. `Act` takes its draw whether or not a task is available, while the source draws only when one is.
- The profit printout of `act` and the `myAgent` and `random` fields of `setup`: printing and library objects.
- Reading the discount factor from agents.xml: configuration I/O. `Setup` receives the value.
- Floating point: doubles are reals, so rounding and NaN are not modelled.
- The `logist` and Repast libraries: topology, task distribution, vehicles and the torus grid are plain Dafny values and arrays. The torus wrap-around is never exercised, because every drawn coordinate is inside the grid.
- `RabbitsSpace.RabbitsGrassSimulationSpace.SpreadGrass` requires a non-empty grid when `numGrass > 0`. On an empty grid the source's torus lookup fails.
- `RabbitsSpace.RabbitsGrassSimulationSpace.AddRabbit` does not model 32-bit overflow of `max_tries = width * height`, because grid sizes are naturals.
- The constructor of `RabbitsGrassSimulationSpace` takes natural sizes; the source fails on negative ones.
- `getCurrentGrassSpace` and `getCurrentRabbitSpace`, the rabbit's `draw` method, the simulation model classes and the `rabbits/` variant: display and simulation wiring.
- The helper methods `LearnCity`, `SweepCity` and `SweepNeighbor` are the bodies of `learn`'s two loops, split out of `LearnSweep`. They do not exist as methods in the source. Likewise `SpreadAttempts` is the loop of `spreadGrass`, split out of `SpreadGrass`.
