/**
 * The reactive delivery agent of reactive/src/template/ReactiveTemplate.java:
 * the reward of an action, the lookup of the vehicle homed at a city, the
 * choice between picking up a task and moving on, and one Bellman sweep that
 * fills the Q-table and the V-table.
 *
 * Cities are the indices 0 .. |neighbors| - 1 of the topology. The library's
 * distance, task probability, reward and weight are total functions on pairs
 * of cities. Java doubles are reals.
 */
module Reactive {
  import opened Options

  type CityId = nat

  /** The city graph: city c (0 <= c < |neighbors|) has the neighbour list neighbors[c]. */
  datatype Topology = Topology(neighbors: seq<seq<CityId>>, distance: (CityId, CityId) -> real)

  /** For a pair (city, destination): the chance a task appears, its reward and its weight. */
  datatype TaskDistribution = TaskDistribution(
    probability: (CityId, CityId) -> real,
    reward: (CityId, CityId) -> int,
    weight: (CityId, CityId) -> int)

  datatype Vehicle = Vehicle(homeCity: CityId, capacity: int, costPerKm: int)

  datatype Task = Task(id: int, source: CityId, destination: CityId, reward: int, weight: int)

  datatype Action = Move(destination: CityId) | Pickup(task: Task)

  datatype ActionKind = MoveKind | PickupKind

  /** A Q-table key: the city, the neighbour the action leads to, and the kind of action. */
  datatype QKey = QKey(city: CityId, neighbor: CityId, kind: ActionKind)

  /** Everything one learning sweep reads besides the tables: the arguments of learn. */
  datatype Problem = Problem(topology: Topology, td: TaskDistribution, vehicles: seq<Vehicle>, discount: real)

  // ---------------------------------------------------------------------------
  // Java's 32-bit int

  const TWO_32: int := 0x1_0000_0000

  /** A Java `int`. */
  newtype int32 = x: int | -0x8000_0000 <= x < 0x8000_0000

  /** Java's `int` addition: the sum wrapped around into the 32-bit range. */
  function AddInt32(a: int32, b: int): (r: int32)
    ensures (r as int - (a as int + b)) % TWO_32 == 0
    ensures -0x8000_0000 <= a as int + b < 0x8000_0000 ==> r as int == a as int + b
  {
    ((a as int + b + 0x8000_0000) % TWO_32 - 0x8000_0000) as int32
  }

  /** Adding a multiple of 2^32 does not change a remainder modulo 2^32. */
  lemma ModShift(y: int, q: int)
    ensures (y + q * TWO_32) % TWO_32 == y % TWO_32
  {
  }

  /** Two wrapped additions in a row are one wrapped addition of the total. */
  lemma AddInt32Twice(a: int32, b: int, c: int)
    ensures AddInt32(AddInt32(a, b), c) == AddInt32(a, b + c)
  {
    var x := a as int + b + 0x8000_0000;
    ModShift(x % TWO_32 + c, x / TWO_32);
  }

  // ---------------------------------------------------------------------------
  // Reward model and vehicle lookup

  /** The task's reward (none without a task) less the vehicle's cost of driving from `from` to `to`. */
  function ComputeReward(vehicle: Vehicle, task: Option<Task>, topology: Topology, from: CityId, to: CityId): (r: real)
    ensures task.None? ==> r == -(vehicle.costPerKm as real * topology.distance(from, to))
    ensures task.Some? ==> r == task.value.reward as real - vehicle.costPerKm as real * topology.distance(from, to)
  {
    var reward := if task.Some? then task.value.reward as real else 0.0;
    reward - vehicle.costPerKm as real * topology.distance(from, to)
  }

  /** The vehicle lookup of learn: a scan of the agent's vehicles that stops at the first one homed at `city`. */
  function VehicleByCity(vehicles: seq<Vehicle>, city: CityId): Option<Vehicle>
  {
    if |vehicles| == 0 then None
    else if vehicles[0].homeCity == city then Some(vehicles[0])
    else VehicleByCity(vehicles[1..], city)
  }

  /**
   * VehicleByCity finds nothing exactly when no vehicle is homed at `city`,
   * and otherwise finds the first vehicle that is.
   */
  lemma {:induction false} VehicleByCityFirstMatch(vehicles: seq<Vehicle>, city: CityId)
    ensures VehicleByCity(vehicles, city).None? <==> forall i :: 0 <= i < |vehicles| ==> vehicles[i].homeCity != city
    ensures VehicleByCity(vehicles, city).Some? ==>
      exists i :: 0 <= i < |vehicles| && vehicles[i] == VehicleByCity(vehicles, city).value && vehicles[i].homeCity == city &&
                  (forall j :: 0 <= j < i ==> vehicles[j].homeCity != city)
  {
    if |vehicles| > 0 && vehicles[0].homeCity != city {
      var rest := vehicles[1..];
      VehicleByCityFirstMatch(rest, city);
      assert forall i :: 0 < i < |vehicles| ==> vehicles[i] == rest[i - 1];
      if VehicleByCity(rest, city).Some? {
        var i :| 0 <= i < |rest| && rest[i] == VehicleByCity(rest, city).value && rest[i].homeCity == city &&
                 (forall j :: 0 <= j < i ==> rest[j].homeCity != city);
        assert vehicles[i + 1] == rest[i];
      }
    }
  }

  // ---------------------------------------------------------------------------
  // Action choice

  /**
   * The rule of act: pick the available task up when the draw does not exceed
   * pPickup, otherwise move to the (randomly drawn) neighbour.
   */
  function ChooseAction(availableTask: Option<Task>, draw: real, pPickup: real, randomNeighbor: CityId): (a: Action)
    ensures a.Pickup? <==> availableTask.Some? && draw <= pPickup
    ensures a.Pickup? ==> a.task == availableTask.value
    ensures a.Move? ==> a.destination == randomNeighbor
  {
    if availableTask.None? || draw > pPickup then Move(randomNeighbor) else Pickup(availableTask.value)
  }

  /** Raising pPickup never turns a pickup into a move. */
  lemma ChooseActionMonotone(availableTask: Option<Task>, draw: real, p: real, q: real, randomNeighbor: CityId)
    requires p <= q
    ensures ChooseAction(availableTask, draw, p, randomNeighbor).Pickup? ==>
            ChooseAction(availableTask, draw, q, randomNeighbor) == ChooseAction(availableTask, draw, p, randomNeighbor)
  {
  }

  // ---------------------------------------------------------------------------
  // What one sweep computes, as functions of the problem and the V-table
  // snapshot taken when the sweep starts

  /** The vehicle homed at `city`, as learn looks it up. */
  function HomeVehicle(p: Problem, city: CityId): Option<Vehicle>
  {
    VehicleByCity(p.vehicles, city)
  }

  /** A V-table read: an absent city counts as 0. */
  function Lookup(v: map<CityId, real>, city: CityId): real
  {
    if city in v then v[city] else 0.0
  }

  /**
   * The discounted value of reaching `neighbor`, read from the snapshot: a
   * neighbour without an entry contributes nothing.
   */
  function DiscountedValue(p: Problem, snapshot: map<CityId, real>, city: CityId, neighbor: CityId): (r: real)
    ensures neighbor !in snapshot ==> r == 0.0
  {
    p.discount * p.td.probability(city, neighbor) * Lookup(snapshot, neighbor)
  }

  /** The capacity test: the task's weight is strictly below the vehicle's capacity. */
  predicate Fits(p: Problem, vehicle: Vehicle, city: CityId, neighbor: CityId)
  {
    p.td.weight(city, neighbor) < vehicle.capacity
  }

  /** learn stores a Pickup entry for (city, neighbor) only with a vehicle homed at city that the task fits. */
  predicate PickupAllowed(p: Problem, city: CityId, neighbor: CityId)
  {
    HomeVehicle(p, city).Some? && Fits(p, HomeVehicle(p, city).value, city, neighbor)
  }

  /** The Q-value of moving empty from `city` to `neighbor`. */
  function MoveQ(p: Problem, snapshot: map<CityId, real>, vehicle: Vehicle, city: CityId, neighbor: CityId): real
  {
    ComputeReward(vehicle, None, p.topology, city, neighbor) + DiscountedValue(p, snapshot, city, neighbor)
  }

  /**
   * The Q-value of taking the task from `city` to `neighbor`. The task's id
   * plays no part in its reward; 0 stands for whichever id the sweep hands out.
   */
  function PickupQ(p: Problem, snapshot: map<CityId, real>, vehicle: Vehicle, city: CityId, neighbor: CityId): real
  {
    var task := Task(0, city, neighbor, p.td.reward(city, neighbor), p.td.weight(city, neighbor));
    ComputeReward(vehicle, Some(task), p.topology, city, neighbor) + DiscountedValue(p, snapshot, city, neighbor)
  }

  /** The Q-values computed for one neighbour, in the order they are collected: Pickup (if it fits), then Move. */
  function NeighborQValues(p: Problem, snapshot: map<CityId, real>, vehicle: Vehicle, city: CityId, neighbor: CityId): seq<real>
  {
    (if Fits(p, vehicle, city, neighbor) then [PickupQ(p, snapshot, vehicle, city, neighbor)] else [])
    + [MoveQ(p, snapshot, vehicle, city, neighbor)]
  }

  /** How many of the neighbours `ns` get a Pickup entry. */
  function PickupCount(p: Problem, vehicle: Vehicle, city: CityId, ns: seq<CityId>): nat
  {
    if ns == [] then 0
    else PickupCount(p, vehicle, city, ns[..|ns| - 1]) + (if Fits(p, vehicle, city, ns[|ns| - 1]) then 1 else 0)
  }

  /** The list of Q-values collected for `city` over the neighbours `ns`. */
  function QValues(p: Problem, snapshot: map<CityId, real>, vehicle: Vehicle, city: CityId, ns: seq<CityId>): (qs: seq<real>)
    ensures |qs| >= |ns|
  {
    if ns == [] then []
    else QValues(p, snapshot, vehicle, city, ns[..|ns| - 1]) + NeighborQValues(p, snapshot, vehicle, city, ns[|ns| - 1])
  }

  /** One Move value per neighbour, plus one Pickup value per neighbour whose task fits. */
  lemma {:induction false} QValuesLength(p: Problem, snapshot: map<CityId, real>, vehicle: Vehicle, city: CityId, ns: seq<CityId>)
    ensures |QValues(p, snapshot, vehicle, city, ns)| == |ns| + PickupCount(p, vehicle, city, ns)
  {
    if ns != [] {
      QValuesLength(p, snapshot, vehicle, city, ns[..|ns| - 1]);
    }
  }

  /** The largest element of a non-empty list, as Collections.max finds it. */
  function MaxOf(s: seq<real>): real
    requires |s| > 0
  {
    if |s| == 1 then s[0]
    else
      var m := MaxOf(s[..|s| - 1]);
      if s[|s| - 1] > m then s[|s| - 1] else m
  }

  /** MaxOf is an element of the list and no element exceeds it. */
  lemma {:induction false} MaxOfIsMaximum(s: seq<real>)
    requires |s| > 0
    ensures MaxOf(s) in s
    ensures forall x :: x in s ==> x <= MaxOf(s)
  {
    if |s| > 1 {
      var init, last := s[..|s| - 1], s[|s| - 1];
      MaxOfIsMaximum(init);
      assert s == init + [last];
    }
  }

  /** What the sweep needs of a city so that it does not fail: a neighbour and a homed vehicle. */
  predicate CityDefined(p: Problem, city: CityId)
  {
    city < |p.topology.neighbors| && |p.topology.neighbors[city]| > 0 && HomeVehicle(p, city).Some?
  }

  predicate SweepDefined(p: Problem)
  {
    forall c: CityId :: c < |p.topology.neighbors| ==> CityDefined(p, c)
  }

  /** The new V-value of `city`: the best of the Q-values computed for it. */
  function CityValue(p: Problem, snapshot: map<CityId, real>, city: CityId): real
    requires CityDefined(p, city)
  {
    MaxOf(QValues(p, snapshot, HomeVehicle(p, city).value, city, p.topology.neighbors[city]))
  }

  /** The Q-table keys one sweep writes. */
  predicate Swept(p: Problem, k: QKey)
  {
    k.city < |p.topology.neighbors| && k.neighbor in p.topology.neighbors[k.city] &&
    (k.kind == MoveKind || PickupAllowed(p, k.city, k.neighbor))
  }

  /** The value stored under the key `k` when `vehicle` is the one homed at `k.city`. */
  function EntryValue(p: Problem, snapshot: map<CityId, real>, vehicle: Vehicle, k: QKey): real
  {
    if k.kind == MoveKind then MoveQ(p, snapshot, vehicle, k.city, k.neighbor)
    else PickupQ(p, snapshot, vehicle, k.city, k.neighbor)
  }

  /** The value one sweep stores under the key `k`. */
  function QValueOf(p: Problem, snapshot: map<CityId, real>, k: QKey): real
    requires HomeVehicle(p, k.city).Some?
  {
    EntryValue(p, snapshot, HomeVehicle(p, k.city).value, k)
  }

  /** The keys written for `city` over the neighbours `ns`: every Move, and the Pickups whose task fits. */
  predicate CityWrites(p: Problem, vehicle: Vehicle, city: CityId, ns: seq<CityId>, k: QKey)
  {
    k.city == city && k.neighbor in ns && (k.kind == MoveKind || Fits(p, vehicle, city, k.neighbor))
  }

  /** The Q-table `q` after the entries for one neighbour are stored: Pickup when it fits, then Move. */
  function StoreNeighbor(q: map<QKey, real>, p: Problem, snapshot: map<CityId, real>, vehicle: Vehicle,
                         city: CityId, neighbor: CityId): map<QKey, real>
  {
    var withPickup :=
      if Fits(p, vehicle, city, neighbor) then q[QKey(city, neighbor, PickupKind) := PickupQ(p, snapshot, vehicle, city, neighbor)]
      else q;
    withPickup[QKey(city, neighbor, MoveKind) := MoveQ(p, snapshot, vehicle, city, neighbor)]
  }

  /** The Q-table `q` after the entries for `city` and the neighbours `ns` are stored, in order. */
  function StoreCity(q: map<QKey, real>, p: Problem, snapshot: map<CityId, real>, vehicle: Vehicle,
                     city: CityId, ns: seq<CityId>): map<QKey, real>
  {
    if ns == [] then q
    else StoreNeighbor(StoreCity(q, p, snapshot, vehicle, city, ns[..|ns| - 1]), p, snapshot, vehicle, city, ns[|ns| - 1])
  }

  /** The Q-table `q` after the entries for the cities before `i` are stored. */
  function StoreSweep(q: map<QKey, real>, p: Problem, snapshot: map<CityId, real>, i: nat): map<QKey, real>
    requires SweepDefined(p) && i <= |p.topology.neighbors|
  {
    if i == 0 then q
    else
      assert CityDefined(p, i - 1);
      StoreCity(StoreSweep(q, p, snapshot, i - 1), p, snapshot, HomeVehicle(p, i - 1).value, i - 1, p.topology.neighbors[i - 1])
  }

  /** The new V-values of all cities, in city order. */
  function CityValues(p: Problem, snapshot: map<CityId, real>): (values: seq<real>)
    requires SweepDefined(p)
    ensures |values| == |p.topology.neighbors|
  {
    seq(|p.topology.neighbors|, c requires 0 <= c < |p.topology.neighbors| => CityValue(p, snapshot, c))
  }

  /** The V-table `v` after the first `i` of `values` are stored under the cities 0 .. i - 1, in order. */
  function StoreValues(v: map<CityId, real>, values: seq<real>, i: nat): map<CityId, real>
    requires i <= |values|
  {
    if i == 0 then v
    else StoreValues(v, values, i - 1)[i - 1 := values[i - 1]]
  }

  /** The number of task ids the sweep hands out for the cities before `i`. */
  function PickupsBefore(p: Problem, i: nat): nat
    requires SweepDefined(p) && i <= |p.topology.neighbors|
  {
    if i == 0 then 0
    else
      assert CityDefined(p, i - 1);
      PickupsBefore(p, i - 1) + PickupCount(p, HomeVehicle(p, i - 1).value, i - 1, p.topology.neighbors[i - 1])
  }

  /** The id after one more neighbour: one more wrapped step when its task fits. */
  lemma NeighborIdStep(p: Problem, vehicle: Vehicle, city: CityId, ns: seq<CityId>, j: nat, start: int32, middle: int32, end: int32)
    requires j < |ns|
    requires middle == AddInt32(start, PickupCount(p, vehicle, city, ns[..j]))
    requires end == AddInt32(middle, if Fits(p, vehicle, city, ns[j]) then 1 else 0)
    ensures end == AddInt32(start, PickupCount(p, vehicle, city, ns[..j + 1]))
  {
    assert ns[..j + 1][..j] == ns[..j];
    AddInt32Twice(start, PickupCount(p, vehicle, city, ns[..j]), if Fits(p, vehicle, city, ns[j]) then 1 else 0);
  }

  /** The id after one more city: its pickups added, wrapped, to those before it. */
  lemma SweepIdStep(p: Problem, i: nat, start: int32, middle: int32, end: int32)
    requires SweepDefined(p) && i < |p.topology.neighbors|
    requires CityDefined(p, i)
    requires middle == AddInt32(start, PickupsBefore(p, i))
    requires end == AddInt32(middle, PickupCount(p, HomeVehicle(p, i).value, i, p.topology.neighbors[i]))
    ensures end == AddInt32(start, PickupsBefore(p, i + 1))
  {
    AddInt32Twice(start, PickupsBefore(p, i), PickupCount(p, HomeVehicle(p, i).value, i, p.topology.neighbors[i]));
  }

  /** One more neighbour extends the collected values, the stored entries and the pickup count by its own. */
  lemma NextNeighbor(p: Problem, snapshot: map<CityId, real>, vehicle: Vehicle, city: CityId, ns: seq<CityId>, j: nat)
    requires j < |ns|
    ensures QValues(p, snapshot, vehicle, city, ns[..j + 1]) ==
            QValues(p, snapshot, vehicle, city, ns[..j]) + NeighborQValues(p, snapshot, vehicle, city, ns[j])
    ensures forall q :: StoreCity(q, p, snapshot, vehicle, city, ns[..j + 1]) ==
                        StoreNeighbor(StoreCity(q, p, snapshot, vehicle, city, ns[..j]), p, snapshot, vehicle, city, ns[j])
    ensures PickupCount(p, vehicle, city, ns[..j + 1]) ==
            PickupCount(p, vehicle, city, ns[..j]) + (if Fits(p, vehicle, city, ns[j]) then 1 else 0)
  {
    assert ns[..j + 1][..j] == ns[..j];
  }

  /** One more city extends the stored Q-table, the stored V-table and the id count by its own. */
  lemma NextCity(q: map<QKey, real>, v: map<CityId, real>, p: Problem, snapshot: map<CityId, real>, i: nat)
    requires SweepDefined(p) && i < |p.topology.neighbors|
    ensures CityDefined(p, i)
    ensures StoreSweep(q, p, snapshot, i + 1) ==
            StoreCity(StoreSweep(q, p, snapshot, i), p, snapshot, HomeVehicle(p, i).value, i, p.topology.neighbors[i])
    ensures StoreValues(v, CityValues(p, snapshot), i + 1) ==
            StoreValues(v, CityValues(p, snapshot), i)[i := MaxOf(QValues(p, snapshot, HomeVehicle(p, i).value, i, p.topology.neighbors[i]))]
    ensures PickupsBefore(p, i + 1) == PickupsBefore(p, i) + PickupCount(p, HomeVehicle(p, i).value, i, p.topology.neighbors[i])
  {
    CityValuesAt(p, snapshot, i);
  }

  /** The new V-value of every city, read from the list of all of them. */
  lemma CityValuesAt(p: Problem, snapshot: map<CityId, real>, c: CityId)
    requires SweepDefined(p) && c < |p.topology.neighbors|
    ensures CityDefined(p, c) && CityValues(p, snapshot)[c] == CityValue(p, snapshot, c)
  {
    assert CityDefined(p, c);
  }

  // ---------------------------------------------------------------------------
  // Properties of one sweep

  /** For the same (city, neighbour), Pickup is worth exactly the task reward more than Move. */
  lemma PickupMoveGap(p: Problem, snapshot: map<CityId, real>, vehicle: Vehicle, city: CityId, neighbor: CityId)
    ensures PickupQ(p, snapshot, vehicle, city, neighbor) - MoveQ(p, snapshot, vehicle, city, neighbor) ==
            p.td.reward(city, neighbor) as real
  {
  }

  /** Every neighbour contributes its Move value, and its Pickup value when the task fits. */
  lemma {:induction false} CandidatesInQValues(p: Problem, snapshot: map<CityId, real>, vehicle: Vehicle, city: CityId,
                                               ns: seq<CityId>, n: CityId)
    requires n in ns
    ensures MoveQ(p, snapshot, vehicle, city, n) in QValues(p, snapshot, vehicle, city, ns)
    ensures Fits(p, vehicle, city, n) ==> PickupQ(p, snapshot, vehicle, city, n) in QValues(p, snapshot, vehicle, city, ns)
  {
    var last := ns[|ns| - 1];
    var init := ns[..|ns| - 1];
    assert ns == init + [last];
    if n != last {
      CandidatesInQValues(p, snapshot, vehicle, city, init, n);
    }
  }

  /** Every collected Q-value is the Move value of a neighbour or the Pickup value of a neighbour whose task fits. */
  lemma {:induction false} QValuesAreCandidates(p: Problem, snapshot: map<CityId, real>, vehicle: Vehicle, city: CityId,
                                                ns: seq<CityId>, q: real)
    requires q in QValues(p, snapshot, vehicle, city, ns)
    ensures exists n :: (n in ns &&
                         (q == MoveQ(p, snapshot, vehicle, city, n) ||
                          (Fits(p, vehicle, city, n) && q == PickupQ(p, snapshot, vehicle, city, n))))
  {
    var last := ns[|ns| - 1];
    var init := ns[..|ns| - 1];
    assert ns == init + [last];
    if q in QValues(p, snapshot, vehicle, city, init) {
      QValuesAreCandidates(p, snapshot, vehicle, city, init, q);
      var n :| n in init &&
        (q == MoveQ(p, snapshot, vehicle, city, n) || (Fits(p, vehicle, city, n) && q == PickupQ(p, snapshot, vehicle, city, n)));
      assert n in ns;
    } else {
      assert q in NeighborQValues(p, snapshot, vehicle, city, last);
      assert last in ns;
    }
  }

  /** Storing one neighbour writes its Move key and, when the task fits, its Pickup key, and nothing else. */
  lemma StoreNeighborAt(q: map<QKey, real>, p: Problem, snapshot: map<CityId, real>, vehicle: Vehicle,
                        city: CityId, neighbor: CityId, k: QKey)
    ensures k in StoreNeighbor(q, p, snapshot, vehicle, city, neighbor) <==> k in q || CityWrites(p, vehicle, city, [neighbor], k)
    ensures CityWrites(p, vehicle, city, [neighbor], k) ==>
      StoreNeighbor(q, p, snapshot, vehicle, city, neighbor)[k] == EntryValue(p, snapshot, vehicle, k)
    ensures k in q && !CityWrites(p, vehicle, city, [neighbor], k) ==> StoreNeighbor(q, p, snapshot, vehicle, city, neighbor)[k] == q[k]
  {
    assert k.neighbor in [neighbor] <==> k.neighbor == neighbor;
  }

  /**
   * Storing the entries for one city writes exactly the Move key of every
   * neighbour and the Pickup key of every neighbour whose task fits, with
   * their Q-values, and leaves every other entry of the table as it was.
   */
  lemma {:induction false} StoreCityAt(q: map<QKey, real>, p: Problem, snapshot: map<CityId, real>, vehicle: Vehicle,
                                       city: CityId, ns: seq<CityId>, k: QKey)
    ensures k in StoreCity(q, p, snapshot, vehicle, city, ns) <==> k in q || CityWrites(p, vehicle, city, ns, k)
    ensures CityWrites(p, vehicle, city, ns, k) ==>
      StoreCity(q, p, snapshot, vehicle, city, ns)[k] == EntryValue(p, snapshot, vehicle, k)
    ensures k in q && !CityWrites(p, vehicle, city, ns, k) ==> StoreCity(q, p, snapshot, vehicle, city, ns)[k] == q[k]
  {
    if ns != [] {
      var init, last := ns[..|ns| - 1], ns[|ns| - 1];
      StoreCityAt(q, p, snapshot, vehicle, city, init, k);
      StoreNeighborAt(StoreCity(q, p, snapshot, vehicle, city, init), p, snapshot, vehicle, city, last, k);
      assert ns == init + [last];
      assert k.neighbor in ns <==> k.neighbor in init || k.neighbor in [last];
    }
  }

  /**
   * After storing the cities before `i`, the table holds exactly the old keys
   * and the swept keys of those cities; every swept key holds its Q-value and
   * every other key its old value.
   */
  lemma {:induction false} StoreSweepAt(q: map<QKey, real>, p: Problem, snapshot: map<CityId, real>, i: nat, k: QKey)
    requires SweepDefined(p) && i <= |p.topology.neighbors|
    ensures k in StoreSweep(q, p, snapshot, i) <==> k in q || (k.city < i && Swept(p, k))
    ensures k.city < i && Swept(p, k) ==>
      CityDefined(p, k.city) && StoreSweep(q, p, snapshot, i)[k] == QValueOf(p, snapshot, k)
    ensures k in q && !(k.city < i && Swept(p, k)) ==> StoreSweep(q, p, snapshot, i)[k] == q[k]
  {
    if i > 0 {
      var c := i - 1;
      StoreSweepAt(q, p, snapshot, c, k);
      assert CityDefined(p, c);
      var vehicle := HomeVehicle(p, c).value;
      StoreCityAt(StoreSweep(q, p, snapshot, c), p, snapshot, vehicle, c, p.topology.neighbors[c], k);
      assert CityWrites(p, vehicle, c, p.topology.neighbors[c], k) <==> k.city == c && Swept(p, k);
      if k.city < i && Swept(p, k) {
        assert CityDefined(p, k.city);
      }
    }
  }

  /**
   * Storing the first `i` values adds exactly the cities before `i` to the
   * V-table; each of them holds its value and every other city its old one.
   */
  lemma {:induction false} StoreValuesAt(v: map<CityId, real>, values: seq<real>, i: nat, c: CityId)
    requires i <= |values|
    ensures c in StoreValues(v, values, i) <==> c in v || c < i
    ensures c < i ==> StoreValues(v, values, i)[c] == values[c]
    ensures c in v && c >= i ==> StoreValues(v, values, i)[c] == v[c]
  {
    if i > 0 {
      StoreValuesAt(v, values, i - 1, c);
    }
  }

  /** After a whole sweep, every Q-value stored for a city is at most the city's new V-value. */
  lemma SweptEntryAtMostValue(q: map<QKey, real>, v: map<CityId, real>, p: Problem, snapshot: map<CityId, real>, k: QKey)
    requires SweepDefined(p) && Swept(p, k)
    ensures k in StoreSweep(q, p, snapshot, |p.topology.neighbors|)
    ensures k.city in StoreValues(v, CityValues(p, snapshot), |p.topology.neighbors|)
    ensures StoreSweep(q, p, snapshot, |p.topology.neighbors|)[k] <=
            StoreValues(v, CityValues(p, snapshot), |p.topology.neighbors|)[k.city]
  {
    StoreSweepAt(q, p, snapshot, |p.topology.neighbors|, k);
    StoreValuesAt(v, CityValues(p, snapshot), |p.topology.neighbors|, k.city);
    CityValuesAt(p, snapshot, k.city);
    CityValueIsBestQ(p, snapshot, k.city);
  }

  /** After a whole sweep, every city's new V-value is one of the Q-values stored for it. */
  lemma CityValueIsSweptEntry(q: map<QKey, real>, v: map<CityId, real>, p: Problem, snapshot: map<CityId, real>, c: CityId)
    requires SweepDefined(p) && c < |p.topology.neighbors|
    ensures c in StoreValues(v, CityValues(p, snapshot), |p.topology.neighbors|)
    ensures exists k :: (Swept(p, k) && k.city == c && k in StoreSweep(q, p, snapshot, |p.topology.neighbors|) &&
                         StoreSweep(q, p, snapshot, |p.topology.neighbors|)[k] ==
                         StoreValues(v, CityValues(p, snapshot), |p.topology.neighbors|)[c])
  {
    var n := |p.topology.neighbors|;
    StoreValuesAt(v, CityValues(p, snapshot), n, c);
    CityValuesAt(p, snapshot, c);
    assert CityDefined(p, c);
    var vehicle := HomeVehicle(p, c).value;
    CityValueIsBestQ(p, snapshot, c);
    var m :| m in p.topology.neighbors[c] &&
      (CityValue(p, snapshot, c) == MoveQ(p, snapshot, vehicle, c, m) ||
       (PickupAllowed(p, c, m) && CityValue(p, snapshot, c) == PickupQ(p, snapshot, vehicle, c, m)));
    var k := if CityValue(p, snapshot, c) == MoveQ(p, snapshot, vehicle, c, m) then QKey(c, m, MoveKind) else QKey(c, m, PickupKind);
    assert Swept(p, k);
    StoreSweepAt(q, p, snapshot, n, k);
  }

  /**
   * The new V-value of a city is at least every Move value and every allowed
   * Pickup value computed for it, and is one of them.
   */
  lemma CityValueIsBestQ(p: Problem, snapshot: map<CityId, real>, city: CityId)
    requires CityDefined(p, city)
    ensures forall n :: n in p.topology.neighbors[city] ==>
      MoveQ(p, snapshot, HomeVehicle(p, city).value, city, n) <= CityValue(p, snapshot, city) &&
      (PickupAllowed(p, city, n) ==> PickupQ(p, snapshot, HomeVehicle(p, city).value, city, n) <= CityValue(p, snapshot, city))
    ensures exists n :: (n in p.topology.neighbors[city] &&
                         (CityValue(p, snapshot, city) == MoveQ(p, snapshot, HomeVehicle(p, city).value, city, n) ||
                          (PickupAllowed(p, city, n) &&
                           CityValue(p, snapshot, city) == PickupQ(p, snapshot, HomeVehicle(p, city).value, city, n))))
  {
    var ns, vehicle := p.topology.neighbors[city], HomeVehicle(p, city).value;
    MaxOfIsMaximum(QValues(p, snapshot, vehicle, city, ns));
    forall n | n in ns
      ensures MoveQ(p, snapshot, vehicle, city, n) <= CityValue(p, snapshot, city)
      ensures Fits(p, vehicle, city, n) ==> PickupQ(p, snapshot, vehicle, city, n) <= CityValue(p, snapshot, city)
    {
      CandidatesInQValues(p, snapshot, vehicle, city, ns, n);
    }
    QValuesAreCandidates(p, snapshot, vehicle, city, ns, CityValue(p, snapshot, city));
  }

  /** The Q-values of a city read the snapshot only at its neighbours. */
  lemma {:induction false} QValuesLocal(p: Problem, s1: map<CityId, real>, s2: map<CityId, real>, vehicle: Vehicle,
                                        city: CityId, ns: seq<CityId>)
    requires forall n :: n in ns ==> Lookup(s1, n) == Lookup(s2, n)
    ensures QValues(p, s1, vehicle, city, ns) == QValues(p, s2, vehicle, city, ns)
  {
    if ns != [] {
      var n := ns[|ns| - 1];
      QValuesLocal(p, s1, s2, vehicle, city, ns[..|ns| - 1]);
      assert n in ns;
      assert DiscountedValue(p, s1, city, n) == DiscountedValue(p, s2, city, n);
    }
  }

  /**
   * A city's new value depends on the snapshot only through the snapshot's
   * entries for the city's neighbours, absent entries reading as 0.
   */
  lemma CityValueLocal(p: Problem, s1: map<CityId, real>, s2: map<CityId, real>, city: CityId)
    requires CityDefined(p, city)
    requires forall n :: n in p.topology.neighbors[city] ==> Lookup(s1, n) == Lookup(s2, n)
    ensures CityValue(p, s1, city) == CityValue(p, s2, city)
  {
    QValuesLocal(p, s1, s2, HomeVehicle(p, city).value, city, p.topology.neighbors[city]);
  }

  /** `b` is at least `a` position by position. */
  predicate Dominates(a: seq<real>, b: seq<real>)
  {
    |a| == |b| && forall i :: 0 <= i < |a| ==> a[i] <= b[i]
  }

  /** Position-by-position domination survives appending. */
  lemma AppendDominates(a1: seq<real>, a2: seq<real>, b1: seq<real>, b2: seq<real>)
    requires Dominates(a1, a2) && Dominates(b1, b2)
    ensures Dominates(a1 + b1, a2 + b2)
  {
    forall i | 0 <= i < |a1 + b1|
      ensures (a1 + b1)[i] <= (a2 + b2)[i]
    {
      if i >= |a1| {
        assert (a1 + b1)[i] == b1[i - |a1|] && (a2 + b2)[i] == b2[i - |a1|];
      }
    }
  }

  /** A larger snapshot value at the neighbour gives a discounted value at least as large. */
  lemma DiscountedValueMonotone(p: Problem, s1: map<CityId, real>, s2: map<CityId, real>, city: CityId, n: CityId)
    requires p.discount >= 0.0 && p.td.probability(city, n) >= 0.0 && Lookup(s1, n) <= Lookup(s2, n)
    ensures DiscountedValue(p, s1, city, n) <= DiscountedValue(p, s2, city, n)
  {
    var f := p.discount * p.td.probability(city, n);
    assert f >= 0.0;
    assert f * Lookup(s1, n) <= f * Lookup(s2, n);
  }

  /** Larger snapshot values give Q-values at least as large, position by position. */
  lemma {:induction false} QValuesMonotone(p: Problem, s1: map<CityId, real>, s2: map<CityId, real>, vehicle: Vehicle,
                                           city: CityId, ns: seq<CityId>)
    requires p.discount >= 0.0
    requires forall n :: n in ns ==> p.td.probability(city, n) >= 0.0 && Lookup(s1, n) <= Lookup(s2, n)
    ensures Dominates(QValues(p, s1, vehicle, city, ns), QValues(p, s2, vehicle, city, ns))
  {
    if ns != [] {
      var init, n := ns[..|ns| - 1], ns[|ns| - 1];
      assert n in ns;
      assert forall m :: m in init ==> m in ns;
      QValuesMonotone(p, s1, s2, vehicle, city, init);
      DiscountedValueMonotone(p, s1, s2, city, n);
      AppendDominates(QValues(p, s1, vehicle, city, init), QValues(p, s2, vehicle, city, init),
                      NeighborQValues(p, s1, vehicle, city, n), NeighborQValues(p, s2, vehicle, city, n));
    }
  }

  /** The maximum of a list is no larger than that of a list that dominates it position by position. */
  lemma {:induction false} MaxOfMonotone(a: seq<real>, b: seq<real>)
    requires |a| > 0 && Dominates(a, b)
    ensures MaxOf(a) <= MaxOf(b)
  {
    MaxOfIsMaximum(a);
    MaxOfIsMaximum(b);
    var i :| 0 <= i < |a| && a[i] == MaxOf(a);
    assert b[i] in b;
  }

  /**
   * With a non-negative discount and non-negative probabilities, the sweep is
   * monotone in the snapshot: larger old values never give a smaller new value.
   */
  lemma CityValueMonotone(p: Problem, s1: map<CityId, real>, s2: map<CityId, real>, city: CityId)
    requires CityDefined(p, city)
    requires p.discount >= 0.0
    requires forall n :: n in p.topology.neighbors[city] ==> p.td.probability(city, n) >= 0.0 && Lookup(s1, n) <= Lookup(s2, n)
    ensures CityValue(p, s1, city) <= CityValue(p, s2, city)
  {
    var ns, vehicle := p.topology.neighbors[city], HomeVehicle(p, city).value;
    QValuesMonotone(p, s1, s2, vehicle, city, ns);
    MaxOfMonotone(QValues(p, s1, vehicle, city, ns), QValues(p, s2, vehicle, city, ns));
  }

  // ---------------------------------------------------------------------------
  // The agent's state

  class ReactiveTemplate {
    var pPickup: real
    var numActions: int32
    var qTable: map<QKey, real>
    var vTable: map<CityId, real>
    var id: int32

    /** The field initialisers: empty tables, id 0. */
    constructor ()
      ensures pPickup == 0.0 && numActions == 0 && id == 0
      ensures qTable == map[] && vTable == map[]
    {
      pPickup, numActions, id := 0.0, 0, 0;
      qTable, vTable := map[], map[];
    }

    /** setup: the pickup probability is set to the discount factor read from the configuration. */
    method Setup(discount: real)
      modifies this`pPickup, this`numActions
      ensures pPickup == discount && numActions == 0
    {
      pPickup := discount;
      numActions := 0;
    }

    /** act: `draw` is the random double and `randomNeighbor` the random neighbour of the current city. */
    method Act(availableTask: Option<Task>, draw: real, randomNeighbor: CityId) returns (action: Action)
      modifies this`numActions
      ensures action == ChooseAction(availableTask, draw, pPickup, randomNeighbor)
      ensures numActions == AddInt32(old(numActions), 1)
    {
      if availableTask.None? || draw > pPickup {
        action := Move(randomNeighbor);
      } else {
        action := Pickup(availableTask.value);
      }
      numActions := AddInt32(numActions, 1);
    }

    /**
     * Hands out the next task id: from 0, the ids 1, 2, 3, ... up to 2^31 - 1,
     * after which Java's int wraps around to -2^31.
     */
    method GetNewId() returns (newId: int32)
      modifies this`id
      ensures id == AddInt32(old(id), 1)
      ensures old(id) < 0x7fff_ffff ==> id as int == old(id) as int + 1
      ensures newId == id
    {
      id := AddInt32(id, 1);
      newId := id;
    }


    /**
     * One pass of the body of learn's endless loop. Every Q-value reads the
     * V-table as it was when the sweep began (`old(vTable)`), never a value
     * stored earlier in the same sweep.
     */
    method LearnSweep(topology: Topology, td: TaskDistribution, vehicles: seq<Vehicle>, discount: real)
      requires SweepDefined(Problem(topology, td, vehicles, discount))
      modifies this`qTable, this`vTable, this`id
      ensures qTable == StoreSweep(old(qTable), Problem(topology, td, vehicles, discount), old(vTable), |topology.neighbors|)
      ensures vTable == StoreValues(old(vTable), CityValues(Problem(topology, td, vehicles, discount), old(vTable)), |topology.neighbors|)
      ensures id == AddInt32(old(id), PickupsBefore(Problem(topology, td, vehicles, discount), |topology.neighbors|))
    {
      ghost var p := Problem(topology, td, vehicles, discount);
      var currentVTable := vTable;
      var i := 0;
      while i < |topology.neighbors|
        invariant 0 <= i <= |topology.neighbors|
        invariant qTable == StoreSweep(old(qTable), p, currentVTable, i)
        invariant vTable == StoreValues(old(vTable), CityValues(p, currentVTable), i)
        invariant id == AddInt32(old(id), PickupsBefore(p, i))
      {
        NextCity(old(qTable), old(vTable), p, currentVTable, i);
        ghost var idBefore := id;
        LearnCity(topology, td, vehicles, discount, currentVTable, i);
        SweepIdStep(p, i, old(id), idBefore, id);
        i := i + 1;
      }
    }

    /**
     * The body of the sweep for one city: look up the vehicle homed there, run
     * the inner loop over the neighbours, and store the best Q-value found as
     * the city's new V-value.
     */
    method LearnCity(topology: Topology, td: TaskDistribution, vehicles: seq<Vehicle>, discount: real,
                     currentVTable: map<CityId, real>, city: CityId)
      requires CityDefined(Problem(topology, td, vehicles, discount), city)
      modifies this`qTable, this`vTable, this`id
      ensures var p := Problem(topology, td, vehicles, discount);
        qTable == StoreCity(old(qTable), p, currentVTable, HomeVehicle(p, city).value, city, topology.neighbors[city])
      ensures var p := Problem(topology, td, vehicles, discount);
        vTable == old(vTable)[city := MaxOf(QValues(p, currentVTable, HomeVehicle(p, city).value, city, topology.neighbors[city]))]
      ensures var p := Problem(topology, td, vehicles, discount);
        id == AddInt32(old(id), PickupCount(p, HomeVehicle(p, city).value, city, topology.neighbors[city]))
    {
      var vehicle := VehicleByCity(vehicles, city);
      var qValues := SweepCity(topology, td, vehicles, discount, currentVTable, city, vehicle.value);
      vTable := vTable[city := MaxOf(qValues)];
    }

    /**
     * The inner loop of the sweep for one city and the vehicle homed there:
     * stores a Move entry for every neighbour and a Pickup entry for every
     * neighbour whose task the vehicle can carry, hands out one task id per
     * Pickup entry, and returns the Q-values in the order computed.
     */
    method SweepCity(topology: Topology, td: TaskDistribution, ghost vehicles: seq<Vehicle>, discount: real,
                     currentVTable: map<CityId, real>, city: CityId, vehicle: Vehicle)
      returns (qValues: seq<real>)
      requires city < |topology.neighbors|
      modifies this`qTable, this`id
      ensures var p := Problem(topology, td, vehicles, discount);
        qValues == QValues(p, currentVTable, vehicle, city, topology.neighbors[city])
      ensures var p := Problem(topology, td, vehicles, discount);
        qTable == StoreCity(old(qTable), p, currentVTable, vehicle, city, topology.neighbors[city])
      ensures id == AddInt32(old(id), PickupCount(Problem(topology, td, vehicles, discount), vehicle, city, topology.neighbors[city]))
    {
      ghost var p := Problem(topology, td, vehicles, discount);
      var neighbors := topology.neighbors[city];
      qValues := [];
      var j := 0;
      while j < |neighbors|
        invariant 0 <= j <= |neighbors|
        invariant qValues == QValues(p, currentVTable, vehicle, city, neighbors[..j])
        invariant qTable == StoreCity(old(qTable), p, currentVTable, vehicle, city, neighbors[..j])
        invariant id == AddInt32(old(id), PickupCount(p, vehicle, city, neighbors[..j]))
      {
        NextNeighbor(p, currentVTable, vehicle, city, neighbors, j);
        ghost var idBefore := id;
        var computed := SweepNeighbor(topology, td, vehicles, discount, currentVTable, city, vehicle, neighbors[j]);
        NeighborIdStep(p, vehicle, city, neighbors, j, old(id), idBefore, id);
        qValues := qValues + computed;
        j := j + 1;
      }
      assert neighbors[..j] == neighbors;
    }

    /**
     * One pass of the inner loop of the sweep: the Q-values for moving to
     * `neighbor` and, when the task's weight is below the vehicle's capacity,
     * for taking that task there, both stored in the Q-table.
     */
    method SweepNeighbor(topology: Topology, td: TaskDistribution, ghost vehicles: seq<Vehicle>, discount: real,
                         currentVTable: map<CityId, real>, city: CityId, vehicle: Vehicle, neighbor: CityId)
      returns (computed: seq<real>)
      modifies this`qTable, this`id
      ensures computed == NeighborQValues(Problem(topology, td, vehicles, discount), currentVTable, vehicle, city, neighbor)
      ensures qTable == StoreNeighbor(old(qTable), Problem(topology, td, vehicles, discount), currentVTable, vehicle, city, neighbor)
      ensures id == AddInt32(old(id), if Fits(Problem(topology, td, vehicles, discount), vehicle, city, neighbor) then 1 else 0)
    {
      ghost var p := Problem(topology, td, vehicles, discount);
      var probability := td.probability(city, neighbor);
      var reward := td.reward(city, neighbor);
      var weight := td.weight(city, neighbor);
      var discountedValue := discount * probability * Lookup(currentVTable, neighbor);
      assert discountedValue == DiscountedValue(p, currentVTable, city, neighbor);
      computed := [];

      if weight < vehicle.capacity {
        var taskId := GetNewId();
        var task := Task(taskId as int, city, neighbor, reward, weight);
        var pickupQValue := ComputeReward(vehicle, Some(task), topology, city, neighbor) + discountedValue;
        assert pickupQValue == PickupQ(p, currentVTable, vehicle, city, neighbor);
        qTable := qTable[QKey(city, neighbor, PickupKind) := pickupQValue];
        computed := computed + [pickupQValue];
      }

      var moveQValue := ComputeReward(vehicle, None, topology, city, neighbor) + discountedValue;
      assert moveQValue == MoveQ(p, currentVTable, vehicle, city, neighbor);
      qTable := qTable[QKey(city, neighbor, MoveKind) := moveQValue];
      computed := computed + [moveQValue];
    }
  }
}
