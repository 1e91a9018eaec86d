/** The intersection micro-simulation: eight vehicles on two crossing roads, each
    driving straight through an unsignalled junction, yielding by a fixed priority
    of headings, and replaced by a fresh vehicle once it has left the arena. */
module IntersectionSimulation {
  import opened Randomness

  datatype Option<T> = None | Some(value: T)

  /** The heading a vehicle keeps for its whole life. */
  datatype Direction = North | South | East | West

  /** One vehicle. `id` and `color` only matter to the renderer. */
  datatype Vehicle = Vehicle(
    id: real,
    x: real,
    y: real,
    direction: Direction,
    speed: real,
    waiting: bool,
    color: string)

  /** The four draws spawning a vehicle takes from the random source, in the
      order it takes them: heading, id, speed, color. */
  datatype SpawnDraws = SpawnDraws(dir: real, id: real, speed: real, color: real)

  /** What the once-a-second report shows: retirements in the window
      (`throughput`) and the vehicles waiting when it closes (`avgWait`). */
  datatype Stats = Stats(throughput: nat, avgWait: nat)

  const Population: nat := 8
  const RoadWidth: real := 60.0
  const LaneWidth: real := RoadWidth / 2.0
  /** Vehicles appear this far beyond the edge they enter from. */
  const EntryOffset: real := 20.0
  /** Vehicles are retired once this far beyond any edge. */
  const ExitMargin: real := 30.0
  /** The conflict zone reaches this far past the crossing on every side. */
  const ZoneMargin: real := 30.0
  const ProximityRadius: real := 40.0
  const MinSpeed: real := 2.0
  const SpeedSpread: real := 1.5
  const StatsWindowMs: int := 1000

  const Directions: seq<Direction> := [North, South, East, West]
  const Colors: seq<string> := ["#00d4ff", "#22c55e", "#f59e0b", "#8b5cf6"]

  predicate ValidDraws(d: SpawnDraws) {
    IsRandom(d.dir) && IsRandom(d.id) && IsRandom(d.speed) && IsRandom(d.color)
  }

  predicate AllValidDraws(ds: seq<SpawnDraws>) {
    forall k :: 0 <= k < |ds| ==> ValidDraws(ds[k])
  }

  function Center(size: real): real {
    size / 2.0
  }

  // ---------------------------------------------------------------------------
  // Geometry of a route

  /** The unit vector of a heading; screen y grows downwards. */
  function Heading(d: Direction): (real, real) {
    match d
    case North => (0.0, -1.0)
    case South => (0.0, 1.0)
    case East => (1.0, 0.0)
    case West => (-1.0, 0.0)
  }

  /** How far a vehicle has come along its route, measured from the edge
      of the arena it enters by. */
  function Progress(v: Vehicle, size: real): real {
    match v.direction
    case North => size - v.y
    case South => v.y
    case East => v.x
    case West => size - v.x
  }

  /** The vehicle drives in the right-hand lane of its road: half a lane
      off the road's center line, on the side its heading puts on its right. */
  predicate OnLane(v: Vehicle, size: real) {
    match v.direction
    case North => v.x == Center(size) + LaneWidth / 2.0
    case South => v.x == Center(size) - LaneWidth / 2.0
    case East => v.y == Center(size) + LaneWidth / 2.0
    case West => v.y == Center(size) - LaneWidth / 2.0
  }

  predicate SpeedInRange(v: Vehicle) {
    MinSpeed <= v.speed < MinSpeed + SpeedSpread
  }

  /** Beyond the arena by more than the margin on some side. */
  predicate OutOfBounds(v: Vehicle, size: real) {
    v.x < -ExitMargin || v.x > size + ExitMargin || v.y < -ExitMargin || v.y > size + ExitMargin
  }

  /** What holds of every vehicle between two passes: on its lane, with a
      spawn-range speed, between its entry point and its exit line. */
  predicate WellFormed(v: Vehicle, size: real) {
    OnLane(v, size) && SpeedInRange(v) && -EntryOffset <= Progress(v, size) <= size + ExitMargin
  }

  predicate AllWellFormed(vs: seq<Vehicle>, size: real) {
    forall k :: 0 <= k < |vs| ==> WellFormed(vs[k], size)
  }

  /** A vehicle on its lane that has not gone backwards past its entry point
      leaves the arena only forwards, across the far edge of its route. */
  lemma ExitsOnlyForward(v: Vehicle, size: real)
    requires size >= 0.0 && OnLane(v, size) && Progress(v, size) >= -EntryOffset
    ensures OutOfBounds(v, size) <==> Progress(v, size) > size + ExitMargin
  {
  }

  /** Every well-formed vehicle lies within [-30, size + 30] on both axes. */
  lemma WellFormedInBounds(v: Vehicle, size: real)
    requires size >= 0.0 && WellFormed(v, size)
    ensures -ExitMargin <= v.x <= size + ExitMargin && -ExitMargin <= v.y <= size + ExitMargin
  {
    ExitsOnlyForward(v, size);
  }

  // ---------------------------------------------------------------------------
  // Spawning

  /** A new vehicle at the entry point of a randomly chosen heading. */
  function Spawn(size: real, d: SpawnDraws): (v: Vehicle)
    requires ValidDraws(d)
    ensures v.direction == Directions[PickIndex(d.dir, |Directions|)]
    ensures !v.waiting && SpeedInRange(v) && v.color in Colors && v.id == d.id
    ensures OnLane(v, size) && Progress(v, size) == -EntryOffset
    ensures size >= 0.0 ==> WellFormed(v, size)
  {
    var dir := Directions[PickIndex(d.dir, |Directions|)];
    var center := Center(size);
    var (x, y) :=
      match dir
      case North => (center + LaneWidth / 2.0, size + EntryOffset)
      case South => (center - LaneWidth / 2.0, -EntryOffset)
      case East => (-EntryOffset, center + LaneWidth / 2.0)
      case West => (size + EntryOffset, center - LaneWidth / 2.0);
    Vehicle(d.id, x, y, dir, MinSpeed + d.speed * SpeedSpread, false,
            Colors[PickIndex(d.color, |Colors|)])
  }

  /** The population the simulation starts from: one spawn per draw. */
  function Initial(size: real, draws: seq<SpawnDraws>): (vs: seq<Vehicle>)
    requires AllValidDraws(draws)
    ensures |vs| == |draws|
    ensures forall k :: 0 <= k < |vs| ==> !vs[k].waiting && Progress(vs[k], size) == -EntryOffset
    ensures size >= 0.0 ==> AllWellFormed(vs, size)
  {
    seq(|draws|, k requires 0 <= k < |draws| => Spawn(size, draws[k]))
  }

  // ---------------------------------------------------------------------------
  // Conflicts

  /** Right of way: a lower number goes first. Northbound traffic is the only
      heading that never gives way and westbound the only one that always does. */
  function Priority(d: Direction): (p: nat)
    ensures 1 <= p <= |Directions|
    ensures p == 1 <==> d == North
    ensures p == |Directions| <==> d == West
  {
    match d
    case North => 1
    case East => 2
    case South => 3
    case West => 4
  }

  /** Strictly inside the crossing enlarged by the zone margin on every side. */
  predicate InZone(v: Vehicle, size: real) {
    var lo := Center(size) - RoadWidth / 2.0 - ZoneMargin;
    var hi := Center(size) + RoadWidth / 2.0 + ZoneMargin;
    lo < v.x < hi && lo < v.y < hi
  }

  /** The square of the distance between two vehicles; comparing it with the
      squared radius stands for comparing the distance with the radius. */
  function DistanceSquared(v: Vehicle, other: Vehicle): real {
    var dx := other.x - v.x;
    var dy := other.y - v.y;
    dx * dx + dy * dy
  }

  /** `v` must give way to `other`: `other` is closer than the proximity radius
      without sharing v's position, lies in the zone, and has the stronger
      heading. */
  function Yields(v: Vehicle, other: Vehicle, size: real): (r: bool)
    ensures r ==> v.direction != North && other.direction != West && v.direction != other.direction
    ensures r ==> (v.x, v.y) != (other.x, other.y)
  {
    0.0 < DistanceSquared(v, other) < ProximityRadius * ProximityRadius
    && InZone(other, size)
    && Priority(v.direction) > Priority(other.direction)
  }

  /** Vehicle `i` of `vs` must wait: it gives way to some other vehicle of `vs`. */
  function ShouldWait(vs: seq<Vehicle>, i: nat, size: real): (r: bool)
    requires i < |vs|
    ensures r ==> |vs| >= 2 && vs[i].direction != North
  {
    exists j :: 0 <= j < |vs| && j != i && Yields(vs[i], vs[j], size)
  }

  /** Giving way is never mutual. */
  lemma YieldingIsAsymmetric(a: Vehicle, b: Vehicle, size: real)
    ensures Yields(a, b, size) ==> !Yields(b, a, size)
  {
  }

  /** Vehicles with the same heading never hold each other up. */
  lemma SameHeadingNeverYields(a: Vehicle, b: Vehicle, size: real)
    requires a.direction == b.direction
    ensures !Yields(a, b, size)
  {
  }

  /** A northbound vehicle never waits. */
  lemma NorthboundNeverWaits(vs: seq<Vehicle>, i: nat, size: real)
    requires i < |vs| && vs[i].direction == North
    ensures !ShouldWait(vs, i, size)
  {
  }

  /** A westbound vehicle waits as soon as any vehicle of another heading is
      close to it and in the zone. */
  lemma WestboundYieldsToAll(vs: seq<Vehicle>, i: nat, j: nat, size: real)
    requires i < |vs| && j < |vs| && i != j
    requires vs[i].direction == West && vs[j].direction != West
    requires InZone(vs[j], size)
    requires 0.0 < DistanceSquared(vs[i], vs[j]) < ProximityRadius * ProximityRadius
    ensures ShouldWait(vs, i, size)
  {
    var d := vs[j].direction;
    assert Priority(d) < Priority(West) by {
      match d
      case North =>
      case East =>
      case South =>
    }
    assert Yields(vs[i], vs[j], size);
  }

  // ---------------------------------------------------------------------------
  // Motion

  /** The vehicle with its waiting flag set, advanced by its speed along its
      heading unless it waits. */
  function Move(v: Vehicle, wait: bool): (m: Vehicle)
    ensures m.waiting == wait
    ensures m.id == v.id && m.direction == v.direction && m.speed == v.speed && m.color == v.color
    ensures var step := if wait then 0.0 else v.speed;
            m.x == v.x + step * Heading(v.direction).0 && m.y == v.y + step * Heading(v.direction).1
    ensures forall size :: OnLane(m, size) == OnLane(v, size)
    ensures forall size :: Progress(m, size) == Progress(v, size) + (if wait then 0.0 else v.speed)
  {
    var speed := if wait then 0.0 else v.speed;
    var v := v.(waiting := wait);
    match v.direction
    case North => v.(y := v.y - speed)
    case South => v.(y := v.y + speed)
    case East => v.(x := v.x + speed)
    case West => v.(x := v.x - speed)
  }

  /** Vehicle `i` after its conflict scan against `vs` and its move. */
  function Advanced(vs: seq<Vehicle>, i: nat, size: real): (a: Vehicle)
    requires i < |vs|
    ensures a.id == vs[i].id && a.direction == vs[i].direction && a.speed == vs[i].speed
    ensures a.waiting ==> a.x == vs[i].x && a.y == vs[i].y
    ensures vs[i].direction == North ==> !a.waiting
    ensures OnLane(a, size) == OnLane(vs[i], size)
    ensures Progress(a, size) == Progress(vs[i], size) + (if a.waiting then 0.0 else vs[i].speed)
  {
    Move(vs[i], ShouldWait(vs, i, size))
  }

  // ---------------------------------------------------------------------------
  // One pass over the population

  /** The population part-way through a pass, and how many vehicles the pass
      has retired so far (which is also how many spawn draws it has used). */
  datatype Progressed = Progressed(vehicles: seq<Vehicle>, retired: nat)

  /** Handle slot `i`: scan, move, and replace the vehicle by the next spawn if
      it has left the arena. */
  function Step(p: Progressed, i: nat, size: real, draws: seq<SpawnDraws>): (q: Progressed)
    requires i < |p.vehicles| && p.retired < |draws| && AllValidDraws(draws)
    ensures |q.vehicles| == |p.vehicles|
    ensures forall j :: 0 <= j < |p.vehicles| && j != i ==> q.vehicles[j] == p.vehicles[j]
    ensures q.retired == p.retired + (if OutOfBounds(Advanced(p.vehicles, i, size), size) then 1 else 0)
  {
    var v := Advanced(p.vehicles, i, size);
    if OutOfBounds(v, size) then
      Progressed(p.vehicles[i := Spawn(size, draws[p.retired])], p.retired + 1)
    else
      Progressed(p.vehicles[i := v], p.retired)
  }

  /** The state after the first `k` slots of a pass over `vs` have been
      handled, in slot order: slot `k` is scanned against the already updated
      slots below it and the not yet updated slots from it on. */
  function PassPrefix(vs: seq<Vehicle>, k: nat, size: real, draws: seq<SpawnDraws>): (p: Progressed)
    requires k <= |vs| <= |draws| && AllValidDraws(draws)
    ensures |p.vehicles| == |vs| && p.retired <= k
    decreases k
  {
    if k == 0 then Progressed(vs, 0)
    else Step(PassPrefix(vs, k - 1, size, draws), k - 1, size, draws)
  }

  /** A whole pass: every slot handled once. */
  function Pass(vs: seq<Vehicle>, size: real, draws: seq<SpawnDraws>): (r: Progressed)
    requires |vs| <= |draws| && AllValidDraws(draws)
    ensures |r.vehicles| == |vs| && r.retired <= |vs|
  {
    PassPrefix(vs, |vs|, size, draws)
  }

  /** Slot `i` retires during the pass: after its move it is out of bounds. */
  predicate RetiresAt(vs: seq<Vehicle>, i: nat, size: real, draws: seq<SpawnDraws>)
    requires i < |vs| <= |draws| && AllValidDraws(draws)
  {
    OutOfBounds(Advanced(PassPrefix(vs, i, size, draws).vehicles, i, size), size)
  }

  /** Slots not yet reached still hold their vehicles from before the pass. */
  lemma {:induction false} NotYetReached(vs: seq<Vehicle>, k: nat, j: nat, size: real, draws: seq<SpawnDraws>)
    requires k <= j < |vs| <= |draws| && AllValidDraws(draws)
    ensures PassPrefix(vs, k, size, draws).vehicles[j] == vs[j]
    decreases k
  {
    if k > 0 {
      NotYetReached(vs, k - 1, j, size, draws);
    }
  }

  /** A slot, once handled, is not touched again by the rest of the pass. */
  lemma {:induction false} StaysSettled(vs: seq<Vehicle>, k: nat, m: nat, j: nat, size: real, draws: seq<SpawnDraws>)
    requires j < k <= m <= |vs| <= |draws| && AllValidDraws(draws)
    ensures PassPrefix(vs, m, size, draws).vehicles[j] == PassPrefix(vs, k, size, draws).vehicles[j]
    decreases m
  {
    if m > k {
      StaysSettled(vs, k, m - 1, j, size, draws);
    }
  }

  /** What a pass does to slot `i`. The vehicle is scanned against `mid`: the
      final vehicles in the slots below `i`, the original ones from `i` on.
      It keeps its flag and move if it stays in bounds, and otherwise its slot
      holds the spawn made from the next unused draw. */
  lemma PassOutcomeAt(vs: seq<Vehicle>, i: nat, size: real, draws: seq<SpawnDraws>)
    requires i < |vs| <= |draws| && AllValidDraws(draws)
    ensures var r := Pass(vs, size, draws).vehicles;
            var mid := r[..i] + vs[i..];
            var adv := Move(vs[i], ShouldWait(mid, i, size));
            && PassPrefix(vs, i, size, draws).vehicles == mid
            && r[i] == (if OutOfBounds(adv, size)
                        then Spawn(size, draws[PassPrefix(vs, i, size, draws).retired])
                        else adv)
  {
    var r := Pass(vs, size, draws).vehicles;
    var p := PassPrefix(vs, i, size, draws);
    var mid := r[..i] + vs[i..];
    forall j | 0 <= j < |vs|
      ensures p.vehicles[j] == mid[j]
    {
      if j < i {
        StaysSettled(vs, i, |vs|, j, size, draws);
      } else {
        NotYetReached(vs, i, j, size, draws);
      }
    }
    assert p.vehicles == mid;
    NotYetReached(vs, i, i, size, draws);
    StaysSettled(vs, i + 1, |vs|, i, size, draws);
    assert r[i] == Step(p, i, size, draws).vehicles[i];
    assert Advanced(p.vehicles, i, size) == Move(vs[i], ShouldWait(mid, i, size));
  }

  /** A vehicle ends the pass waiting exactly when, at its turn, it had to
      give way to some other vehicle (in the state the pass had reached). */
  lemma WaitingIffYieldedAtItsTurn(vs: seq<Vehicle>, i: nat, size: real, draws: seq<SpawnDraws>)
    requires i < |vs| <= |draws| && AllValidDraws(draws)
    requires size >= 0.0 && AllWellFormed(vs, size)
    ensures var r := Pass(vs, size, draws).vehicles;
            r[i].waiting <==> ShouldWait(r[..i] + vs[i..], i, size)
  {
    PassOutcomeAt(vs, i, size, draws);
    assert WellFormed(vs[i], size);
    WellFormedInBounds(vs[i], size);
  }

  /** A vehicle that ends the pass waiting did not move. */
  lemma WaitingStaysPut(vs: seq<Vehicle>, i: nat, size: real, draws: seq<SpawnDraws>)
    requires i < |vs| <= |draws| && AllValidDraws(draws)
    ensures var r := Pass(vs, size, draws).vehicles;
            r[i].waiting ==> r[i].x == vs[i].x && r[i].y == vs[i].y
  {
    PassOutcomeAt(vs, i, size, draws);
  }

  /** A pass keeps every vehicle well formed, so in particular every vehicle is
      within the margin of the arena after it. */
  lemma {:induction false} PrefixWellFormed(vs: seq<Vehicle>, k: nat, size: real, draws: seq<SpawnDraws>)
    requires k <= |vs| <= |draws| && AllValidDraws(draws)
    requires size >= 0.0 && AllWellFormed(vs, size)
    ensures AllWellFormed(PassPrefix(vs, k, size, draws).vehicles, size)
    decreases k
  {
    if k > 0 {
      PrefixWellFormed(vs, k - 1, size, draws);
      var p := PassPrefix(vs, k - 1, size, draws);
      assert WellFormed(p.vehicles[k - 1], size);
      var v := Advanced(p.vehicles, k - 1, size);
      ExitsOnlyForward(v, size);
    }
  }

  lemma PassPreservesWellFormed(vs: seq<Vehicle>, size: real, draws: seq<SpawnDraws>)
    requires |vs| <= |draws| && AllValidDraws(draws)
    requires size >= 0.0 && AllWellFormed(vs, size)
    ensures AllWellFormed(Pass(vs, size, draws).vehicles, size)
  {
    PrefixWellFormed(vs, |vs|, size, draws);
  }

  /** The positions below `k` at which `flags` is set. */
  function TrueSlots(flags: seq<bool>, k: nat): set<nat>
    requires k <= |flags|
  {
    set j: nat | j < k && flags[j]
  }

  lemma TrueSlotsGrow(flags: seq<bool>, k: nat)
    requires k < |flags|
    ensures |TrueSlots(flags, k + 1)| == |TrueSlots(flags, k)| + (if flags[k] then 1 else 0)
  {
    if flags[k] {
      assert TrueSlots(flags, k + 1) == TrueSlots(flags, k) + {k};
    } else {
      assert TrueSlots(flags, k + 1) == TrueSlots(flags, k);
    }
  }

  /** For each slot, whether the pass retires it. */
  function RetireFlags(vs: seq<Vehicle>, size: real, draws: seq<SpawnDraws>): (flags: seq<bool>)
    requires |vs| <= |draws| && AllValidDraws(draws)
    ensures |flags| == |vs|
    ensures forall j :: 0 <= j < |vs| ==> flags[j] == RetiresAt(vs, j, size, draws)
  {
    seq(|vs|, j requires 0 <= j < |vs| => RetiresAt(vs, j, size, draws))
  }

  /** The count a pass has reached after `k` slots is the number of those slots
      it retired: every retirement counts exactly once. */
  lemma {:induction false} RetiredCountsSlots(vs: seq<Vehicle>, k: nat, size: real, draws: seq<SpawnDraws>)
    requires k <= |vs| <= |draws| && AllValidDraws(draws)
    ensures PassPrefix(vs, k, size, draws).retired == |TrueSlots(RetireFlags(vs, size, draws), k)|
    decreases k
  {
    if k > 0 {
      RetiredCountsSlots(vs, k - 1, size, draws);
      TrueSlotsGrow(RetireFlags(vs, size, draws), k - 1);
    }
  }

  // ---------------------------------------------------------------------------
  // Waiting count

  /** The number of vehicles whose waiting flag is set. */
  function WaitingCount(vs: seq<Vehicle>): (n: nat)
    ensures n <= |vs|
  {
    if vs == [] then 0
    else WaitingCount(vs[..|vs| - 1]) + (if vs[|vs| - 1].waiting then 1 else 0)
  }

  /** For each slot, whether its vehicle is waiting. */
  function WaitingFlags(vs: seq<Vehicle>): (flags: seq<bool>)
    ensures |flags| == |vs| && forall k :: 0 <= k < |vs| ==> flags[k] == vs[k].waiting
  {
    seq(|vs|, k requires 0 <= k < |vs| => vs[k].waiting)
  }

  /** The count is the number of slots holding a waiting vehicle. */
  lemma {:induction false} WaitingCountIsWaitingSlots(vs: seq<Vehicle>)
    ensures WaitingCount(vs) == |TrueSlots(WaitingFlags(vs), |vs|)|
  {
    if vs != [] {
      var n := |vs| - 1;
      WaitingCountIsWaitingSlots(vs[..n]);
      assert TrueSlots(WaitingFlags(vs[..n]), n) == TrueSlots(WaitingFlags(vs), n);
      TrueSlotsGrow(WaitingFlags(vs), n);
    }
  }

  // ---------------------------------------------------------------------------
  // Two scenarios

  /** A northbound vehicle heading into the crossing and a westbound one just
      past it, on a 400-unit arena. The northbound one goes; the westbound one
      waits where it is. */
  lemma NorthboundGoesWestboundWaits()
    ensures var size := 400.0;
            var north := Vehicle(1.0, 215.0, 200.0, North, 3.0, false, Colors[0]);
            var west := Vehicle(2.0, 240.0, 185.0, West, 2.5, false, Colors[1]);
            var d := SpawnDraws(0.0, 0.0, 0.0, 0.0);
            var r := Pass([north, west], size, [d, d]).vehicles;
            && r[0] == north.(y := 197.0)
            && r[1] == west.(waiting := true)
  {
    var size := 400.0;
    var north := Vehicle(1.0, 215.0, 200.0, North, 3.0, false, Colors[0]);
    var west := Vehicle(2.0, 240.0, 185.0, West, 2.5, false, Colors[1]);
    var d := SpawnDraws(0.0, 0.0, 0.0, 0.0);
    var vs := [north, west];
    assert !ShouldWait(vs, 0, size) by {
      NorthboundNeverWaits(vs, 0, size);
    }
    var mid := [north.(y := 197.0), west];
    assert PassPrefix(vs, 1, size, [d, d]).vehicles == mid;
    assert Yields(west, mid[0], size);
    assert ShouldWait(mid, 1, size);
  }

  /** The pass works slot by slot on the live state: a westbound vehicle that a
      northbound one would hold up in the state before the pass is not held up,
      because the northbound one, in an earlier slot, has already moved out of
      range by the time the westbound one is scanned. */
  lemma ScanSeesEarlierMoves()
    ensures var size := 400.0;
            var north := Vehicle(1.0, 215.0, 155.0, North, 3.0, false, Colors[0]);
            var west := Vehicle(2.0, 240.0, 185.0, West, 2.5, false, Colors[1]);
            var d := SpawnDraws(0.0, 0.0, 0.0, 0.0);
            var r := Pass([north, west], size, [d, d]).vehicles;
            && ShouldWait([north, west], 1, size)
            && !r[1].waiting && r[1].x == 237.5
  {
    var size := 400.0;
    var north := Vehicle(1.0, 215.0, 155.0, North, 3.0, false, Colors[0]);
    var west := Vehicle(2.0, 240.0, 185.0, West, 2.5, false, Colors[1]);
    var d := SpawnDraws(0.0, 0.0, 0.0, 0.0);
    var vs := [north, west];
    assert Yields(west, north, size);
    assert !ShouldWait(vs, 0, size) by {
      NorthboundNeverWaits(vs, 0, size);
    }
    var mid := [north.(y := 152.0), west];
    assert PassPrefix(vs, 1, size, [d, d]).vehicles == mid;
    assert !Yields(west, mid[0], size);
    assert !ShouldWait(mid, 1, size);
  }

  // ---------------------------------------------------------------------------
  // The running simulation

  /** The simulation as the animation loop holds it: the vehicle array it
      updates in place, and the throughput counter and the time of the last
      report it keeps between frames. */
  class Simulation {
    const size: real
    const vehicles: array<Vehicle>
    var throughputCount: nat
    var lastThroughputUpdate: int

    ghost predicate Valid()
      reads this, vehicles
    {
      size >= 0.0 && vehicles.Length == Population && AllWellFormed(vehicles[..], size)
    }

    /** Mount: spawn the eight vehicles, one draw each, and start the first
        report window at `now`. */
    constructor (size: real, now: int, draws: seq<SpawnDraws>)
      requires size >= 0.0 && |draws| == Population && AllValidDraws(draws)
      ensures Valid() && fresh(vehicles)
      ensures this.size == size && vehicles[..] == Initial(size, draws)
      ensures throughputCount == 0 && lastThroughputUpdate == now
    {
      var a := new Vehicle[Population];
      var i := 0;
      while i < Population
        invariant 0 <= i <= Population
        invariant forall k :: 0 <= k < i ==> a[k] == Spawn(size, draws[k])
      {
        a[i] := Spawn(size, draws[i]);
        i := i + 1;
      }
      this.size := size;
      vehicles := a;
      throughputCount := 0;
      lastThroughputUpdate := now;
      new;
      assert vehicles[..] == Initial(size, draws);
    }

    /** The inner scan: does vehicle `index` have to give way to any other
        vehicle in the array as it stands now? */
    method MustWait(index: nat) returns (shouldWait: bool)
      requires index < vehicles.Length
      ensures shouldWait == ShouldWait(vehicles[..], index, size)
    {
      shouldWait := false;
      var vehicle := vehicles[index];
      var otherIndex := 0;
      while otherIndex < vehicles.Length
        invariant 0 <= otherIndex <= vehicles.Length
        invariant shouldWait <==>
          exists j :: 0 <= j < otherIndex && j != index && Yields(vehicle, vehicles[j], size)
      {
        if otherIndex != index {
          var other := vehicles[otherIndex];
          var distSquared := DistanceSquared(vehicle, other);
          if distSquared < ProximityRadius * ProximityRadius && distSquared > 0.0 {
            if InZone(other, size) {
              if Priority(vehicle.direction) > Priority(other.direction) {
                shouldWait := true;
              }
            }
          }
          assert Yields(vehicle, other, size) <==>
            (distSquared < ProximityRadius * ProximityRadius && distSquared > 0.0 &&
             InZone(other, size) && Priority(vehicle.direction) > Priority(other.direction));
        }
        otherIndex := otherIndex + 1;
      }
      assert vehicle == vehicles[..][index];
    }

    /** The per-frame pass: each slot in order is scanned, flagged, moved, and
        replaced by a fresh spawn if it has left the arena; each replacement
        is one more unit of throughput. `draws` holds the spawn draws the pass
        may need, used in order. */
    method UpdateVehicles(draws: seq<SpawnDraws>)
      requires Valid() && Population <= |draws| && AllValidDraws(draws)
      modifies this`throughputCount, vehicles
      ensures Valid()
      ensures vehicles[..] == Pass(old(vehicles[..]), size, draws).vehicles
      ensures throughputCount == old(throughputCount) + Pass(old(vehicles[..]), size, draws).retired
    {
      ghost var start := vehicles[..];
      var used := 0;
      var index := 0;
      while index < vehicles.Length
        invariant 0 <= index <= vehicles.Length
        invariant vehicles[..] == PassPrefix(start, index, size, draws).vehicles
        invariant used == PassPrefix(start, index, size, draws).retired
        invariant throughputCount == old(throughputCount) + used
      {
        var shouldWait := MustWait(index);
        var vehicle := Move(vehicles[index], shouldWait);
        vehicles[index] := vehicle;
        if OutOfBounds(vehicle, size) {
          vehicles[index] := Spawn(size, draws[used]);
          used := used + 1;
          throughputCount := throughputCount + 1;
        }
        index := index + 1;
      }
      PassPreservesWellFormed(start, size, draws);
    }

    /** The report: once more than a second has passed since the last one
        (clock read `now`), report the window's throughput and the current
        number of waiting vehicles, empty the counter and restart the window
        at `nowAgain`, the clock's second reading. */
    method MaybeFlush(now: int, nowAgain: int) returns (stats: Option<Stats>)
      modifies this`throughputCount, this`lastThroughputUpdate
      ensures if now - old(lastThroughputUpdate) > StatsWindowMs then
                && stats == Some(Stats(old(throughputCount), WaitingCount(vehicles[..])))
                && throughputCount == 0 && lastThroughputUpdate == nowAgain
              else
                && stats == None
                && throughputCount == old(throughputCount)
                && lastThroughputUpdate == old(lastThroughputUpdate)
    {
      stats := None;
      if now - lastThroughputUpdate > StatsWindowMs {
        stats := Some(Stats(throughputCount, WaitingCount(vehicles[..])));
        throughputCount := 0;
        lastThroughputUpdate := nowAgain;
      }
    }

    /** One animation frame, without the drawing: the pass, then the report. */
    method Animate(draws: seq<SpawnDraws>, now: int, nowAgain: int) returns (stats: Option<Stats>)
      requires Valid() && Population <= |draws| && AllValidDraws(draws)
      modifies this`throughputCount, this`lastThroughputUpdate, vehicles
      ensures Valid()
      ensures vehicles[..] == Pass(old(vehicles[..]), size, draws).vehicles
      ensures var retired := old(throughputCount) + Pass(old(vehicles[..]), size, draws).retired;
              if now - old(lastThroughputUpdate) > StatsWindowMs then
                && stats == Some(Stats(retired, WaitingCount(vehicles[..])))
                && throughputCount == 0 && lastThroughputUpdate == nowAgain
              else
                && stats == None
                && throughputCount == retired
                && lastThroughputUpdate == old(lastThroughputUpdate)
    {
      ghost var pass := Pass(vehicles[..], size, draws);
      UpdateVehicles(draws);
      assert throughputCount == old(throughputCount) + pass.retired;
      stats := MaybeFlush(now, nowAgain);
    }
  }
}
