# Intersection micro-simulation and status feed, modelled in Dafny

This project models the two parts of the flowwise-mobility page that hold
logic rather than layout.

**The intersection simulation** (`src/components/IntersectionSimulation.tsx`)
runs eight vehicles through an unsignalled four-way crossing on a square arena
of side `size`. A vehicle is spawned at the entry point of one of four
headings. That point is 20 units beyond the edge it comes in from, in the
right-hand lane. The vehicle gets a speed in [2, 3.5) and is not waiting.
Every animation frame makes one pass over the vehicle array, in slot order.
Each vehicle is scanned against every other vehicle. It waits if some other
vehicle is closer than 40 units (but not at distance 0), is strictly inside the
crossing widened by 30 units on every side, and has a stronger heading
(North 1 < East 2 < South 3 < West 4). A waiting vehicle stays put. The others
move by their speed along their heading. A vehicle more than 30 units past any
edge is overwritten in its slot by a fresh spawn, and the throughput counter
goes up by one. The pass works on the live array. So when slot `i` is scanned,
the slots below it already hold their new vehicles and the slots from `i` on
still hold the old ones. After the pass, if more than 1000 ms have gone by
since the last report, the frame reports the counter and the number of waiting
vehicles. It then empties the counter and restarts the window.

**The status feed** (`src/components/StatusFeed.tsx`) starts with a success
entry and an info entry. At every interval it picks a message type by
cumulative weights 0.4 / 0.35 / 0.1 / 0.15, with `info` as the fallback. It
picks a message from that type's pool and puts the new entry in front of the
first seven old ones. Each type also has an icon and a border class.

Files:

- `randomness.dfy` (module `Randomness`) holds the random draw in [0, 1) and
  `floor(r * n)`, which both components use to index a list.
- `intersection.dfy` (module `IntersectionSimulation`) holds the vehicle
  rules as functions. It also holds the specification of one pass
  (`PassPrefix`, `Pass`), the lemmas about it, and the class `Simulation`. That
  class keeps the vehicle array and the two counters, and it updates them in
  place.
- `status_feed.dfy` (module `StatusFeed`) holds the feed update, the
  weighted type choice (a method with the source's loop), the message pick
  and the styling maps.

Inputs that the source takes from the host are parameters here:

- Each `Math.random()` call is a draw. `SpawnDraws` bundles the four draws of
  one spawn, in call order: heading, id, speed, color.
- A pass receives a list of spawn draws and uses them in order, one per
  retirement.
- Each `Date.now()` or `new Date()` call is an integer parameter. The frame
  reads the clock twice: once to test the window (`now`) and once to restart
  it (`nowAgain`). The two initial feed entries each read the clock
  (`first`, `second`).
- The canvas size is the parameter `size`.

Positions and speeds are exact reals. The distance test compares squared
distance with 40², which stands in for `Math.sqrt`.

Facts about the code that the model keeps:

- The report fires only when strictly more than 1000 ms have elapsed.
- A vehicle exactly 40 units away does not cause a wait, because the test
  is `dist < 40`.
- Retirement is tested on all four sides of the arena. `ExitsOnlyForward`
  proves that for a vehicle on its lane this agrees with having passed the
  far edge of its route.
- Each initial vehicle draws its own heading, so several can share an entry
  point.
- The reported `avgWait` is a count of waiting vehicles, not an average.

## Model

| member | source | states |
|---|---|---|
| `Randomness.PickIndex` | src/components/StatusFeed.tsx:66-67 | `floor(random * n)` for a draw in [0, 1) is a valid index into a list of length n |
| `IntersectionSimulation.Spawn` | src/components/IntersectionSimulation.tsx:36-70 | a spawned vehicle is not waiting, has speed in [2, 3.5), a color from the palette, the drawn id and heading, sits on its right-hand lane 20 units before the edge it enters by, and is well formed whenever size >= 0 |
| `IntersectionSimulation.Initial` | src/components/IntersectionSimulation.tsx:73-75 | the initial population has one vehicle per draw (eight in the simulation), none waiting, all at their entry points and all well formed |
| `IntersectionSimulation.ExitsOnlyForward` | src/components/IntersectionSimulation.tsx:225 | for a vehicle on its lane that is not behind its entry point, the four-sided out-of-bounds test holds exactly when it has gone more than 30 units past the far edge of its route |
| `IntersectionSimulation.WellFormedInBounds` | src/components/IntersectionSimulation.tsx:42-59 | a well-formed vehicle lies within [-30, size + 30] on both axes |
| `IntersectionSimulation.OutOfBounds` | src/components/IntersectionSimulation.tsx:225 | a vehicle is out of bounds when it is more than 30 units beyond the arena on any of the four sides |
| `IntersectionSimulation.Priority` | src/components/IntersectionSimulation.tsx:169 | the right-of-way ranks are 1 to 4; northbound alone has rank 1 and westbound alone rank 4 |
| `IntersectionSimulation.InZone` | src/components/IntersectionSimulation.tsx:144-149 | a vehicle is in the zone when both coordinates lie strictly within 60 units of the center (half the 60-unit road plus the 30-unit margin) |
| `IntersectionSimulation.Yields` | src/components/IntersectionSimulation.tsx:156-173 | a vehicle that gives way to another is not northbound, the other is not westbound, their headings differ and their positions differ |
| `IntersectionSimulation.ShouldWait` | src/components/IntersectionSimulation.tsx:153-175 | a vehicle that must wait is not northbound and shares the array with at least one other vehicle |
| `IntersectionSimulation.YieldingIsAsymmetric` | src/components/IntersectionSimulation.tsx:169-171 | if a must give way to b then b does not have to give way to a |
| `IntersectionSimulation.SameHeadingNeverYields` | src/components/IntersectionSimulation.tsx:169-171 | two vehicles with the same heading never make each other wait, since the priority comparison is strict |
| `IntersectionSimulation.NorthboundNeverWaits` | src/components/IntersectionSimulation.tsx:169-171 | a northbound vehicle (priority 1) is never made to wait |
| `IntersectionSimulation.WestboundYieldsToAll` | src/components/IntersectionSimulation.tsx:162-173 | a westbound vehicle waits whenever another vehicle of any other heading is within the radius, not at distance 0, and inside the zone |
| `IntersectionSimulation.Move` | src/components/IntersectionSimulation.tsx:177-194 | the move sets the waiting flag, keeps id, heading, speed and color, and displaces the vehicle by its speed times the unit vector of its heading (by zero if waiting); it keeps the vehicle on its lane and adds the effective speed to its progress along its route |
| `IntersectionSimulation.Advanced` | src/components/IntersectionSimulation.tsx:151-194 | after its scan and move a vehicle keeps its id, heading, speed and lane; its waiting flag is never set if it is northbound; a waiting vehicle keeps its position, and otherwise its progress grows by its speed |
| `IntersectionSimulation.Step` | src/components/IntersectionSimulation.tsx:152-228 | handling one slot changes only that slot, keeps the population size, and raises the retirement count by one exactly when the moved vehicle is out of bounds |
| `IntersectionSimulation.PassPrefix` | src/components/IntersectionSimulation.tsx:152-229 | part-way through a pass the population still has its original size and the pass has retired at most as many vehicles as it has handled slots |
| `IntersectionSimulation.Pass` | src/components/IntersectionSimulation.tsx:151-228 | a whole pass keeps the population size and retires at most one vehicle per slot |
| `IntersectionSimulation.NotYetReached` | src/components/IntersectionSimulation.tsx:152 | slots the pass has not reached still hold their vehicles from before the pass |
| `IntersectionSimulation.StaysSettled` | src/components/IntersectionSimulation.tsx:226 | once a slot is handled, the rest of the pass does not change it (retirement overwrites only the current slot) |
| `IntersectionSimulation.PassOutcomeAt` | src/components/IntersectionSimulation.tsx:152-228 | slot i is scanned against the final vehicles below i and the original ones from i on; it ends as its moved self if that is in bounds, and otherwise as the spawn made from the next unused draw |
| `IntersectionSimulation.WaitingIffYieldedAtItsTurn` | src/components/IntersectionSimulation.tsx:152-177 | after a pass over a well-formed population, a vehicle is waiting exactly when, in the state seen at its turn, some other vehicle made it give way |
| `IntersectionSimulation.WaitingStaysPut` | src/components/IntersectionSimulation.tsx:177-194 | a vehicle that ends the pass waiting has the position it had before the pass |
| `IntersectionSimulation.PrefixWellFormed` | src/components/IntersectionSimulation.tsx:224-228 | every prefix of a pass keeps every vehicle on its lane, with a spawn-range speed, between its entry point and its exit line |
| `IntersectionSimulation.PassPreservesWellFormed` | src/components/IntersectionSimulation.tsx:224-228 | a whole pass keeps the population well formed, so after it every vehicle is within [-30, size + 30] on both axes |
| `IntersectionSimulation.RetiredCountsSlots` | src/components/IntersectionSimulation.tsx:225-227 | the retirement count after k slots equals the number of those slots whose moved vehicle was out of bounds: each retirement counts exactly once |
| `IntersectionSimulation.WaitingCount` | src/components/IntersectionSimulation.tsx:235 | the waiting count is at most the population size |
| `IntersectionSimulation.WaitingCountIsWaitingSlots` | src/components/IntersectionSimulation.tsx:235 | the waiting count equals the number of slots whose vehicle is waiting |
| `IntersectionSimulation.NorthboundGoesWestboundWaits` | src/components/IntersectionSimulation.tsx:152-194 | on a 400-unit arena, with a northbound vehicle in slot 0 and a nearby westbound vehicle in slot 1, both in the zone, the northbound one advances by its speed and the westbound one waits in place |
| `IntersectionSimulation.ScanSeesEarlierMoves` | src/components/IntersectionSimulation.tsx:152-175 | a westbound vehicle that would have to give way in the state before the pass does not wait, because the northbound vehicle in the earlier slot has already moved out of range when it is scanned |
| `IntersectionSimulation.Simulation.constructor` | src/components/IntersectionSimulation.tsx:73-78 | mounting spawns the eight vehicles from eight draws, empties the counter and starts the report window at `now`; the object invariant holds |
| `IntersectionSimulation.Simulation.MustWait` | src/components/IntersectionSimulation.tsx:154-175 | the inner scan returns true exactly when the vehicle must give way to some other vehicle of the array as it stands |
| `IntersectionSimulation.Simulation.UpdateVehicles` | src/components/IntersectionSimulation.tsx:152-229 | the in-place pass leaves the array equal to the pass specification applied to the old array, adds that pass's retirements to the counter, and keeps the population well formed |
| `IntersectionSimulation.Simulation.MaybeFlush` | src/components/IntersectionSimulation.tsx:231-239 | if more than 1000 ms have elapsed, it reports the counter and the waiting count, empties the counter and restarts the window at the second clock reading; otherwise it reports nothing and changes nothing |
| `IntersectionSimulation.Simulation.Animate` | src/components/IntersectionSimulation.tsx:152-239 | one frame is the pass followed by the report, with the report counting the retirements of this frame |
| `StatusFeed.Messages` | src/components/StatusFeed.tsx:11-37 | every type has a non-empty message pool |
| `StatusFeed.InitialFeed` | src/components/StatusFeed.tsx:44-48 | the initial feed holds exactly two entries, a success entry with id 1 and then an info entry with id 2, each carrying its own clock reading |
| `StatusFeed.Cumulative` | src/components/StatusFeed.tsx:55-59 | the running totals of the weights after 0 to 4 types are 0, 0.4, 0.75, 0.85 and 1, all within [0, 1] |
| `StatusFeed.WeightsFormDistribution` | src/components/StatusFeed.tsx:53 | the weights are non-negative and sum to exactly 1 |
| `StatusFeed.CumulativeMonotone` | src/components/StatusFeed.tsx:58-59 | the running total of weights never decreases |
| `StatusFeed.SomeTypeReached` | src/components/StatusFeed.tsx:58-64 | if the first n weights reach the draw, one of the first n types is the first to reach it |
| `StatusFeed.EveryDrawPicksAType` | src/components/StatusFeed.tsx:52-64 | with exact arithmetic, every draw in [0, 1] is reached by some type, so the `info` fallback is never used |
| `StatusFeed.SelectionSlice` | src/components/StatusFeed.tsx:52-64 | type i is chosen exactly for the draws above the cumulative weight of the types before it and at most its own cumulative weight, so each type is chosen with probability equal to its weight |
| `StatusFeed.FirstReachedUnique` | src/components/StatusFeed.tsx:58-63 | at most one type is the first to reach a draw |
| `StatusFeed.SelectType` | src/components/StatusFeed.tsx:52-64 | the loop returns the type with the least index whose cumulative weight reaches the draw, and `info` when no type does |
| `StatusFeed.PickMessage` | src/components/StatusFeed.tsx:66-67 | the picked message belongs to the selected type's pool |
| `StatusFeed.Push` | src/components/StatusFeed.tsx:69-72 | the new feed has length min(old length + 1, 8), the new entry first, then the old entries in order, and the dropped entries are exactly the old ones from index 7 on |
| `StatusFeed.AddStatus` | src/components/StatusFeed.tsx:52-72 | one interval puts in front an entry with the given id and timestamp, whose type is the first whose weights reach the draw and whose message is from that type's pool, followed by the first old entries up to a length of 8 |
| `StatusFeed.FeedHoldsNewest` | src/components/StatusFeed.tsx:69-72 | after any sequence of arrivals the feed is exactly the eight newest entries it has seen, newest first |
| `StatusFeed.FeedStaysBounded` | src/components/StatusFeed.tsx:44-72 | a feed that starts from the initial entries never holds more than 8 entries |
| `StatusFeed.GetIcon` | src/components/StatusFeed.tsx:78-89 | the icon is defined for all four types, and the default info glyph is used exactly for `info` |
| `StatusFeed.GetBorderColor` | src/components/StatusFeed.tsx:91-102 | the border class is defined for all four types, and the default muted border is used exactly for `info` |
| `StatusFeed.StylesDistinguishTypes` | src/components/StatusFeed.tsx:78-102 | two different types never share an icon or a border class |

## Left out

- Drawing is not modelled: the background, grid, roads, lane markings, zone glow and vehicle glyphs (IntersectionSimulation.tsx lines 81-142 and 196-222) are rendering only.
- Canvas sizing and `devicePixelRatio` scaling are not modelled. The arena side `size` is a parameter, assumed non-negative like an element's measured size.
- The `requestAnimationFrame` loop, its cancellation and the React hooks and JSX are host scheduling. `Simulation.Animate` is one frame.
- `Math.random` and `Date.now` are parameters. Vehicle ids are draws, and nothing here claims they are unique.
- IEEE double rounding is not modelled. Positions, speeds and weights are exact reals. In doubles the running sum of the weights is also 0.4, 0.75, 0.85 and exactly 1, and a draw is below 1, so the `info` fallback is unused in both. The inner limits differ by less than one unit in the last place: the double 0.4 lies slightly above 0.4 and the double 0.85 slightly below 0.85, so a draw lying between a decimal limit and its double can pick the neighbouring type.
- Yields: compares the exact squared distance with 1600 instead of a rounded `Math.sqrt` with 40. The square root of the largest double below 1600 rounds to 40, so at that distance the code does not give way while `Yields` does.
- The draws a pass uses are taken in retirement order from one list of at least eight. The draws of the conflict scan and the move are not interleaved, because those steps draw nothing.
- `Simulation.constructor` models one run of the mount effect on an empty vehicle list. The effect appends to `vehiclesRef.current` without clearing it. A second run of the same effect on the same component would therefore hold 16 vehicles, and that re-run is not modelled.
- `setStats` is React state. `MaybeFlush` returns the snapshot instead of storing it.
- The status feed's `setInterval` timing is not modelled. `Date` timestamps are integers, `toLocaleTimeString` is left out, and the feed's JSX is left out. An icon is modelled as its glyph name and tone class.
- src/components/NetworkVisualization.tsx, src/components/MetricCard.tsx, src/components/Header.tsx and src/pages/Index.tsx are not part of this model. They are cosmetic animation and static layout with no decision logic.
