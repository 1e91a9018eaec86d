/** The status feed: a short list of synthetic status messages, newest first,
    that gains one message of a randomly weighted type at every interval and
    keeps only the most recent eight. */
module StatusFeed {
  import opened Randomness

  datatype StatusType = Success | Info | Warning | Action

  /** One feed entry; `id` and `timestamp` are clock readings. */
  datatype StatusItem = StatusItem(id: int, kind: StatusType, message: string, timestamp: int)

  /** The icons the feed draws, with the tone class each is drawn in. */
  datatype Glyph = CheckCircle2 | AlertCircle | Zap | InfoGlyph
  datatype Icon = Icon(glyph: Glyph, tone: string)

  const FeedCapacity: nat := 8
  const Types: seq<StatusType> := [Success, Info, Warning, Action]
  const Weights: seq<real> := [0.4, 0.35, 0.1, 0.15]

  /** The messages each type draws from. */
  function Messages(t: StatusType): (pool: seq<string>)
    ensures |pool| > 0
  {
    match t
    case Success => [
      "Vehicle AV-2847 cleared intersection safely",
      "Route optimization completed for sector 7",
      "Zero collision protocol verified",
      "Traffic flow restored in zone B4",
      "Emergency vehicle priority granted"]
    case Info => [
      "Pedestrian detected at crosswalk 12",
      "Weather conditions updated: Clear",
      "847 autonomous vehicles connected",
      "Network latency: 12ms average",
      "New vehicle AV-3921 joined network"]
    case Warning => [
      "High traffic density detected in zone A3",
      "Sensor calibration required for node 15",
      "Unusual pattern detected at intersection 7"]
    case Action => [
      "Rerouting 23 vehicles to alternate path",
      "Adjusting signal timing for efficiency",
      "Initiating emergency protocol alpha",
      "Coordinating multi-vehicle maneuver"]
  }

  /** The feed when the component mounts: a success entry, then an info entry.
      Each entry reads the clock on its own, so `first` and `second` are two
      readings that may differ. */
  function InitialFeed(first: int, second: int): (feed: seq<StatusItem>)
    ensures |feed| == 2 && feed[0].kind == Success && feed[1].kind == Info
    ensures feed[0].id == 1 && feed[1].id == 2
    ensures feed[0].timestamp == first && feed[1].timestamp == second
  {
    [StatusItem(1, Success, "System initialized successfully", first),
     StatusItem(2, Info, "Connected to decentralized network", second)]
  }

  // ---------------------------------------------------------------------------
  // Choosing the type

  /** The sum of the first `n` weights: the running total after `n` types. */
  function Cumulative(n: nat): (total: real)
    requires n <= |Weights|
    ensures total == [0.0, 0.4, 0.75, 0.85, 1.0][n]
    ensures 0.0 <= total <= 1.0
  {
    if n == 0 then 0.0 else Cumulative(n - 1) + Weights[n - 1]
  }

  /** The weights of the types up to and including type `i` reach `random`. */
  predicate Reaches(random: real, i: nat) {
    i < |Weights| && random <= Cumulative(i + 1)
  }

  /** Type `i` is the first whose cumulative weight reaches `random`. */
  predicate FirstReached(random: real, i: nat) {
    Reaches(random, i) && forall k: nat :: k < i ==> !Reaches(random, k)
  }

  /** The weights are non-negative and add up to exactly one. */
  lemma WeightsFormDistribution()
    ensures forall k :: 0 <= k < |Weights| ==> Weights[k] >= 0.0
    ensures Cumulative(|Weights|) == 1.0
  {
    assert Cumulative(1) == 0.4;
    assert Cumulative(2) == 0.75;
    assert Cumulative(3) == 0.85;
  }

  /** Cumulative weights never decrease. */
  lemma {:induction false} CumulativeMonotone(i: nat, j: nat)
    requires i <= j <= |Weights|
    ensures Cumulative(i) <= Cumulative(j)
    decreases j
  {
    if i < j {
      CumulativeMonotone(i, j - 1);
    }
  }

  /** If the first `n` weights already reach `random`, one of the first `n`
      types is the first to reach it. */
  lemma {:induction false} SomeTypeReached(random: real, n: nat)
    requires 0 < n <= |Weights| && random <= Cumulative(n)
    ensures exists i: nat :: i < n && FirstReached(random, i)
    decreases n
  {
    if n > 1 && random <= Cumulative(n - 1) {
      SomeTypeReached(random, n - 1);
    } else {
      assert FirstReached(random, n - 1) by {
        forall k: nat | k < n - 1
          ensures !Reaches(random, k)
        {
          CumulativeMonotone(k + 1, n - 1);
        }
      }
    }
  }

  /** With exact arithmetic every draw in [0, 1] picks a type in the loop, so
      the fallback to `Info` is never taken. */
  lemma EveryDrawPicksAType(random: real)
    requires 0.0 <= random <= 1.0
    ensures exists i: nat :: FirstReached(random, i)
  {
    WeightsFormDistribution();
    SomeTypeReached(random, |Weights|);
  }

  /** Each type owns the slice of draws between its predecessors' cumulative
      weight and its own, so it is chosen with probability equal to its weight. */
  lemma {:induction false} SelectionSlice(random: real, i: nat)
    requires 0.0 <= random && i < |Types|
    ensures FirstReached(random, i) <==>
            (i == 0 || Cumulative(i) < random) && random <= Cumulative(i + 1)
  {
    if i > 0 && Cumulative(i) < random {
      forall k: nat | k < i
        ensures !Reaches(random, k)
      {
        CumulativeMonotone(k + 1, i);
      }
    }
    if i > 0 && FirstReached(random, i) {
      assert !Reaches(random, i - 1);
    }
  }

  /** The weighted choice: walk the types accumulating their weights and take
      the first whose running total reaches `random`; `Info` if none does. */
  method SelectType(random: real) returns (selectedType: StatusType)
    ensures forall i: nat :: FirstReached(random, i) ==> selectedType == Types[i]
    ensures (forall i: nat :: !Reaches(random, i)) ==> selectedType == Info
  {
    var cumulative := 0.0;
    selectedType := Info;
    var i := 0;
    while i < |Weights|
      invariant 0 <= i <= |Weights|
      invariant cumulative == Cumulative(i)
      invariant forall k: nat :: k < i ==> !Reaches(random, k)
      invariant selectedType == Info
    {
      cumulative := cumulative + Weights[i];
      if random <= cumulative {
        selectedType := Types[i];
        FirstReachedUnique(random, i);
        break;
      }
      i := i + 1;
    }
  }

  /** At most one type is the first to reach a draw. */
  lemma FirstReachedUnique(random: real, i: nat)
    requires FirstReached(random, i)
    ensures forall j: nat :: FirstReached(random, j) ==> j == i
  {
  }

  /** The message a draw picks from a type's pool; it always belongs to it. */
  function PickMessage(t: StatusType, random: real): (message: string)
    requires IsRandom(random)
    ensures message in Messages(t)
  {
    Messages(t)[PickIndex(random, |Messages(t)|)]
  }

  // ---------------------------------------------------------------------------
  // The feed update

  function Min(a: nat, b: nat): nat {
    if a < b then a else b
  }

  /** The new entry in front of the first seven old ones. */
  function Push(prev: seq<StatusItem>, item: StatusItem): (feed: seq<StatusItem>)
    ensures |feed| == Min(|prev| + 1, FeedCapacity) && |feed| <= FeedCapacity
    ensures feed[0] == item
    ensures feed[1..] + prev[|feed| - 1..] == prev
    ensures prev[|feed| - 1..] == if |prev| < FeedCapacity then [] else prev[FeedCapacity - 1..]
  {
    [item] + prev[..Min(FeedCapacity - 1, |prev|)]
  }

  /** One interval: choose a type, pick a message of it, and put the new entry
      at the head of the feed. `random` and `pick` are the two draws;
      `now` and `timestamp` the two clock readings. */
  method AddStatus(prev: seq<StatusItem>, random: real, pick: real, now: int, timestamp: int)
    returns (feed: seq<StatusItem>)
    requires IsRandom(random) && IsRandom(pick)
    ensures |feed| == Min(|prev| + 1, FeedCapacity)
    ensures feed[0].id == now && feed[0].timestamp == timestamp
    ensures exists i: nat :: FirstReached(random, i) && feed[0].kind == Types[i]
    ensures feed[0].message in Messages(feed[0].kind)
    ensures feed[1..] == prev[..|feed| - 1]
  {
    var selectedType := SelectType(random);
    EveryDrawPicksAType(random);
    var message := PickMessage(selectedType, pick);
    feed := Push(prev, StatusItem(now, selectedType, message, timestamp));
  }

  /** The first `n` entries of `s`, or all of it if it is shorter. */
  function Take(s: seq<StatusItem>, n: nat): (t: seq<StatusItem>)
    ensures |t| == Min(|s|, n) && t == s[..|t|]
  {
    s[..Min(|s|, n)]
  }

  function Reversed(s: seq<StatusItem>): (r: seq<StatusItem>)
    ensures |r| == |s|
  {
    if s == [] then [] else Reversed(s[1..]) + [s[0]]
  }

  /** The feed after the entries of `items` arrive, in order. */
  function PushAll(prev: seq<StatusItem>, items: seq<StatusItem>): seq<StatusItem>
    decreases |items|
  {
    if items == [] then prev else PushAll(Push(prev, items[0]), items[1..])
  }

  lemma TakeOfTake(a: seq<StatusItem>, b: seq<StatusItem>, n: nat)
    ensures Take(a + Take(b, n), n) == Take(a + b, n)
  {
    if |a| >= n {
      assert (a + Take(b, n))[..n] == a[..n] == (a + b)[..n];
    } else {
      var m := Min(|a| + |b|, n);
      assert (a + Take(b, n))[..m] == (a + b)[..m];
    }
  }

  /** However many entries arrive, the feed holds exactly the newest eight
      entries it has seen, newest first. */
  lemma {:induction false} FeedHoldsNewest(prev: seq<StatusItem>, items: seq<StatusItem>)
    requires |prev| <= FeedCapacity
    ensures PushAll(prev, items) == Take(Reversed(items) + prev, FeedCapacity)
    decreases |items|
  {
    if items == [] {
      assert Take(prev, FeedCapacity) == prev;
    } else {
      var x, rest := items[0], items[1..];
      var pushed := Push(prev, x);
      FeedHoldsNewest(pushed, rest);
      assert pushed == Take([x] + prev, FeedCapacity);
      TakeOfTake(Reversed(rest), [x] + prev, FeedCapacity);
      assert Reversed(rest) + ([x] + prev) == Reversed(items) + prev;
    }
  }

  /** A feed that starts from the initial two entries never grows beyond eight. */
  lemma FeedStaysBounded(first: int, second: int, items: seq<StatusItem>)
    ensures |PushAll(InitialFeed(first, second), items)| <= FeedCapacity
  {
    FeedHoldsNewest(InitialFeed(first, second), items);
  }

  // ---------------------------------------------------------------------------
  // Styling

  /** The icon for an entry; anything not listed falls to the `Info` default. */
  function GetIcon(t: StatusType): (icon: Icon)
    ensures icon.glyph == InfoGlyph <==> t == Info
  {
    match t
    case Success => Icon(CheckCircle2, "text-accent")
    case Warning => Icon(AlertCircle, "text-warning")
    case Action => Icon(Zap, "text-primary")
    case _ => Icon(InfoGlyph, "text-muted-foreground")
  }

  /** The border class for an entry; `Info` takes the default. */
  function GetBorderColor(t: StatusType): (border: string)
    ensures border == "border-l-muted" <==> t == Info
  {
    match t
    case Success => "border-l-accent"
    case Warning => "border-l-warning"
    case Action => "border-l-primary"
    case _ => "border-l-muted"
  }

  /** Different types always look different, by icon and by border. */
  lemma StylesDistinguishTypes(a: StatusType, b: StatusType)
    requires a != b
    ensures GetIcon(a) != GetIcon(b) && GetBorderColor(a) != GetBorderColor(b)
  {
  }
}
