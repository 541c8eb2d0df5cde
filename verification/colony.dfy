/** The colony aggregate: a resource ledger, the ordered list of buildings,
    the turn counter and a bounded newest-first event log, with the
    operations the `Colony` class offers over them. */
module Colonies {
  import opened Wrappers
  import opened Buildings

  /** Resource name to quantity. A name absent from the map reads as 0. */
  type Ledger = map<string, real>

  datatype Colony = Colony(
    resources: Ledger,
    buildings: seq<BuildingKind>,
    turnNumber: int,
    eventHistory: seq<string>)

  /** The shape written by `to_dict`: the fields a save document carries.
      Each field is optional because a document read back may lack it. */
  datatype SaveDocument = SaveDocument(
    resources: Option<Ledger>,
    buildings: Option<seq<string>>,
    turnNumber: Option<int>)

  /** Number of entries the event log keeps when no bound is given. */
  const DefaultMaxHistory: int := 10

  function Min(a: real, b: real): real { if a <= b then a else b }
  function Max(a: real, b: real): real { if a >= b then a else b }

  /** Get-or-zero read of the ledger. */
  function Get(l: Ledger, name: string): real {
    if name in l then l[name] else 0.0
  }

  predicate NonNegative(l: Ledger) {
    forall k :: k in l ==> l[k] >= 0.0
  }

  /** The ledger a new colony starts with. */
  const StarterResources: Ledger :=
    map["Minerals" := 50.0, "Energy" := 60.0, "Food" := 10.0, "ResearchPoints" := 0.0]

  /** A new colony at the given turn: starter resources, no buildings, empty log. */
  function NewColony(initialTurnNumber: int): (c: Colony)
    ensures c.resources.Keys == {"Minerals", "Energy", "Food", "ResearchPoints"}
    ensures Get(c.resources, "Minerals") == 50.0 && Get(c.resources, "Energy") == 60.0
    ensures Get(c.resources, "Food") == 10.0 && Get(c.resources, "ResearchPoints") == 0.0
    ensures NonNegative(c.resources)
    ensures c.buildings == [] && c.eventHistory == []
    ensures c.turnNumber == initialTurnNumber
  {
    Colony(StarterResources, [], initialTurnNumber, [])
  }

  /** Turn number a colony starts at when none is given. */
  const DefaultTurnNumber: int := 1

  /** A new colony at the default turn number. */
  function DefaultColony(): (c: Colony)
    ensures c.turnNumber == DefaultTurnNumber
    ensures c.resources == StarterResources && c.buildings == [] && c.eventHistory == []
  {
    NewColony(DefaultTurnNumber)
  }

  /** Adds `amount` to `name`, creating the entry when it is absent. */
  function AddResource(l: Ledger, name: string, amount: real): (r: Ledger)
    ensures r.Keys == l.Keys + {name}
    ensures name in l ==> r[name] == l[name] + amount
    ensures name !in l ==> r[name] == amount
    ensures Get(r, name) == Get(l, name) + amount
    ensures forall k :: k in l && k != name ==> r[k] == l[k]
  {
    if name in l then l[name := l[name] + amount] else l[name := amount]
  }

  /** Every cost entry is covered by the ledger, absent names counting as 0. */
  predicate CanAfford(l: Ledger, cost: map<string, real>) {
    forall k :: k in cost ==> cost[k] <= Get(l, k)
  }

  /** The affordability check as the source performs it: walk the cost
      entries and stop at the first one the ledger does not cover. */
  method HasEnoughResources(l: Ledger, cost: map<string, real>) returns (ok: bool)
    ensures ok <==> CanAfford(l, cost)
  {
    var pending := cost.Keys;
    while pending != {}
      invariant pending <= cost.Keys
      invariant forall k :: k in cost && k !in pending ==> cost[k] <= Get(l, k)
      decreases |pending|
    {
      var k :| k in pending;
      if Get(l, k) < cost[k] {
        return false;
      }
      pending := pending - {k};
    }
    return true;
  }

  datatype Spent = Spent(ok: bool, ledger: Ledger)

  /** All-or-nothing spend. The source subtracts by direct indexing, so an
      affordable cost must name only resources the ledger holds. */
  function Spend(l: Ledger, cost: map<string, real>): (r: Spent)
    requires CanAfford(l, cost) ==> cost.Keys <= l.Keys
    ensures r.ok <==> CanAfford(l, cost)
    ensures !r.ok ==> r.ledger == l
    ensures r.ok ==> r.ledger.Keys == l.Keys
    ensures r.ok ==> forall k :: k in cost ==> r.ledger[k] == l[k] - cost[k] && r.ledger[k] >= 0.0
    ensures r.ok ==> forall k :: k in l && k !in cost ==> r.ledger[k] == l[k]
  {
    if CanAfford(l, cost) then
      Spent(true, map k | k in l :: if k in cost then l[k] - cost[k] else l[k])
    else
      Spent(false, l)
  }

  /** Whenever every cost entry is positive, an affordable cost names only
      resources the ledger holds, so spending it cannot fail on a missing key. */
  lemma AffordablePositiveCostIsPresent(l: Ledger, cost: map<string, real>)
    requires forall k :: k in cost ==> cost[k] > 0.0
    ensures CanAfford(l, cost) ==> cost.Keys <= l.Keys
  {
    if CanAfford(l, cost) {
      forall k | k in cost ensures k in l {
        assert Get(l, k) >= cost[k] > 0.0;
      }
    }
  }

  /** Spending an affordable cost from a non-negative ledger leaves it non-negative. */
  lemma SpendKeepsNonNegative(l: Ledger, cost: map<string, real>)
    requires CanAfford(l, cost) ==> cost.Keys <= l.Keys
    requires NonNegative(l)
    ensures NonNegative(Spend(l, cost).ledger)
  {
  }

  /** Pointwise sum of two ledgers over the union of their names. */
  function MergeAdd(a: Ledger, b: Ledger): (r: Ledger)
    ensures r.Keys == a.Keys + b.Keys
    ensures forall k :: Get(r, k) == Get(a, k) + Get(b, k)
  {
    map k | k in a.Keys + b.Keys :: Get(a, k) + Get(b, k)
  }

  /** How many of the buildings are of kind `k`. */
  function CountKind(bs: seq<BuildingKind>, k: BuildingKind): nat {
    multiset(bs)[k]
  }

  /** Sum of every building's production bonus, grouped by resource, in
      building order. A resource appears exactly when some building produces
      it; with no buildings the result is empty. */
  function ProductionBonuses(bs: seq<BuildingKind>): (r: Ledger)
    ensures forall res :: res in r <==> ProducedBySome(bs, res)
    ensures forall res :: Get(r, res) == BonusFromCounts(bs, res)
    ensures bs == [] ==> r == map[]
    decreases |bs|
  {
    if |bs| == 0 then
      assert forall res :: BonusFromCounts(bs, res) == 0.0 by {
        forall res ensures BonusFromCounts(bs, res) == 0.0 {
          NoBuildingsNoBonus(res);
        }
      }
      map[]
    else
      var front := bs[..|bs| - 1];
      var last := bs[|bs| - 1];
      var prev := ProductionBonuses(front);
      assert bs == front + [last];
      BonusesStep(front, last, prev);
      MergeAdd(prev, ProductionBonus(last))
  }

  lemma NoBuildingsNoBonus(res: string)
    ensures BonusFromCounts([], res) == 0.0
  {
  }

  /** Which resources some building among `bs` produces. */
  predicate ProducedBySome(bs: seq<BuildingKind>, res: string) {
    (Mine in bs && res in ProductionBonus(Mine)) || (SolarPanel in bs && res in ProductionBonus(SolarPanel))
  }

  /** One more building adds its own bonus to the running totals. */
  lemma BonusesStep(front: seq<BuildingKind>, last: BuildingKind, prev: Ledger)
    requires forall res :: Get(prev, res) == BonusFromCounts(front, res)
    requires forall res :: res in prev <==> ProducedBySome(front, res)
    ensures forall res :: Get(MergeAdd(prev, ProductionBonus(last)), res) == BonusFromCounts(front + [last], res)
    ensures forall res :: res in MergeAdd(prev, ProductionBonus(last)) <==> ProducedBySome(front + [last], res)
  {
    forall res ensures Get(MergeAdd(prev, ProductionBonus(last)), res) == BonusFromCounts(front + [last], res) {
      BonusFromCountsStep(front, last, res);
    }
    assert forall b :: b in front + [last] <==> b in front || b == last;
  }

  /** The bonus the buildings yield for `res`, computed from how many
      buildings of each kind there are. */
  function BonusFromCounts(bs: seq<BuildingKind>, res: string): real {
    CountKind(bs, Mine) as real * Get(ProductionBonus(Mine), res)
    + CountKind(bs, SolarPanel) as real * Get(ProductionBonus(SolarPanel), res)
  }

  lemma BonusFromCountsStep(front: seq<BuildingKind>, last: BuildingKind, res: string)
    ensures BonusFromCounts(front + [last], res) == BonusFromCounts(front, res) + Get(ProductionBonus(last), res)
  {
  }

  /** Appends a building to the colony; the caller has already paid for it. */
  function AddBuilding(c: Colony, b: BuildingKind): (r: Colony)
    ensures |r.buildings| == |c.buildings| + 1
    ensures r.buildings[..|c.buildings|] == c.buildings && r.buildings[|c.buildings|] == b
    ensures r.resources == c.resources && r.turnNumber == c.turnNumber
    ensures r.eventHistory == c.eventHistory
  {
    c.(buildings := c.buildings + [b])
  }

  /** The display names of the buildings, in order. */
  function Names(bs: seq<BuildingKind>): (r: seq<string>)
    ensures |r| == |bs|
    ensures forall i :: 0 <= i < |bs| ==> r[i] == Name(bs[i])
  {
    if |bs| == 0 then [] else [Name(bs[0])] + Names(bs[1..])
  }

  /** The save document of a colony: its ledger, its building names in
      order and its turn number. The event log is not saved. */
  function ToDict(c: Colony): (d: SaveDocument)
    ensures d.resources == Some(c.resources) && d.turnNumber == Some(c.turnNumber)
    ensures d.buildings.Some? && |d.buildings.value| == |c.buildings|
    ensures forall i :: 0 <= i < |c.buildings| ==> d.buildings.value[i] == Name(c.buildings[i])
  {
    SaveDocument(Some(c.resources), Some(Names(c.buildings)), Some(c.turnNumber))
  }

  /** Python's `s[:n]`: a prefix of `s`, counted from the end when `n` is negative. */
  function SlicePrefix<T>(s: seq<T>, n: int): (r: seq<T>)
    ensures r <= s
    ensures 0 <= n ==> |r| == if n < |s| then n else |s|
    ensures n < 0 ==> |r| == if |s| + n > 0 then |s| + n else 0
  {
    if 0 <= n then (if n < |s| then s[..n] else s)
    else if |s| + n > 0 then s[..|s| + n]
    else []
  }

  /** Records `message` as the newest log entry and keeps at most
      `maxHistory` entries, dropping the oldest. */
  function AddEventToHistory(c: Colony, message: string, maxHistory: int): (r: Colony)
    ensures r.resources == c.resources && r.buildings == c.buildings
    ensures r.turnNumber == c.turnNumber
    ensures r.eventHistory <= [message] + c.eventHistory
    ensures 0 <= maxHistory ==> |r.eventHistory| <= maxHistory
    ensures 1 <= maxHistory ==>
      |r.eventHistory| >= 1 && r.eventHistory[0] == message && r.eventHistory[1..] <= c.eventHistory
    ensures 0 <= maxHistory && |c.eventHistory| < maxHistory ==> r.eventHistory == [message] + c.eventHistory
    ensures 0 <= maxHistory ==>
      |r.eventHistory| == if |c.eventHistory| + 1 < maxHistory then |c.eventHistory| + 1 else maxHistory
  {
    c.(eventHistory := SlicePrefix([message] + c.eventHistory, maxHistory))
  }


  /** Logs `message` under the default bound of ten entries. */
  function LogEvent(c: Colony, message: string): (r: Colony)
    ensures r.resources == c.resources && r.buildings == c.buildings
    ensures r.turnNumber == c.turnNumber
    ensures |r.eventHistory| == if |c.eventHistory| + 1 < DefaultMaxHistory then |c.eventHistory| + 1 else DefaultMaxHistory
    ensures r.eventHistory[0] == message && r.eventHistory[1..] <= c.eventHistory
  {
    AddEventToHistory(c, message, DefaultMaxHistory)
  }
}
