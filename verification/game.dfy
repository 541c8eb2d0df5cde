/** The game driver: constructing a building, one production tick, and
    rebuilding a colony from an already-parsed save document. */
module Game {
  import opened Wrappers
  import opened Buildings
  import opened Colonies

  /** Production every colony gets per tick before building bonuses. */
  const BaseProduction: Ledger := map["Minerals" := 1.0, "Energy" := 1.0]

  /** The ledger a document without a `resources` field loads with. */
  const DefaultLoadedResources: Ledger := map["Minerals" := 0.0, "Energy" := 0.0]

  /** The turn number a document without a `turn_number` field loads with. */
  const DefaultLoadedTurn: int := 1

  datatype BuildResult = BuildResult(ok: bool, colony: Colony, missing: Ledger)

  /** The resources a cost is short of: exactly the entries the ledger does
      not cover, each with the amount still needed. */
  function Shortfall(l: Ledger, cost: map<string, real>): (r: Ledger)
    ensures forall k :: k in r <==> k in cost && Get(l, k) < cost[k]
    ensures forall k :: k in r ==> r[k] > 0.0 && Get(l, k) + r[k] == cost[k]
  {
    map k | k in cost && Get(l, k) < cost[k] :: cost[k] - Get(l, k)
  }

  /** A cost is affordable exactly when nothing is short. */
  lemma ShortfallEmptyIffAffordable(l: Ledger, cost: map<string, real>)
    ensures Shortfall(l, cost) == map[] <==> CanAfford(l, cost)
  {
    if !CanAfford(l, cost) {
      var k :| k in cost && cost[k] > Get(l, k);
      assert k in Shortfall(l, cost);
    }
  }

  /** Constructs one building of kind `k` when its cost is affordable: the
      cost is deducted and the building appended. Otherwise nothing changes
      and the shortfall is reported. */
  function BuildStructure(c: Colony, k: BuildingKind): (r: BuildResult)
    ensures r.ok <==> CanAfford(c.resources, Cost(k))
    ensures r.ok ==> r.colony.buildings == c.buildings + [k]
    ensures r.ok ==> r.colony.resources.Keys == c.resources.Keys
    ensures r.ok ==> forall res :: res in Cost(k) ==> r.colony.resources[res] == c.resources[res] - Cost(k)[res]
    ensures r.ok ==> forall res :: res in c.resources && res !in Cost(k) ==> r.colony.resources[res] == c.resources[res]
    ensures r.ok ==> r.colony.turnNumber == c.turnNumber && r.colony.eventHistory == c.eventHistory
    ensures r.ok ==> r.missing == map[]
    ensures !r.ok ==> r.colony == c && r.missing != map[]
    ensures !r.ok ==> forall res :: res in r.missing <==> res in Cost(k) && Get(c.resources, res) < Cost(k)[res]
    ensures !r.ok ==> forall res :: res in r.missing ==> r.missing[res] == Cost(k)[res] - Get(c.resources, res)
  {
    AffordablePositiveCostIsPresent(c.resources, Cost(k));
    ShortfallEmptyIffAffordable(c.resources, Cost(k));
    if CanAfford(c.resources, Cost(k)) then
      var spent := Spend(c.resources, Cost(k));
      BuildResult(true, AddBuilding(c.(resources := spent.ledger), k), map[])
    else
      BuildResult(false, c, Shortfall(c.resources, Cost(k)))
  }

  /** Building from a non-negative ledger keeps it non-negative. */
  lemma BuildKeepsNonNegative(c: Colony, k: BuildingKind)
    requires NonNegative(c.resources)
    ensures NonNegative(BuildStructure(c, k).colony.resources)
  {
  }

  /** Production per tick of resource `res`: base plus every building's bonus. */
  function Rate(bs: seq<BuildingKind>, res: string): real {
    Get(BaseProduction, res) + BonusFromCounts(bs, res)
  }

  /** One production tick: every resource with a positive rate grows by
      that rate; no other entry is touched or created. */
  function GenerateResources(c: Colony): (r: Colony)
    ensures r.buildings == c.buildings && r.turnNumber == c.turnNumber
    ensures r.eventHistory == c.eventHistory
    ensures forall res :: res in r.resources <==> res in c.resources || Rate(c.buildings, res) > 0.0
    ensures forall res :: (Get(r.resources, res) ==
      Get(c.resources, res) + (if Rate(c.buildings, res) > 0.0 then Rate(c.buildings, res) else 0.0))
    ensures forall res :: Get(r.resources, res) >= Get(c.resources, res)
  {
    var rates := MergeAdd(BaseProduction, ProductionBonuses(c.buildings));
    assert forall res :: Get(rates, res) == Rate(c.buildings, res);
    assert forall res :: Get(rates, res) > 0.0 ==> res in rates;
    var grown := map res | res in c.resources.Keys + rates.Keys && (res in c.resources || rates[res] > 0.0) ::
      if res in rates && rates[res] > 0.0 then Get(c.resources, res) + rates[res] else c.resources[res];
    c.(resources := grown)
  }

  /** Minerals and Energy always have a positive rate, so a tick always
      raises both by at least their base production. */
  lemma TickRaisesMineralsAndEnergy(c: Colony)
    ensures Get(GenerateResources(c).resources, "Minerals") >= Get(c.resources, "Minerals") + 1.0
    ensures Get(GenerateResources(c).resources, "Energy") >= Get(c.resources, "Energy") + 1.0
  {
    assert Rate(c.buildings, "Minerals") >= 1.0;
    assert Rate(c.buildings, "Energy") >= 1.0;
  }

  /** A tick keeps a non-negative ledger non-negative. */
  lemma TickKeepsNonNegative(c: Colony)
    requires NonNegative(c.resources)
    ensures NonNegative(GenerateResources(c).resources)
  {
    var r := GenerateResources(c).resources;
    forall res | res in r ensures r[res] >= 0.0 {
      assert Get(r, res) >= Get(c.resources, res) >= 0.0;
    }
  }

  /** The kinds named in a save document's building list, in order; names
      outside the name table are skipped. */
  function ReconstructBuildings(names: seq<string>): (r: seq<BuildingKind>)
    ensures |r| <= |names|
    ensures CountKind(r, Mine) == multiset(names)["Mine"]
    ensures CountKind(r, SolarPanel) == multiset(names)["Solar Panel"]
    ensures |r| == multiset(names)["Mine"] + multiset(names)["Solar Panel"]
  {
    if |names| == 0 then []
    else
      var rest := ReconstructBuildings(names[1..]);
      assert names == [names[0]] + names[1..];
      assert multiset(names) == multiset{names[0]} + multiset(names[1..]);
      match KindOfName(names[0])
      case Some(k) =>
        assert multiset([k] + rest) == multiset{k} + multiset(rest);
        [k] + rest
      case None => rest
  }

  /** Reconstruction works name by name, so it distributes over concatenation. */
  lemma {:induction false} ReconstructAppend(a: seq<string>, b: seq<string>)
    ensures ReconstructBuildings(a + b) == ReconstructBuildings(a) + ReconstructBuildings(b)
    decreases |a|
  {
    if |a| == 0 {
      assert a + b == b;
    } else {
      assert (a + b)[1..] == a[1..] + b;
      ReconstructAppend(a[1..], b);
    }
  }

  /** An unknown name anywhere in the list is skipped without effect. */
  lemma UnknownNameSkipped(a: seq<string>, name: string, b: seq<string>)
    requires KindOfName(name).None?
    ensures ReconstructBuildings(a + [name] + b) == ReconstructBuildings(a + b)
  {
    ReconstructAppend(a + [name], b);
    ReconstructAppend(a, [name]);
    ReconstructAppend(a, b);
  }

  /** Rebuilding from the names of a building list gives that list back. */
  lemma {:induction false} ReconstructNames(bs: seq<BuildingKind>)
    ensures ReconstructBuildings(Names(bs)) == bs
    decreases |bs|
  {
    if |bs| > 0 {
      NameRoundTrip(bs[0]);
      assert Names(bs)[1..] == Names(bs[1..]);
      ReconstructNames(bs[1..]);
    }
  }

  /** The colony a parsed save document describes. Absent fields take the
      loader's defaults; a present ledger replaces the starter ledger whole;
      the event log starts empty. */
  function LoadDocument(d: SaveDocument): (c: Colony)
    ensures c.turnNumber == d.turnNumber.GetOr(DefaultLoadedTurn)
    ensures c.resources == d.resources.GetOr(DefaultLoadedResources)
    ensures d.buildings.None? ==> c.buildings == []
    ensures d.buildings.Some? ==> |c.buildings| <= |d.buildings.value|
    ensures d.buildings.Some? ==> forall k: BuildingKind ::
      CountKind(c.buildings, k) == multiset(d.buildings.value)[Name(k)]
    ensures c.eventHistory == []
  {
    var names := d.buildings.GetOr([]);
    ReconstructCountsByName(names);
    Colony(d.resources.GetOr(DefaultLoadedResources), ReconstructBuildings(names), d.turnNumber.GetOr(DefaultLoadedTurn), [])
  }

  /** Each kind is rebuilt once per occurrence of its name. */
  lemma ReconstructCountsByName(names: seq<string>)
    ensures forall k: BuildingKind :: CountKind(ReconstructBuildings(names), k) == multiset(names)[Name(k)]
  {
  }

  /** Loading at the boundary: a document that could not be read or parsed
      gives no colony. */
  function LoadGame(parsed: Option<SaveDocument>): (r: Option<Colony>)
    ensures r.Some? <==> parsed.Some?
    ensures parsed.Some? ==> r.value == LoadDocument(parsed.value)
    ensures parsed.Some? ==> r.value.eventHistory == [] && r.value.resources == parsed.value.resources.GetOr(DefaultLoadedResources)
    ensures parsed.Some? ==> r.value.turnNumber == parsed.value.turnNumber.GetOr(DefaultLoadedTurn)
  {
    match parsed
    case None => None
    case Some(d) => Some(LoadDocument(d))
  }

  /** Saving then loading keeps the ledger, the building sequence and the
      turn number, and starts an empty event log. */
  lemma SaveLoadRoundTrip(c: Colony)
    ensures LoadGame(Some(ToDict(c))) == Some(c.(eventHistory := []))
  {
    ReconstructNames(c.buildings);
  }

  /** A document with no fields loads as an empty colony at turn 1 holding
      zero Minerals and zero Energy. */
  lemma EmptyDocumentDefaults()
    ensures LoadDocument(SaveDocument(None, None, None)) == Colony(map["Minerals" := 0.0, "Energy" := 0.0], [], 1, [])
  {
  }

  /** A fresh colony given 1000 Minerals can build a Mine and is left with 1000 Minerals. */
  lemma BuildMineScenario()
    ensures var c := NewColony(1).(resources := AddResource(NewColony(1).resources, "Minerals", 1000.0));
      var r := BuildStructure(c, Mine);
      r.ok && r.colony.resources["Minerals"] == 1000.0 && r.colony.buildings == [Mine]
  {
  }

  /** With one Mine, a tick adds 6 Minerals (1 base + 5 bonus) and 1 Energy. */
  lemma TickWithOneMineScenario(c: Colony)
    requires c.buildings == [Mine]
    ensures Get(GenerateResources(c).resources, "Minerals") == Get(c.resources, "Minerals") + 6.0
    ensures Get(GenerateResources(c).resources, "Energy") == Get(c.resources, "Energy") + 1.0
  {
    assert CountKind(c.buildings, Mine) == 1;
    assert CountKind(c.buildings, SolarPanel) == 0;
  }

  /** The starter ledger affords either building kind but not a Mine followed
      by a Solar Panel. */
  lemma StarterLedgerAffordsOneBuilding(t: int)
    ensures BuildStructure(NewColony(t), Mine).ok
    ensures BuildStructure(NewColony(t), SolarPanel).ok
    ensures !BuildStructure(BuildStructure(NewColony(t), Mine).colony, SolarPanel).ok
  {
    var afterMine := BuildStructure(NewColony(t), Mine).colony;
    assert Get(afterMine.resources, "Minerals") == 0.0;
  }
}
