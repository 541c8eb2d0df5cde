/** The event catalog. Each event kind's random draws are made by the
    caller and passed in, so applying an event is a deterministic change
    of the colony. Building damage, which the major event triggers, is an
    opaque step on the building list supplied by the caller. */
module Events {
  import opened Wrappers
  import opened Buildings
  import opened Colonies

  /** An event as constructed: the draws made by its constructor are fields. */
  datatype Event =
    | BasicEvent(name: string, description: string)
    | MinorResourceBoost(resource: string, amount: real)
    | SmallResourceDrain(resource: string, amount: real)
    | ProductionSpike(durationSeconds: int)
    | SolarFlare
    | MeteorStrikeWarning

  /** A choice a major event offers: the text shown and the key passed back. */
  datatype Choice = Choice(text: string, key: string)

  /** The draws an event's `apply` makes, one field per draw site. A branch
      that does not reach a draw site ignores its field. */
  datatype Draws = Draws(
    roll: real,           // random.random(), compared against the branch odds
    spikeMinerals: int,   // Production Spike's Minerals bonus
    spikeEnergy: int,     // Production Spike's Energy bonus
    flareLoss: int,       // Solar Flare's Energy loss
    salvage: int,         // Minerals gained by a successful defence
    defenseLoss: int,     // extra Energy lost by a failed defence
    impactLoss: int,      // Minerals lost when defence was unaffordable
    braceLoss: int)       // Minerals lost when bracing goes badly

  /** What an application reports, in place of the formatted message. */
  datatype Outcome =
    | Announced
    | Boosted(resource: string, amount: real)
    | Drained(resource: string, lost: real)
    | Surged(minerals: real, energy: real)
    | Flared(lost: real)
    | Defended(salvage: real)
    | DefenseFailed(lost: real)
    | ImpactUndefended(lost: real)
    | BracedUnharmed
    | BracedDamaged(lost: real)
    | NoEffect

  datatype EventResult = EventResult(colony: Colony, outcome: Outcome)

  /** The result of a clamped loss: the new ledger and the amount actually lost. */
  datatype Loss = Loss(ledger: Ledger, lost: real)

  const BoostResources: seq<string> := ["Minerals", "Energy", "Food"]
  const DrainResources: seq<string> := ["Minerals", "Energy"]
  const ShootDown: string := "shoot_down"
  const Brace: string := "brace"
  /** Energy spent up front on an attempt to shoot the meteors down. */
  const ShootDownCost: Ledger := map["Energy" := 50.0]
  /** Odds that a defence succeeds, and that bracing avoids damage. */
  const DefenseOdds: real := 0.60
  const BraceOdds: real := 0.30

  predicate IsMajor(e: Event) {
    e.MeteorStrikeWarning?
  }

  /** The choices an event offers; only a major event offers any. */
  function Choices(e: Event): (cs: seq<Choice>)
    ensures |cs| > 0 <==> IsMajor(e)
    ensures IsMajor(e) ==> |cs| == 2 && cs[0].key == ShootDown && cs[1].key == Brace
  {
    if IsMajor(e) then
      [Choice("Attempt to shoot down meteors (Cost: 50 Energy, Risky)", ShootDown),
       Choice("Brace for impact (Minimal cost, damage likely)", Brace)]
    else []
  }

  /** The ranges the constructors draw from. */
  predicate ValidEvent(e: Event) {
    match e
    case MinorResourceBoost(res, amount) => res in BoostResources && 25.0 <= amount <= 75.0
    case SmallResourceDrain(res, amount) => res in DrainResources && 10.0 <= amount <= 30.0
    case ProductionSpike(seconds) => 20 <= seconds <= 60
    case _ => true
  }

  /** The ranges `apply` draws from. */
  predicate ValidDraws(d: Draws) {
    && 0.0 <= d.roll < 1.0
    && 10 <= d.spikeMinerals <= 30
    && 5 <= d.spikeEnergy <= 20
    && 20 <= d.flareLoss <= 40
    && 20 <= d.salvage <= 50
    && 30 <= d.defenseLoss <= 60
    && 50 <= d.impactLoss <= 100
    && 25 <= d.braceLoss <= 75
  }

  /** A Minor Resource Boost: `pick` chooses among Minerals, Energy, Food
      and `draw` is the integer amount. */
  function NewMinorResourceBoost(pick: nat, draw: int): (e: Event)
    requires pick < |BoostResources| && 25 <= draw <= 75
    ensures e.MinorResourceBoost? && ValidEvent(e)
    ensures e.resource == BoostResources[pick] && e.amount == draw as real
  {
    MinorResourceBoost(BoostResources[pick], draw as real)
  }

  /** A Small Resource Drain: `pick` chooses between Minerals and Energy
      and `draw` is the integer amount. */
  function NewSmallResourceDrain(pick: nat, draw: int): (e: Event)
    requires pick < |DrainResources| && 10 <= draw <= 30
    ensures e.SmallResourceDrain? && ValidEvent(e)
    ensures e.resource == DrainResources[pick] && e.amount == draw as real
  {
    SmallResourceDrain(DrainResources[pick], draw as real)
  }

  /** A Production Spike lasting the drawn number of seconds. */
  function NewProductionSpike(seconds: int): (e: Event)
    requires 20 <= seconds <= 60
    ensures e.ProductionSpike? && ValidEvent(e) && !IsMajor(e)
    ensures e.durationSeconds == seconds
  {
    ProductionSpike(seconds)
  }

  /** Resources other than those in `names` read the same in both ledgers. */
  ghost predicate AgreeOutside(a: Ledger, b: Ledger, names: set<string>) {
    forall k :: k !in names ==> Get(a, k) == Get(b, k)
  }

  /** Removes up to `amount` of `name`, never taking more than is held:
      the shared clamped-loss step of the draining effects. */
  function ClampedLoss(l: Ledger, name: string, amount: real): (r: Loss)
    ensures r.lost == Min(amount, Get(l, name))
    ensures r.ledger.Keys == l.Keys
    ensures forall k :: k in l && k != name ==> r.ledger[k] == l[k]
    ensures r.lost > 0.0 ==> Get(r.ledger, name) == Get(l, name) - r.lost
    ensures r.lost <= 0.0 ==> r.ledger == l
    ensures 0.0 <= amount && 0.0 <= Get(l, name) ==>
      Get(r.ledger, name) == Max(0.0, Get(l, name) - amount) && Get(r.ledger, name) >= 0.0
  {
    var current := Get(l, name);
    var actual := Min(amount, current);
    if actual > 0.0 then Loss(l[name := Max(0.0, current - actual)], actual)
    else Loss(l, actual)
  }

  /** Adds the boost amount to the chosen resource. */
  function ApplyMinorResourceBoost(c: Colony, resource: string, amount: real): (r: EventResult)
    ensures r.colony.turnNumber == c.turnNumber && r.colony.eventHistory == c.eventHistory
    ensures Get(r.colony.resources, resource) == Get(c.resources, resource) + amount
    ensures AgreeOutside(r.colony.resources, c.resources, {resource})
    ensures r.colony.buildings == c.buildings
    ensures r.outcome == Boosted(resource, amount)
  {
    EventResult(c.(resources := AddResource(c.resources, resource, amount)), Boosted(resource, amount))
  }

  /** Drains the chosen resource by up to the drain amount, clamped at zero. */
  function ApplySmallResourceDrain(c: Colony, resource: string, amount: real): (r: EventResult)
    ensures r.colony.turnNumber == c.turnNumber && r.colony.eventHistory == c.eventHistory
    ensures r.outcome == Drained(resource, Min(amount, Get(c.resources, resource)))
    ensures Min(amount, Get(c.resources, resource)) <= 0.0 ==> r.colony == c
    ensures 0.0 <= amount && 0.0 <= Get(c.resources, resource) ==>
      Get(r.colony.resources, resource) == Max(0.0, Get(c.resources, resource) - amount)
    ensures r.colony.resources.Keys == c.resources.Keys
    ensures AgreeOutside(r.colony.resources, c.resources, {resource})
    ensures r.colony.buildings == c.buildings
  {
    var loss := ClampedLoss(c.resources, resource, amount);
    EventResult(c.(resources := loss.ledger), Drained(resource, loss.lost))
  }

  /** Grants the drawn one-time Minerals and Energy bonuses. */
  function ApplyProductionSpike(c: Colony, minerals: int, energy: int): (r: EventResult)
    ensures r.colony.turnNumber == c.turnNumber && r.colony.eventHistory == c.eventHistory
    requires 10 <= minerals <= 30 && 5 <= energy <= 20
    ensures Get(r.colony.resources, "Minerals") == Get(c.resources, "Minerals") + minerals as real
    ensures Get(r.colony.resources, "Energy") == Get(c.resources, "Energy") + energy as real
    ensures 10.0 <= Get(r.colony.resources, "Minerals") - Get(c.resources, "Minerals") <= 30.0
    ensures 5.0 <= Get(r.colony.resources, "Energy") - Get(c.resources, "Energy") <= 20.0
    ensures r.outcome == Surged(Get(r.colony.resources, "Minerals") - Get(c.resources, "Minerals"),
                                Get(r.colony.resources, "Energy") - Get(c.resources, "Energy"))
    ensures AgreeOutside(r.colony.resources, c.resources, {"Minerals", "Energy"})
    ensures r.colony.buildings == c.buildings
  {
    var l := AddResource(AddResource(c.resources, "Minerals", minerals as real), "Energy", energy as real);
    EventResult(c.(resources := l), Surged(minerals as real, energy as real))
  }

  /** Drains up to the drawn amount of Energy, clamped at zero. */
  function ApplySolarFlare(c: Colony, lostEnergy: int): (r: EventResult)
    ensures r.colony.turnNumber == c.turnNumber && r.colony.eventHistory == c.eventHistory
    requires 20 <= lostEnergy <= 40
    ensures r.outcome == Flared(Min(lostEnergy as real, Get(c.resources, "Energy")))
    ensures Get(c.resources, "Energy") <= 0.0 ==> r.colony == c
    ensures 0.0 <= Get(c.resources, "Energy") ==>
      Get(r.colony.resources, "Energy") == Max(0.0, Get(c.resources, "Energy") - lostEnergy as real)
    ensures 0.0 <= Get(c.resources, "Energy") ==> Get(r.colony.resources, "Energy") >= 0.0
    ensures AgreeOutside(r.colony.resources, c.resources, {"Energy"})
    ensures r.colony.buildings == c.buildings
  {
    var loss := ClampedLoss(c.resources, "Energy", lostEnergy as real);
    EventResult(c.(resources := loss.ledger), Flared(loss.lost))
  }

  /** Resolves the Meteor Strike Warning with the player's choice key.
      Shooting down costs 50 Energy; when that is unaffordable the colony
      takes an undefended impact instead. Bracing risks a Minerals loss.
      Any other key changes nothing. */
  function ApplyMeteorStrike(c: Colony, choice: Option<string>, d: Draws,
                             damage: seq<BuildingKind> -> seq<BuildingKind>): (r: EventResult)
    requires ValidDraws(d)
    ensures choice != Some(ShootDown) && choice != Some(Brace) ==> r == EventResult(c, NoEffect)
    ensures choice == Some(ShootDown) && Get(c.resources, "Energy") >= 50.0 && d.roll < DefenseOdds ==>
      && Get(r.colony.resources, "Energy") == Get(c.resources, "Energy") - 50.0
      && Get(r.colony.resources, "Minerals") == Get(c.resources, "Minerals") + d.salvage as real
      && 20.0 <= Get(r.colony.resources, "Minerals") - Get(c.resources, "Minerals") <= 50.0
      && r.colony.buildings == c.buildings
      && r.outcome == Defended(d.salvage as real)
    ensures choice == Some(ShootDown) && Get(c.resources, "Energy") >= 50.0 && d.roll >= DefenseOdds ==>
      && Get(r.colony.resources, "Energy") == Max(0.0, Get(c.resources, "Energy") - 50.0 - d.defenseLoss as real)
      && Get(r.colony.resources, "Minerals") == Get(c.resources, "Minerals")
      && r.colony.buildings == damage(c.buildings)
      && r.outcome == DefenseFailed(Min(d.defenseLoss as real, Get(c.resources, "Energy") - 50.0))
    ensures choice == Some(ShootDown) && Get(c.resources, "Energy") < 50.0 ==>
      && Get(r.colony.resources, "Energy") == Get(c.resources, "Energy")
      && (0.0 <= Get(c.resources, "Minerals") ==>
            Get(r.colony.resources, "Minerals") == Max(0.0, Get(c.resources, "Minerals") - d.impactLoss as real))
      && (Get(c.resources, "Minerals") <= 0.0 ==> r.colony.resources == c.resources)
      && r.colony.buildings == damage(c.buildings)
      && r.outcome == ImpactUndefended(Min(d.impactLoss as real, Get(c.resources, "Minerals")))
    ensures choice == Some(Brace) && d.roll < BraceOdds ==> r == EventResult(c, BracedUnharmed)
    ensures choice == Some(Brace) && d.roll >= BraceOdds ==>
      && Get(r.colony.resources, "Energy") == Get(c.resources, "Energy")
      && (0.0 <= Get(c.resources, "Minerals") ==>
            Get(r.colony.resources, "Minerals") == Max(0.0, Get(c.resources, "Minerals") - d.braceLoss as real))
      && (Get(c.resources, "Minerals") <= 0.0 ==> r.colony.resources == c.resources)
      && r.colony.buildings == damage(c.buildings)
      && r.outcome == BracedDamaged(Min(d.braceLoss as real, Get(c.resources, "Minerals")))
    ensures AgreeOutside(r.colony.resources, c.resources, {"Minerals", "Energy"})
    ensures r.colony.turnNumber == c.turnNumber && r.colony.eventHistory == c.eventHistory
  {
    var l := c.resources;
    if choice == Some(ShootDown) then
      if CanAfford(l, ShootDownCost) then
        AffordablePositiveCostIsPresent(l, ShootDownCost);
        var afterCost := Spend(l, ShootDownCost).ledger;
        if d.roll < DefenseOdds then
          EventResult(c.(resources := AddResource(afterCost, "Minerals", d.salvage as real)), Defended(d.salvage as real))
        else
          var loss := ClampedLoss(afterCost, "Energy", d.defenseLoss as real);
          EventResult(c.(resources := loss.ledger, buildings := damage(c.buildings)), DefenseFailed(loss.lost))
      else
        var loss := ClampedLoss(l, "Minerals", d.impactLoss as real);
        EventResult(c.(resources := loss.ledger, buildings := damage(c.buildings)), ImpactUndefended(loss.lost))
    else if choice == Some(Brace) then
      if d.roll < BraceOdds then EventResult(c, BracedUnharmed)
      else
        var loss := ClampedLoss(l, "Minerals", d.braceLoss as real);
        EventResult(c.(resources := loss.ledger, buildings := damage(c.buildings)), BracedDamaged(loss.lost))
    else
      EventResult(c, NoEffect)
  }

  /** Applies an event. Background events ignore the choice key; the base
      event changes nothing. */
  function Apply(e: Event, c: Colony, choice: Option<string>, d: Draws,
                 damage: seq<BuildingKind> -> seq<BuildingKind>): (r: EventResult)
    requires ValidDraws(d)
    ensures e.BasicEvent? ==> r == EventResult(c, Announced)
    ensures !IsMajor(e) ==> r.colony.buildings == c.buildings
    ensures r.colony.turnNumber == c.turnNumber && r.colony.eventHistory == c.eventHistory
  {
    match e
    case BasicEvent(_, _) => EventResult(c, Announced)
    case MinorResourceBoost(res, amount) => ApplyMinorResourceBoost(c, res, amount)
    case SmallResourceDrain(res, amount) => ApplySmallResourceDrain(c, res, amount)
    case ProductionSpike(_) => ApplyProductionSpike(c, d.spikeMinerals, d.spikeEnergy)
    case SolarFlare => ApplySolarFlare(c, d.flareLoss)
    case MeteorStrikeWarning => ApplyMeteorStrike(c, choice, d, damage)
  }

  /** Only the major event reads the choice key. */
  lemma ChoiceOnlyMattersForMajor(e: Event, c: Colony, a: Option<string>, b: Option<string>, d: Draws,
                                  damage: seq<BuildingKind> -> seq<BuildingKind>)
    requires ValidDraws(d) && !IsMajor(e)
    ensures Apply(e, c, a, d, damage) == Apply(e, c, b, d, damage)
  {
  }

  /** No event with in-range draws drives a non-negative ledger negative:
      boosts add positive amounts and every loss is clamped at zero. */
  lemma ApplyKeepsNonNegative(e: Event, c: Colony, choice: Option<string>, d: Draws,
                              damage: seq<BuildingKind> -> seq<BuildingKind>)
    requires ValidEvent(e) && ValidDraws(d) && NonNegative(c.resources)
    ensures NonNegative(Apply(e, c, choice, d, damage).colony.resources)
  {
  }
}
