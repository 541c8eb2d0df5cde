# Idle colony simulation core in Dafny

This project models the simulation core of a small single-player colony game.
A colony holds a resource ledger, an ordered list of buildings, a turn number
and a bounded event log, newest entry first. The buildings are Mines and Solar
Panels. The player constructs buildings when the colony can pay for them.
Each production tick adds base production plus every building's bonus. A
colony can be saved to a document and rebuilt from one. Random events boost
or drain resources. The one major event, the Meteor Strike Warning, asks the
player to choose between shooting the meteors down and bracing for impact.

Everything is a pure function over immutable values:

- `Buildings` (`buildings.dfy`) is the catalog of the two building kinds: their
  names, costs and production bonuses, and the name table used on load.
- `Colonies` (`colony.dfy`) holds the ledger (`map<string, real>`, where an
  absent name reads as 0), the `Colony` record, the all-or-nothing spend, the
  summing of production bonuses, the save-document shape and the bounded log.
- `Game` (`game.py`'s logic, in `game.dfy`) covers building, the production
  tick and rebuilding a colony from an already-parsed save document.
- `Events` (`events.dfy`) has one constructor per event kind and one apply
  function per kind. Every random draw is an explicit parameter:
  `random.choice` is an index, `randint` is an `int` in its range and
  `random.random()` is a `roll` in [0, 1).
- `Wrappers` (`wrappers.dfy`) is the `Option` type, used for absent document
  fields and failed loads.

Quantities are exact `real`s. The source's mix of Python ints and floats,
and its float rounding, are not modelled.

Behaviour of the code worth noting:

- A loaded document that lacks `resources` gets `{Minerals: 0, Energy: 0}`.
  It does not get the starter ledger of a new colony. A missing
  `turn_number` becomes 1.
- The document holds only `resources`, `buildings` (a list of names) and
  `turn_number`. Buildings have no level.
- When Energy is short, `shoot_down` does not run the `brace` branch. It
  always loses a clamped 50–100 Minerals and damages a building, with no
  30% chance of escaping.
- A production tick adds one fixed step: Minerals 1 and Energy 1 plus the
  building bonuses. It takes no elapsed time, and Food has no base rate.

## Model

| member | source | states |
|---|---|---|
| `Colonies.NewColony` | colony.py:4-14 | A new colony holds exactly Minerals 50, Energy 60, Food 10 and ResearchPoints 0. It has no buildings, the given turn number and an empty log, and its ledger is non-negative |
| `Colonies.DefaultColony` | colony.py:4-14 | With no turn number given, a new colony starts at turn 1 with the starter ledger, no buildings and an empty log |
| `Colonies.AddResource` | colony.py:19-25 | An existing entry grows by exactly `amount`. An absent entry is created equal to `amount`. Every other entry keeps its value, and the only new name is the one added |
| `Colonies.HasEnoughResources` | colony.py:33-37 | The early-exit loop over the cost entries returns true iff every cost entry is at most the ledger's get-or-zero value (`CanAfford`) |
| `Colonies.Spend` | colony.py:39-44 | Succeeds iff the cost is affordable. On failure the ledger is unchanged. On success each cost entry drops by its cost and ends ≥ 0, other entries are untouched and no name is added. Requires that an affordable cost names only held resources, because the source indexes directly |
| `Colonies.AffordablePositiveCostIsPresent` | colony.py:35-42 | When every cost entry is positive, an affordable cost names only resources the ledger holds, so the direct indexing in the spend loop cannot fail |
| `Colonies.SpendKeepsNonNegative` | colony.py:39-44 | Spending from a non-negative ledger leaves it non-negative |
| `Colonies.MergeAdd` | game.py:62-68 | The pointwise sum of two ledgers covers the union of their names, and each get-or-zero value is the sum of the two |
| `Colonies.ProductionBonuses` | colony.py:46-52 | For each resource, the bonus map gives the number of Mines times a Mine's bonus plus the number of Solar Panels times a Solar Panel's bonus. A resource is present iff some building present produces it, and no buildings gives the empty map |
| `Colonies.BonusesStep` | colony.py:48-51 | Adding one building's bonus to the running totals gives the totals for the extended building list, for both values and present names |
| `Colonies.AddBuilding` | colony.py:27-28 | Exactly one building is appended at the end. The earlier buildings, the ledger, the turn and the log are unchanged |
| `Colonies.Names` | colony.py:57 | The name list has one entry per building, and entry i is building i's display name |
| `Colonies.ToDict` | colony.py:54-59 | The document carries the colony's ledger, its turn number and its building names in building order |
| `Colonies.SlicePrefix` | colony.py:63 | Python's `s[:n]` is always a prefix of `s`. Its length is min(n, \|s\|) for n ≥ 0 and max(0, \|s\| + n) for negative n |
| `Colonies.AddEventToHistory` | colony.py:61-63 | The new log is a prefix of the message followed by the old log, and its length is at most `maxHistory` when that is ≥ 0. When `maxHistory` ≥ 1, the message is at index 0 and entries 1.. are a prefix of the old log. The new length is exactly min(\|old\| + 1, `maxHistory`) when `maxHistory` ≥ 0, so only the oldest entries beyond the bound are dropped. Nothing but the log changes |
| `Colonies.LogEvent` | colony.py:61-63 | Under the default bound of 10, the message is at index 0, the old log follows as a prefix, the length is min(\|old\| + 1, 10), and nothing but the log changes |
| `Buildings.Cost` | buildings.py:6-13 | Every construction cost entry is strictly positive, and every kind costs Minerals |
| `Buildings.ProductionBonus` | buildings.py:9-14 | Each kind's production bonus names exactly one resource, with a strictly positive amount |
| `Buildings.ProducesOneResource` | buildings.py:9-14 | Mines produce only Minerals and Solar Panels produce only Energy, each by a positive amount |
| `Buildings.KindOfName` | game.py:7-11 | The name table maps a name to a kind whose display name it is. It gives nothing exactly when no kind has that name |
| `Buildings.NameRoundTrip` | game.py:7-11 | Looking up a kind's own name returns that kind, and no two kinds share a name |
| `Game.Shortfall` | game.py:43-48 | The reported shortfall names exactly the cost entries the ledger does not cover. Each amount is positive and equals required minus current |
| `Game.ShortfallEmptyIffAffordable` | game.py:30-48 | Nothing is short iff the cost is affordable |
| `Game.BuildStructure` | game.py:13-49 | Succeeds iff the kind's cost is affordable. On success the cost is deducted, other entries are kept, one building of that kind is appended and no shortfall is reported. On failure the colony is unchanged and the non-empty shortfall lists exactly the uncovered cost entries, each with the amount required minus current |
| `Game.BuildKeepsNonNegative` | game.py:30-36 | Building from a non-negative ledger keeps it non-negative |
| `Game.StarterLedgerAffordsOneBuilding` | game.py:30-49 | A new colony can build a Mine or a Solar Panel, but after a Mine it cannot afford a Solar Panel |
| `Game.BuildMineScenario` | game.py:26-36 | A new colony given 1000 extra Minerals builds a Mine, keeps 1000 Minerals and owns exactly one Mine |
| `Game.GenerateResources` | game.py:51-75 | Each resource's get-or-zero value grows by its rate (base plus building bonus) when that rate is positive, and is otherwise unchanged. So no resource decreases, and a name is added only if its rate is positive. Buildings, turn and log are kept |
| `Game.TickRaisesMineralsAndEnergy` | game.py:56-75 | Every tick raises Minerals and Energy by at least their base production of 1 |
| `Game.TickKeepsNonNegative` | game.py:73-75 | A tick keeps a non-negative ledger non-negative |
| `Game.TickWithOneMineScenario` | game.py:56-75 | With one Mine, a tick adds exactly 6 Minerals and 1 Energy |
| `Game.ReconstructBuildings` | game.py:111-119 | Rebuilding gives one Mine per "Mine" name and one Solar Panel per "Solar Panel" name. It is no longer than the name list, and every other name is skipped |
| `Game.ReconstructAppend` | game.py:112-119 | Names are processed one by one in document order, so rebuilding a concatenation concatenates the rebuilt lists |
| `Game.UnknownNameSkipped` | game.py:113-119 | An unknown name anywhere in the list has no effect on the rebuilt buildings |
| `Game.ReconstructNames` | game.py:111-117 | Rebuilding from a building list's names returns exactly that list |
| `Game.ReconstructCountsByName` | game.py:111-119 | For every kind, the number rebuilt equals the number of times its name occurs |
| `Game.LoadDocument` | game.py:104-119 | The turn defaults to 1. The ledger is the document's when present (replacing the starter ledger whole) and {Minerals 0, Energy 0} otherwise. No building list gives no buildings, the per-kind counts follow the names, and the log starts empty |
| `Game.LoadGame` | game.py:91-131 | A document that could not be read or parsed gives no colony. A parsed one always gives the colony `LoadDocument` rebuilds from it: the document's or the default ledger and turn, the rebuilt buildings, and an empty log |
| `Game.SaveLoadRoundTrip` | game.py:104-122 | Loading a colony's own document gives back its ledger, building sequence and turn number, with an empty log |
| `Game.EmptyDocumentDefaults` | game.py:105-111 | A document with no fields loads as turn 1, {Minerals 0, Energy 0}, no buildings and an empty log |
| `Events.Choices` | events.py:104-108 | An event offers choices iff it is major. The major event's choice keys are exactly "shoot_down" then "brace" |
| `Events.NewMinorResourceBoost` | events.py:16-19 | The boost names the picked one of Minerals, Energy or Food, with the drawn amount in [25, 75] |
| `Events.NewSmallResourceDrain` | events.py:31-34 | The drain names the picked one of Minerals or Energy, with the drawn amount in [10, 30] |
| `Events.NewProductionSpike` | events.py:64-65 | The spike stores exactly the drawn duration, which lies in [20, 60] seconds, and the spike is not major |
| `Events.ClampedLoss` | events.py:41-59 | The amount lost is min(amount, current). Only the drained entry changes, and only when that loss is positive. From a non-negative value the result is max(0, current − amount) ≥ 0. No name is added |
| `Events.ApplyMinorResourceBoost` | events.py:25-28 | The chosen resource grows by exactly the boost amount. No other resource, the buildings, the turn and the log change |
| `Events.ApplySmallResourceDrain` | events.py:40-61 | The reported loss is min(amount, current). From a non-negative value the resource becomes max(0, current − amount). When that loss is not positive (the amount or the current value is ≤ 0), the colony is unchanged. Other resources, the names present, the buildings, the turn and the log are unchanged |
| `Events.ApplyProductionSpike` | events.py:71-81 | Minerals grow by exactly the Minerals draw (between 10 and 30) and Energy by exactly the Energy draw (between 5 and 20), both reported. Other resources, the buildings, the turn and the log are unchanged |
| `Events.ApplySolarFlare` | events.py:90-96 | The reported loss is min(lost, Energy). From a non-negative value Energy becomes max(0, Energy − lost) and never goes below zero. From Energy ≤ 0 the colony is unchanged. Other resources, the buildings, the turn and the log are unchanged |
| `Events.ApplyMeteorStrike` | events.py:110-151 | See "Meteor Strike branches" below this table |
| `Events.Apply` | events.py:10-13 | The base event changes nothing. Background events never touch the buildings. No event changes the turn or the log |
| `Events.ChoiceOnlyMattersForMajor` | events.py:10-13 | For every non-major event, the result does not depend on the choice key |
| `Events.ApplyKeepsNonNegative` | events.py:40-151 | With in-range draws, no event drives a non-negative ledger negative |

### Meteor Strike branches

`Events.ApplyMeteorStrike` states one case per branch of the code:

- `shoot_down` with Energy ≥ 50 and a successful roll (< 0.60): Energy drops by exactly 50. Minerals gain the salvage, which is between 20 and 50. The buildings are kept.
- `shoot_down` with Energy ≥ 50 and a failed roll: Energy becomes max(0, Energy − 50 − loss). Minerals are unchanged. The buildings are damaged.
- `shoot_down` with Energy < 50: Energy is unchanged. Minerals lose a clamped 50–100, and stay as they were when they start at 0 or below. The buildings are damaged.
- `brace` with a roll below 0.30: nothing changes.
- `brace` with any other roll: Minerals lose a clamped 25–75, and stay as they were when they start at 0 or below. The buildings are damaged.
- Any other key: nothing changes.

In every branch, only the Minerals and Energy entries of the ledger can change.

## Left out

- The interactive loop, the HTTP handlers and the browser front end (`main.py`, `web_api.py`, `web-ui/`) are left out. They are input/output plumbing around one global colony.
- `research.py` is left out. It is a static table that nothing in the modelled code reads.
- `save_game` and the file side of `load_game` are left out: the existence check, `open`, `json.load` and the exception handlers. Loading starts from an already-parsed `SaveDocument`. An unreadable or corrupt file is the `None` input of `LoadGame`.
- Save documents whose fields have the wrong JSON type are not modelled. Examples are a string `turn_number`, an explicit `null`, or a non-string entry in `buildings`. In the source these either pass through unchecked or hit the catch-all handler.
- `damage_random_building` is not part of this model. Each damage branch applies a caller-supplied function `damage` to the building list, and nothing else about its effect is assumed.
- colony.py does not define `damage_random_building`. Called as written, the damage branches would stop with an AttributeError after changing resources. The model treats the call as a completed opaque step.
- Random choice, `randint`, `random.random()` and the odds are not drawn inside the model. They are parameters constrained to the source's ranges, and the 0.60 and 0.30 thresholds are compared against the roll.
- Messages are not modelled: the formatted outcome strings, `print` output and the event descriptions. Each application reports a structured `Outcome` with the same amounts the message would print.
- Game.Shortfall: the source prints the missing amounts in the cost's insertion order. The model returns them as a map, so that order is not stated.
- Game.BuildStructure: the source's "spend failed after check" branch (game.py:37-40) cannot be reached, because an affordable catalog cost always spends. It is not modelled as a branch.
- Colonies.ProductionBonuses: the `hasattr(building, 'production_bonus')` guard is always true for the two catalog kinds. The base `Building` class, which lacks a bonus, is never constructed by the modelled code.
- Events.ApplyMinorResourceBoost: the frame statement compares get-or-zero values, so it does not say which other names are present. Only the boosted name can be added.
- Events.ApplyProductionSpike: the frame statement compares get-or-zero values, in the same way as for Events.ApplyMinorResourceBoost.
- Events.ApplySolarFlare: the frame statement compares get-or-zero values.
- Events.ApplyMeteorStrike: the frame statement compares get-or-zero values, so it does not say which other names are present.
- `to_dict` returns the colony's own resource dictionary, not a copy. Aliasing does not arise with immutable values.
- Events.ChoiceOnlyMattersForMajor: the model gives every event one `Apply` signature that takes a choice key. In the source, only the base `Event.apply` and the Meteor Strike's `apply` accept one. The background events' `apply(self, colony)` (events.py:25, 40, 71, 90) would raise a TypeError if given a key, so the lemma is a fact about the model's signature, not about every source class.
- The `print` warning that `add_resource` emits when it creates a new name is not modelled.
