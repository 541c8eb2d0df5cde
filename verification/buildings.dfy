/** The building catalog: the two constructible kinds, their display names,
    their construction costs and their per-tick production bonuses. */
module Buildings {
  import opened Wrappers

  datatype BuildingKind = Mine | SolarPanel

  /** The display name, which is also the key under which a save document
      records a building. */
  function Name(k: BuildingKind): string {
    match k
    case Mine => "Mine"
    case SolarPanel => "Solar Panel"
  }

  /** The resources spent to construct one building of kind `k`. */
  function Cost(k: BuildingKind): (c: map<string, real>)
    ensures forall r :: r in c ==> c[r] > 0.0
    ensures "Minerals" in c
  {
    match k
    case Mine => map["Minerals" := 50.0]
    case SolarPanel => map["Minerals" := 30.0, "Energy" := 20.0]
  }

  /** What one building of kind `k` adds to each production tick. */
  function ProductionBonus(k: BuildingKind): (p: map<string, real>)
    ensures |p.Keys| == 1
    ensures forall r :: r in p ==> p[r] > 0.0
  {
    match k
    case Mine => map["Minerals" := 5.0]
    case SolarPanel => map["Energy" := 3.0]
  }

  /** Lookup in the name-to-kind table used when a saved game is rebuilt;
      names outside the table give `None`. */
  function KindOfName(name: string): (r: Option<BuildingKind>)
    ensures r.Some? ==> Name(r.value) == name
    ensures r.None? <==> forall k: BuildingKind :: Name(k) != name
  {
    if name == "Mine" then Some(Mine)
    else if name == "Solar Panel" then Some(SolarPanel)
    else None
  }

  /** Looking up a kind's own name yields that kind, so names identify kinds. */
  lemma NameRoundTrip(k: BuildingKind)
    ensures KindOfName(Name(k)) == Some(k)
    ensures forall k': BuildingKind :: Name(k') == Name(k) ==> k' == k
  {
  }

  /** Mines produce only Minerals and Solar Panels produce only Energy. */
  lemma ProducesOneResource()
    ensures ProductionBonus(Mine).Keys == {"Minerals"} && ProductionBonus(Mine)["Minerals"] > 0.0
    ensures ProductionBonus(SolarPanel).Keys == {"Energy"} && ProductionBonus(SolarPanel)["Energy"] > 0.0
  {
  }
}
