/**
 * The store's resources as the source shares them. Copying a planet state with object spread
 * copies only the reference to its `resources` object, so the live planet and the constant
 * starting planet can hold one and the same resources object. The generation step writes food
 * and energy into that object in place, which then changes the starting planet too, and a later
 * reset copies the changed values back.
 *
 * This module follows object identity for the resources only: `initial` is the current
 * content of the starting planet's resources object, and `shared` says whether the live
 * planet's resources object is that same object. Everything else follows the value model of
 * the store, which is the corrected behaviour the rest of the project uses.
 */
module ResourceAliasing {
  import opened Basics
  import opened Planet
  import opened GameStore

  datatype AliasedStore = AliasedStore(game: GameState, initial: Resources, shared: bool)

  /** While shared, the live resources and the starting planet's resources are one object. */
  predicate Coherent(a: AliasedStore) {
    a.shared ==> a.game.planet.resources == a.initial
  }

  /** The store as created: the live planet is a spread copy of the starting one, so it shares its resources. */
  function Created(): (a: AliasedStore)
    ensures Coherent(a) && a.shared
    ensures a.game == InitialGame()
  {
    AliasedStore(InitialGame(), InitialPlanet().resources, true)
  }

  /**
   * A placement as written: a row with resources builds a fresh resources object, ending the
   * sharing; any other placement copies the planet and keeps the shared object.
   */
  function AliasedPlace(a: AliasedStore, position: Position, now: int): (r: AliasedStore)
    ensures r.game == PlaceElement(a.game, position, now)
    ensures r.initial == a.initial
    ensures Coherent(a) ==> Coherent(r)
  {
    var g := PlaceElement(a.game, position, now);
    if CanPlace(a.game) && EffectOf(a.game.selected.value).resources.Some? then
      AliasedStore(g, a.initial, false)
    else
      a.(game := g)
  }

  /**
   * The generation step as written: food and energy are written into the live resources
   * object in place, so while it is shared the starting planet's resources change with it.
   */
  function AliasedAdvance(a: AliasedStore): (r: AliasedStore)
    ensures r.game == AdvanceGeneration(a.game)
    ensures r.shared == a.shared
    ensures !a.shared ==> r.initial == a.initial
    ensures Coherent(a) ==> Coherent(r)
  {
    var g := AdvanceGeneration(a.game);
    var initial :=
      if a.shared then a.initial.(food := g.planet.resources.food, energy := g.planet.resources.energy)
      else a.initial;
    AliasedStore(g, initial, a.shared)
  }

  /** `updatePlanetState` as written: a spread copy with a new health, still sharing the resources object. */
  function AliasedUpdate(a: AliasedStore): (r: AliasedStore)
    ensures r.game == UpdatePlanetState(a.game)
    ensures Coherent(a) ==> Coherent(r)
  {
    a.(game := UpdatePlanetState(a.game))
  }

  /**
   * A reset as written: a spread copy of the starting planet, whose resources are whatever its
   * shared object holds now, and which the live planet shares again.
   */
  function AliasedReset(a: AliasedStore): (r: AliasedStore)
    ensures r.game.planet.resources == a.initial
    ensures r.game.(planet := r.game.planet.(resources := InitialPlanet().resources)) == ResetGame(a.game)
    ensures Coherent(r) && r.shared
  {
    var g := ResetGame(a.game);
    AliasedStore(g.(planet := g.planet.(resources := a.initial)), a.initial, true)
  }

  /**
   * The defect: create the store, advance one generation and reset. The reset planet has
   * food 45 and energy 47 instead of the starting 50 and 50.
   */
  lemma ResetAfterAdvanceKeepsUpkeep()
    ensures var r := AliasedReset(AliasedAdvance(Created()));
            && r.game.planet.resources == Resources(45.0, 47.0, 50.0)
            && r.game.planet.resources != InitialPlanet().resources
  {
  }

  /** The same session under value semantics: the reset restores food and energy to 50. */
  lemma ResetAfterAdvanceRestores()
    ensures ResetGame(AdvanceGeneration(InitialGame())).planet.resources == Resources(50.0, 50.0, 50.0)
  {
  }
}
