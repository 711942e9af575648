/**
 * The game store: the session record around the planet and the seven actions that change it.
 * Each action is a pure function from the store before to the store after.
 */
module GameStore {
  import opened Basics
  import opened Planet

  /** Where an element was dropped; recorded as given, never checked. */
  datatype Position = Position(x: real, y: real, z: real)

  /**
   * An element's id: its kind and the clock reading at placement. Two placements of one kind
   * within the same clock tick get the same id, so ids are not unique.
   */
  datatype ElementId = ElementId(kind: ElementKind, timestamp: int)

  datatype PlacedElement = PlacedElement(
    id: ElementId,
    kind: ElementKind,
    position: Position,
    generationPlaced: int)

  /** The per-generation action cap the store is created with. */
  const MaxActions: nat := 5

  datatype GameState = GameState(
    planet: PlanetState,
    emotion: Emotion,
    placed: seq<PlacedElement>,
    selected: Option<ElementKind>,
    actionsThisGeneration: nat,
    maxActionsPerGeneration: nat,
    score: int,
    isPlaying: bool,
    showTutorial: bool)

  /** The stored emotion is the one the stored health calls for. */
  predicate EmotionInSync(g: GameState) {
    g.emotion == CalculateEmotion(g.planet.health)
  }

  /** The stored health is the formula's value for the stored metrics. */
  predicate HealthConsistent(g: GameState) {
    g.planet.health == CalculateHealth(g.planet)
  }

  /**
   * What every reachable store satisfies: metrics in range, generation from 1 up, emotion
   * in sync with health, the cap fixed at 5 and not exceeded, a non-negative score, and
   * every placed element stamped with a generation that has already begun.
   */
  predicate Valid(g: GameState) {
    && PlanetInRange(g.planet)
    && g.planet.generation >= 1
    && EmotionInSync(g)
    && g.maxActionsPerGeneration == MaxActions
    && g.actionsThisGeneration <= g.maxActionsPerGeneration
    && g.score >= 0
    && forall i :: 0 <= i < |g.placed| ==> 1 <= g.placed[i].generationPlaced <= g.planet.generation
  }

  /** How many elements of kind `k` the history holds (`filter(e => e.type === k).length`). */
  function Count(placed: seq<PlacedElement>, k: ElementKind): (n: nat)
    ensures n <= |placed|
    ensures n == 0 <== forall i :: 0 <= i < |placed| ==> placed[i].kind != k
  {
    if |placed| == 0 then 0
    else Count(placed[..|placed| - 1], k) + (if placed[|placed| - 1].kind == k then 1 else 0)
  }

  /** The kinds of a history, in placement order. */
  function KindsOf(placed: seq<PlacedElement>): (ks: seq<ElementKind>)
    ensures |ks| == |placed|
    ensures forall i :: 0 <= i < |placed| ==> ks[i] == placed[i].kind
  {
    seq(|placed|, i requires 0 <= i < |placed| => placed[i].kind)
  }

  /** Appending one element adds one to its own kind's count and leaves every other count alone. */
  lemma {:induction false} CountAppend(placed: seq<PlacedElement>, e: PlacedElement, k: ElementKind)
    ensures Count(placed + [e], k) == Count(placed, k) + (if e.kind == k then 1 else 0)
  {
    assert (placed + [e])[..|placed|] == placed;
  }

  /** The count is the multiplicity of the kind in the multiset of placed kinds. */
  lemma {:induction false} CountIsMultiplicity(placed: seq<PlacedElement>, k: ElementKind)
    ensures Count(placed, k) == multiset(KindsOf(placed))[k]
  {
    if |placed| > 0 {
      var front := placed[..|placed| - 1];
      var last := placed[|placed| - 1];
      CountIsMultiplicity(front, k);
      assert KindsOf(placed) == KindsOf(front) + [last.kind];
      assert multiset(KindsOf(placed)) == multiset(KindsOf(front)) + multiset{last.kind};
    }
  }

  /** The nine per-kind counts together account for every placement exactly once. */
  lemma {:induction false} CountsSumToLength(placed: seq<PlacedElement>)
    ensures Count(placed, Tree) + Count(placed, Factory) + Count(placed, River)
          + Count(placed, Mountain) + Count(placed, Farmer) + Count(placed, Scientist)
          + Count(placed, Educator) + Count(placed, Builder) + Count(placed, Healer) == |placed|
  {
    if |placed| > 0 {
      CountsSumToLength(placed[..|placed| - 1]);
    }
  }

  /** Counts only grow as the history grows: an extension of a history counts at least as many of each kind. */
  lemma {:induction false} CountMonotone(placed: seq<PlacedElement>, more: seq<PlacedElement>, k: ElementKind)
    ensures Count(placed, k) <= Count(placed + more, k)
    decreases |more|
  {
    if |more| > 0 {
      var front := more[..|more| - 1];
      CountMonotone(placed, front, k);
      assert (placed + more)[..|placed + more| - 1] == placed + front;
    } else {
      assert placed + more == placed;
    }
  }

  /** The store as it is created, and as a reset leaves it. */
  function InitialGame(): (g: GameState)
    ensures Valid(g)
    ensures g.placed == [] && g.selected.None? && g.score == 0
    ensures g.planet == InitialPlanet() && g.emotion == Content
    ensures !g.isPlaying && g.showTutorial
    ensures g.actionsThisGeneration == 0 && g.maxActionsPerGeneration == MaxActions
  {
    GameState(InitialPlanet(), Content, [], None, 0, MaxActions, 0, false, true)
  }

  /** `selectElement`: set or clear the selection and touch nothing else. */
  function SelectElement(g: GameState, kind: Option<ElementKind>): (r: GameState)
    ensures r.selected == kind
    ensures r.(selected := g.selected) == g
    ensures Valid(g) ==> Valid(r)
  {
    g.(selected := kind)
  }

  /** A placement goes ahead: something is selected and the cap is not yet reached. */
  predicate CanPlace(g: GameState) {
    g.selected.Some? && g.actionsThisGeneration < g.maxActionsPerGeneration
  }

  /** The element a placement appends: the selected kind, stamped with the current generation. */
  function NewElement(g: GameState, position: Position, now: int): (e: PlacedElement)
    requires g.selected.Some?
    ensures e.kind == g.selected.value && e.generationPlaced == g.planet.generation
    ensures e.position == position
  {
    PlacedElement(ElementId(g.selected.value, now), g.selected.value, position, g.planet.generation)
  }

  /** The planet after a placement of kind `k`: the table row applied, then health recomputed. */
  function PlacedPlanet(p: PlanetState, k: ElementKind): (q: PlanetState)
    ensures q.generation == p.generation
    ensures q.health == CalculateHealth(q)
    ensures PlanetInRange(p) ==> PlanetInRange(q)
  {
    var applied := ApplyEffect(p, EffectOf(k));
    applied.(health := CalculateHealth(applied))
  }

  /**
   * `placeElement`: the clock reading `now` stands for `Date.now()`. With no selection or the
   * cap reached nothing changes; otherwise one element is appended, the effect row is applied,
   * health and emotion are recomputed, the action counter goes up by one and the score by
   * the floor of the new health.
   */
  function PlaceElement(g: GameState, position: Position, now: int): (r: GameState)
    ensures !CanPlace(g) ==> r == g
    ensures CanPlace(g) ==>
      && r.placed == g.placed + [NewElement(g, position, now)]
      && r.planet.generation == g.planet.generation
      && r.actionsThisGeneration == g.actionsThisGeneration + 1
      && HealthConsistent(r) && EmotionInSync(r)
      && r.score == g.score + r.planet.health.Floor
      && r.selected == g.selected
      && r.maxActionsPerGeneration == g.maxActionsPerGeneration
      && r.isPlaying == g.isPlaying && r.showTutorial == g.showTutorial
    ensures Valid(g) ==> Valid(r) && g.score <= r.score
  {
    if !CanPlace(g) then g
    else
      var planet := PlacedPlanet(g.planet, g.selected.value);
      g.(placed := g.placed + [NewElement(g, position, now)],
         actionsThisGeneration := g.actionsThisGeneration + 1,
         planet := planet,
         emotion := CalculateEmotion(planet.health),
         score := g.score + planet.health.Floor)
  }

  /**
   * The new value of a field under an optional delta, read without the truthiness check on
   * the delta. `DeltaMatchesTable` shows the two readings agree on every row of the table.
   */
  function Delta(v: real, d: Option<real>): real {
    match d
    case None => v
    case Some(x) => Clamp(v + x)
  }

  /** Because no scalar delta in the table is zero, skipping zero deltas changes nothing for any row. */
  lemma DeltaMatchesTable(v: real, k: ElementKind)
    ensures ApplyScalar(v, EffectOf(k).biodiversity) == Delta(v, EffectOf(k).biodiversity)
    ensures ApplyScalar(v, EffectOf(k).pollution) == Delta(v, EffectOf(k).pollution)
    ensures ApplyScalar(v, EffectOf(k).knowledge) == Delta(v, EffectOf(k).knowledge)
    ensures ApplyScalar(v, EffectOf(k).health) == Delta(v, EffectOf(k).health)
  {
  }

  /**
   * A successful placement moves each field that has a delta by that delta, clamped on its own,
   * leaves every field without one as it was, and moves all three resources when the row has them.
   */
  lemma PlacementEffects(g: GameState, position: Position, now: int)
    requires CanPlace(g)
    ensures var r := PlaceElement(g, position, now);
            var e := EffectOf(g.selected.value);
            && r.planet.biodiversity == Delta(g.planet.biodiversity, e.biodiversity)
            && r.planet.pollution == Delta(g.planet.pollution, e.pollution)
            && r.planet.knowledge == Delta(g.planet.knowledge, e.knowledge)
            && (e.resources.None? ==> r.planet.resources == g.planet.resources)
            && (e.resources.Some? ==>
                  && r.planet.resources.food == Clamp(g.planet.resources.food + e.resources.value.food)
                  && r.planet.resources.energy == Clamp(g.planet.resources.energy + e.resources.value.energy)
                  && r.planet.resources.materials == Clamp(g.planet.resources.materials + e.resources.value.materials))
  {
  }

  /**
   * The table's direct health deltas have no lasting effect: a placement ends in the same
   * planet as one whose row had no health delta at all.
   */
  lemma HealthDeltaIsOverwritten(p: PlanetState, k: ElementKind)
    ensures var e := EffectOf(k);
            var applied := ApplyEffect(p, e.(health := None));
            PlacedPlanet(p, k) == applied.(health := CalculateHealth(applied))
  {
  }

  /** A kind whose row raises no pollution and lowers neither biodiversity nor knowledge. */
  predicate HealthFriendly(k: ElementKind) {
    var e := EffectOf(k);
    && (e.pollution.None? || e.pollution.value <= 0.0)
    && (e.biodiversity.None? || e.biodiversity.value >= 0.0)
    && (e.knowledge.None? || e.knowledge.value >= 0.0)
  }

  /** A kind whose row raises no biodiversity or knowledge and lowers no pollution. */
  predicate HealthHostile(k: ElementKind) {
    var e := EffectOf(k);
    && (e.pollution.None? || e.pollution.value >= 0.0)
    && (e.biodiversity.None? || e.biodiversity.value <= 0.0)
    && (e.knowledge.None? || e.knowledge.value <= 0.0)
  }

  /**
   * From a store whose health matches the formula, placing a tree, river, mountain, scientist,
   * educator or healer never lowers health, and placing a factory, farmer or builder never raises it.
   */
  lemma PlacementHealthDirection(g: GameState, position: Position, now: int)
    requires Valid(g) && HealthConsistent(g) && CanPlace(g)
    ensures HealthFriendly(g.selected.value) <==> g.selected.value in {Tree, River, Mountain, Scientist, Educator, Healer}
    ensures HealthHostile(g.selected.value) <==> g.selected.value in {Factory, Farmer, Builder}
    ensures HealthFriendly(g.selected.value) ==> g.planet.health <= PlaceElement(g, position, now).planet.health
    ensures HealthHostile(g.selected.value) ==> PlaceElement(g, position, now).planet.health <= g.planet.health
  {
    var k := g.selected.value;
    var q := PlaceElement(g, position, now).planet;
    if HealthFriendly(k) {
      HealthMonotone(g.planet, q);
    }
    if HealthHostile(k) {
      HealthMonotone(q, g.planet);
    }
  }

  /** The planet after a generation's growth and decay, before health is recomputed. */
  function GrownPlanet(p: PlanetState, placed: seq<PlacedElement>): PlanetState {
    var trees := Count(placed, Tree) as real;
    var factories := Count(placed, Factory) as real;
    var scientists := Count(placed, Scientist) as real;
    var educators := Count(placed, Educator) as real;
    var healers := Count(placed, Healer) as real;
    var biodiversity := Min(100.0, p.biodiversity + trees * 0.5);
    var pollution1 := Max(0.0, p.pollution - trees * 0.3);
    var pollution2 := Min(100.0, pollution1 + factories * 2.0);
    var pollution3 := Max(0.0, pollution2 - scientists * 1.5);
    var knowledge := Min(100.0, p.knowledge + educators * 2.0);
    var health := Min(100.0, p.health + healers * 3.0);
    var food := Max(0.0, p.resources.food - 5.0);
    var energy := Max(0.0, p.resources.energy - 3.0);
    PlanetState(health, pollution3, biodiversity, knowledge, p.generation + 1,
                p.resources.(food := food, energy := energy))
  }

  /**
   * `advanceGeneration`: one more generation. Counts over the whole history drive growth and
   * decay, food and energy are consumed, health and emotion are recomputed and the action
   * counter starts again from zero. No check on the counter is made here.
   */
  function AdvanceGeneration(g: GameState): (r: GameState)
    ensures r.planet.generation == g.planet.generation + 1
    ensures r.actionsThisGeneration == 0
    ensures HealthConsistent(r) && EmotionInSync(r)
    ensures r.planet.resources.materials == g.planet.resources.materials
    ensures r.placed == g.placed && r.score == g.score && r.selected == g.selected
    ensures r.maxActionsPerGeneration == g.maxActionsPerGeneration
    ensures r.isPlaying == g.isPlaying && r.showTutorial == g.showTutorial
    ensures Valid(g) ==> Valid(r)
    // growth only adds biodiversity and knowledge; upkeep only takes food and energy
    ensures Valid(g) ==> g.planet.biodiversity <= r.planet.biodiversity && g.planet.knowledge <= r.planet.knowledge
    ensures Valid(g) ==> r.planet.resources.food <= g.planet.resources.food
    ensures Valid(g) ==> r.planet.resources.energy <= g.planet.resources.energy
    // with no factory ever placed, pollution cannot rise
    ensures Valid(g) && Count(g.placed, Factory) == 0 ==> r.planet.pollution <= g.planet.pollution
  {
    var grown := GrownPlanet(g.planet, g.placed);
    var planet := grown.(health := CalculateHealth(grown));
    g.(planet := planet, emotion := CalculateEmotion(planet.health), actionsThisGeneration := 0)
  }

  /**
   * The generation step in closed form. While no clamp binds, biodiversity gains half a point
   * per tree ever placed, pollution moves by -0.3 per tree, +2 per factory and -1.5 per
   * scientist, knowledge gains 2 per educator, and food and energy fall by 5 and 3. When a
   * growth would pass 100 the field ends at 100, and when upkeep would pass 0 it ends at 0.
   */
  lemma AdvanceClosedForm(g: GameState)
    ensures var r := AdvanceGeneration(g);
            var p := g.planet;
            var trees := Count(g.placed, Tree) as real;
            var factories := Count(g.placed, Factory) as real;
            var scientists := Count(g.placed, Scientist) as real;
            var educators := Count(g.placed, Educator) as real;
            && (p.biodiversity + trees / 2.0 <= 100.0 ==> r.planet.biodiversity == p.biodiversity + trees / 2.0)
            && (p.biodiversity + trees / 2.0 >= 100.0 ==> r.planet.biodiversity == 100.0)
            && (&& p.pollution - 0.3 * trees >= 0.0
                && p.pollution - 0.3 * trees + 2.0 * factories <= 100.0
                && p.pollution - 0.3 * trees + 2.0 * factories - 1.5 * scientists >= 0.0
                ==> r.planet.pollution == p.pollution - 0.3 * trees + 2.0 * factories - 1.5 * scientists)
            && (p.knowledge + 2.0 * educators <= 100.0 ==> r.planet.knowledge == p.knowledge + 2.0 * educators)
            && (p.knowledge + 2.0 * educators >= 100.0 ==> r.planet.knowledge == 100.0)
            && (p.resources.food >= 5.0 ==> r.planet.resources.food == p.resources.food - 5.0)
            && (p.resources.food <= 5.0 ==> r.planet.resources.food == 0.0)
            && (p.resources.energy >= 3.0 ==> r.planet.resources.energy == p.resources.energy - 3.0)
            && (p.resources.energy <= 3.0 ==> r.planet.resources.energy == 0.0)
  {
  }

  /**
   * The pollution steps are clamped one after another, not once at the end: from pollution 0
   * with ten trees and one factory, the trees' -3 is cut off at 0 before the factory's +2, so
   * pollution ends at 2, where one clamp of the net change would give 0.
   */
  lemma AdvanceClampsStepByStep(g: GameState)
    requires g.planet.pollution == 0.0
    requires Count(g.placed, Tree) == 10 && Count(g.placed, Factory) == 1 && Count(g.placed, Scientist) == 0
    ensures AdvanceGeneration(g).planet.pollution == 2.0
    ensures Clamp(g.planet.pollution - 0.3 * 10.0 + 2.0 * 1.0) == 0.0
  {
  }

  /**
   * The healer bonus and the stored health before the step have no lasting effect: the
   * result is the same whatever the planet's health was.
   */
  lemma AdvanceIgnoresStoredHealth(g: GameState, h: real)
    ensures AdvanceGeneration(g.(planet := g.planet.(health := h))) == AdvanceGeneration(g)
  {
    var g' := g.(planet := g.planet.(health := h));
    var a := GrownPlanet(g.planet, g.placed);
    var b := GrownPlanet(g'.planet, g'.placed);
    HealthReadsOnlyThreeMetrics(a, b);
  }

  /** `updatePlanetState`: recompute health from the metrics and emotion from health; nothing else changes. */
  function UpdatePlanetState(g: GameState): (r: GameState)
    ensures HealthConsistent(r) && EmotionInSync(r)
    ensures r.planet.(health := g.planet.health) == g.planet
    ensures r.(planet := g.planet, emotion := g.emotion) == g
    ensures Valid(g) ==> Valid(r)
  {
    var health := CalculateHealth(g.planet);
    g.(planet := g.planet.(health := health), emotion := CalculateEmotion(health))
  }

  /** Recomputing twice is recomputing once. */
  lemma UpdatePlanetStateIdempotent(g: GameState)
    ensures UpdatePlanetState(UpdatePlanetState(g)) == UpdatePlanetState(g)
  {
    HealthReadsOnlyThreeMetrics(g.planet, UpdatePlanetState(g).planet);
  }

  /** `startGame`: raise the playing flag and keep the planet and the session as they are. */
  function StartGame(g: GameState): (r: GameState)
    ensures r.isPlaying
    ensures r.(isPlaying := g.isPlaying) == g
    ensures Valid(g) ==> Valid(r)
  {
    g.(isPlaying := true)
  }

  /** `closeTutorial`: hide the tutorial and touch nothing else. */
  function CloseTutorial(g: GameState): (r: GameState)
    ensures !r.showTutorial
    ensures r.(showTutorial := g.showTutorial) == g
    ensures Valid(g) ==> Valid(r)
  {
    g.(showTutorial := false)
  }

  /**
   * `resetGame`: the starting planet, an empty history, no selection, counters and score at
   * zero, not playing, tutorial showing. The cap is not reset, so from a valid store the
   * result is the store as it was created.
   */
  function ResetGame(g: GameState): (r: GameState)
    ensures r.maxActionsPerGeneration == g.maxActionsPerGeneration
    ensures r.(maxActionsPerGeneration := MaxActions) == InitialGame()
    ensures Valid(g) ==> r == InitialGame()
  {
    GameState(InitialPlanet(), Content, [], None, 0, g.maxActionsPerGeneration, 0, false, true)
  }

  /**
   * From the start, select a tree and place it: biodiversity 35, pollution 7, health
   * 50 - 4.9 + 14 + 4 = 63.1, emotion content and 63 points.
   */
  lemma FirstTreeExample(position: Position, now: int)
    ensures var r := PlaceElement(SelectElement(InitialGame(), Some(Tree)), position, now);
            && r.planet.biodiversity == 35.0 && r.planet.pollution == 7.0
            && r.planet.health == 63.1 && r.emotion == Content && r.score == 63
            && r.actionsThisGeneration == 1 && |r.placed| == 1
  {
  }

  /**
   * From the start, select a factory and place it: pollution 18, energy 60, materials 55,
   * health 50 - 12.6 + 12 + 4 = 53.4, which is below 60, so the emotion is worried.
   */
  lemma FirstFactoryExample(position: Position, now: int)
    ensures var r := PlaceElement(SelectElement(InitialGame(), Some(Factory)), position, now);
            && r.planet.pollution == 18.0 && r.planet.health == 53.4 && r.emotion == Worried
            && r.planet.resources == Resources(50.0, 60.0, 55.0) && r.score == 53
  {
  }

  /** A tree and then a factory from the start: health 57.5 (worried), pollution 15, score 63 + 57 = 120. */
  lemma TreeThenFactoryExample(p1: Position, p2: Position, t1: int, t2: int)
    ensures var g1 := PlaceElement(SelectElement(InitialGame(), Some(Tree)), p1, t1);
            var g2 := PlaceElement(SelectElement(g1, Some(Factory)), p2, t2);
            && g2.planet == PlanetState(57.5, 15.0, 35.0, 20.0, 1, Resources(50.0, 60.0, 55.0))
            && g2.score == 120 && g2.emotion == Worried
            && KindsOf(g2.placed) == [Tree, Factory]
  {
    FirstTreeExample(p1, t1);
    var g1 := PlaceElement(SelectElement(InitialGame(), Some(Tree)), p1, t1);
    assert g1.planet == PlanetState(63.1, 7.0, 35.0, 20.0, 1, Resources(50.0, 50.0, 50.0));
  }

  /**
   * A tree and then a factory, then a new generation: biodiversity 35.5, pollution
   * 15 - 0.3 + 2 = 16.7, food 45, energy 57, materials 55, health 56.51 (worried), score 120.
   */
  lemma TreeFactoryGenerationExample(p1: Position, p2: Position, t1: int, t2: int)
    ensures var g1 := PlaceElement(SelectElement(InitialGame(), Some(Tree)), p1, t1);
            var g2 := PlaceElement(SelectElement(g1, Some(Factory)), p2, t2);
            var r := AdvanceGeneration(g2);
            && r.planet.generation == 2
            && r.planet.biodiversity == 35.5 && r.planet.pollution == 16.7
            && r.planet.knowledge == 20.0
            && r.planet.resources == Resources(45.0, 57.0, 55.0)
            && r.planet.health == 56.51 && r.emotion == Worried
            && r.score == 120 && r.actionsThisGeneration == 0
  {
    TreeThenFactoryExample(p1, p2, t1, t2);
    var g1 := PlaceElement(SelectElement(InitialGame(), Some(Tree)), p1, t1);
    var g2 := PlaceElement(SelectElement(g1, Some(Factory)), p2, t2);
    CountIsMultiplicity(g2.placed, Tree);
    CountIsMultiplicity(g2.placed, Factory);
    CountIsMultiplicity(g2.placed, Scientist);
    CountIsMultiplicity(g2.placed, Educator);
    CountIsMultiplicity(g2.placed, Healer);
    assert GrownPlanet(g2.planet, g2.placed) == PlanetState(57.5, 16.7, 35.5, 20.0, 2, Resources(45.0, 57.0, 55.0));
  }
}
