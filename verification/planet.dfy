/**
 * The planet: its element kinds, its metrics, the static effect table and the two pure
 * derivations (health from the metrics, emotion from health) of the game store.
 */
module Planet {
  import opened Basics

  /** The nine kinds of element a player can place. */
  datatype ElementKind = Tree | Factory | River | Mountain | Farmer | Scientist | Educator | Builder | Healer

  /** The six emotion bands, from best to worst. */
  datatype Emotion = Happy | Content | Worried | Angry | Crying | Dying

  datatype Resources = Resources(food: real, energy: real, materials: real)

  datatype PlanetState = PlanetState(
    health: real,
    pollution: real,
    biodiversity: real,
    knowledge: real,
    generation: int,
    resources: Resources)

  /** Every metric and every resource of `p` lies in [0,100]. */
  predicate PlanetInRange(p: PlanetState) {
    && InRange(p.health)
    && InRange(p.pollution)
    && InRange(p.biodiversity)
    && InRange(p.knowledge)
    && InRange(p.resources.food)
    && InRange(p.resources.energy)
    && InRange(p.resources.materials)
  }

  /**
   * One row of the effect table: a partial planet state of deltas. When the resource
   * triple is present, all three of its components are.
   */
  datatype Effect = Effect(
    biodiversity: Option<real>,
    pollution: Option<real>,
    knowledge: Option<real>,
    health: Option<real>,
    resources: Option<Resources>)

  /** The static effect table, one row per element kind. */
  function EffectOf(k: ElementKind): (e: Effect)
    // no scalar delta in the table is zero, so the truthiness check on it never skips one
    ensures e.biodiversity.Some? ==> e.biodiversity.value != 0.0
    ensures e.pollution.Some? ==> e.pollution.value != 0.0
    ensures e.knowledge.Some? ==> e.knowledge.value != 0.0
    ensures e.health.Some? ==> e.health.value != 0.0
    ensures e.resources.Some? <==> k in {Factory, Mountain, Farmer, Builder}
    ensures e.health.Some? <==> k in {Tree, River, Scientist, Healer}
  {
    match k
    case Tree => Effect(Some(5.0), Some(-3.0), None, Some(2.0), None)
    case Factory => Effect(None, Some(8.0), None, None, Some(Resources(0.0, 10.0, 5.0)))
    case River => Effect(Some(7.0), None, None, Some(3.0), None)
    case Mountain => Effect(Some(3.0), None, None, None, Some(Resources(0.0, 0.0, 8.0)))
    case Farmer => Effect(Some(-1.0), None, None, None, Some(Resources(15.0, 0.0, 0.0)))
    case Scientist => Effect(None, Some(-5.0), Some(8.0), Some(2.0), None)
    case Educator => Effect(None, None, Some(10.0), None, None)
    case Builder => Effect(None, Some(2.0), None, None, Some(Resources(0.0, -2.0, -5.0)))
    case Healer => Effect(Some(2.0), None, None, Some(8.0), None)
  }

  /** The bands of the emotion step function: happy from 80, content from 60, and so on down. */
  predicate InBand(h: real, e: Emotion) {
    match e
    case Happy => 80.0 <= h
    case Content => 60.0 <= h < 80.0
    case Worried => 40.0 <= h < 60.0
    case Angry => 20.0 <= h < 40.0
    case Crying => 5.0 <= h < 20.0
    case Dying => h < 5.0
  }

  /** The emotion of a planet of health `h`: the first threshold, from the top, that `h` reaches. */
  function CalculateEmotion(h: real): (e: Emotion)
    ensures InBand(h, e)
  {
    if h >= 80.0 then Happy
    else if h >= 60.0 then Content
    else if h >= 40.0 then Worried
    else if h >= 20.0 then Angry
    else if h >= 5.0 then Crying
    else Dying
  }

  /** The bands partition the reals: `e` is the emotion of `h` exactly when `h` lies in `e`'s band. */
  lemma EmotionIsTheBand(h: real, e: Emotion)
    ensures InBand(h, e) <==> e == CalculateEmotion(h)
  {
  }

  /** Position of an emotion on the scale from dying (0) to happy (5). */
  function Rank(e: Emotion): nat {
    match e
    case Dying => 0
    case Crying => 1
    case Angry => 2
    case Worried => 3
    case Content => 4
    case Happy => 5
  }

  /** More health never gives a worse emotion. */
  lemma EmotionMonotone(h1: real, h2: real)
    requires h1 <= h2
    ensures Rank(CalculateEmotion(h1)) <= Rank(CalculateEmotion(h2))
  {
  }

  /** The health formula before clamping: base 50, pollution penalty 0.7, biodiversity bonus 0.4, knowledge bonus 0.2. */
  function RawHealth(pollution: real, biodiversity: real, knowledge: real): real {
    50.0 - pollution * 0.7 + biodiversity * 0.4 + knowledge * 0.2
  }

  /** The health the store derives from a planet state: the formula clamped to [0,100]. */
  function CalculateHealth(s: PlanetState): (h: real)
    ensures InRange(h)
    ensures InRange(RawHealth(s.pollution, s.biodiversity, s.knowledge)) ==>
              h == RawHealth(s.pollution, s.biodiversity, s.knowledge)
    ensures RawHealth(s.pollution, s.biodiversity, s.knowledge) < 0.0 ==> h == 0.0
    ensures RawHealth(s.pollution, s.biodiversity, s.knowledge) > 100.0 ==> h == 100.0
  {
    Clamp(RawHealth(s.pollution, s.biodiversity, s.knowledge))
  }

  /** Health is non-increasing in pollution and non-decreasing in biodiversity and knowledge. */
  lemma HealthMonotone(s1: PlanetState, s2: PlanetState)
    requires s2.pollution <= s1.pollution
    requires s1.biodiversity <= s2.biodiversity
    requires s1.knowledge <= s2.knowledge
    ensures CalculateHealth(s1) <= CalculateHealth(s2)
  {
    ClampMonotone(RawHealth(s1.pollution, s1.biodiversity, s1.knowledge),
                  RawHealth(s2.pollution, s2.biodiversity, s2.knowledge));
  }

  /**
   * Health reads nothing of the state but pollution, biodiversity and knowledge: not the
   * stored health, the generation or the resources.
   */
  lemma HealthReadsOnlyThreeMetrics(s1: PlanetState, s2: PlanetState)
    requires s1.pollution == s2.pollution
    requires s1.biodiversity == s2.biodiversity
    requires s1.knowledge == s2.knowledge
    ensures CalculateHealth(s1) == CalculateHealth(s2)
  {
  }

  /** The planet every session starts from. */
  function InitialPlanet(): (p: PlanetState)
    ensures PlanetInRange(p)
    ensures p.generation == 1
    ensures CalculateEmotion(p.health) == Content
    // the stored starting health is not the formula's value for the starting metrics
    ensures CalculateHealth(p) == 59.0 && p.health == 70.0
  {
    PlanetState(70.0, 10.0, 30.0, 20.0, 1, Resources(50.0, 50.0, 50.0))
  }

  /** One scalar delta: skipped when absent or zero, otherwise added and clamped on its own. */
  function ApplyScalar(v: real, d: Option<real>): (r: real)
    ensures InRange(v) ==> InRange(r)
    ensures d.Some? && d.value != 0.0 ==> InRange(r)
  {
    if d.Some? && d.value != 0.0 then Clamp(v + d.value) else v
  }

  /** The resource delta: when present, every resource is moved and clamped, even by a zero delta. */
  function ApplyResources(r: Resources, d: Option<Resources>): (q: Resources)
    ensures d.None? ==> q == r
    ensures d.Some? ==> InRange(q.food) && InRange(q.energy) && InRange(q.materials)
  {
    match d
    case None => r
    case Some(dr) =>
      Resources(Clamp(r.food + dr.food), Clamp(r.energy + dr.energy), Clamp(r.materials + dr.materials))
  }

  /** One row of the effect table applied to a planet, field by field, each field clamped independently. */
  function ApplyEffect(p: PlanetState, e: Effect): (q: PlanetState)
    ensures q.generation == p.generation
    ensures PlanetInRange(p) ==> PlanetInRange(q)
    // a field without a delta keeps its value
    ensures e.biodiversity.None? ==> q.biodiversity == p.biodiversity
    ensures e.pollution.None? ==> q.pollution == p.pollution
    ensures e.knowledge.None? ==> q.knowledge == p.knowledge
    ensures e.health.None? ==> q.health == p.health
    ensures e.resources.None? ==> q.resources == p.resources
  {
    p.(biodiversity := ApplyScalar(p.biodiversity, e.biodiversity),
       pollution := ApplyScalar(p.pollution, e.pollution),
       knowledge := ApplyScalar(p.knowledge, e.knowledge),
       health := ApplyScalar(p.health, e.health),
       resources := ApplyResources(p.resources, e.resources))
  }
}
