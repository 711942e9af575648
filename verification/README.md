# Tiny Planet: the planet store and the NPC dialogue, in Dafny

This project models the game logic of Tiny Planet. In the game, a player places elements
(trees, factories, rivers, mountains, farmers, scientists, educators, builders, healers) on a
small planet and watches its health, pollution, biodiversity, knowledge and resources change
from generation to generation.

The model covers two parts of the source:

- **The game store** (`src/store/gameStore.ts`). This is the planet state, the static effect
  table, the health formula, the six-band emotion function, and the seven store actions:
  `selectElement`, `placeElement`, `advanceGeneration`, `updatePlanetState`, `startGame`,
  `resetGame` and `closeTutorial`. The store is a `GameState` datatype, and each action is a
  pure function from one store to the next.
- **The NPC dialogue click handler** (`src/components/NPC.tsx`). This is a small state machine
  over `(showDialogue, lineIndex)` that also reports whether the trigger callback fired.

Files, one module each:

- `basics.dfy`: the `Option` type, `Min`/`Max`, and the [0,100] clamp.
- `planet.dfy`: element kinds, emotions, the planet state, the effect table,
  `CalculateHealth`, `CalculateEmotion`, the starting planet, and how one table row is applied.
- `game_store.dfy`: the store record, the per-kind count over the placement history, the store
  invariant `Valid`, the seven actions, and the per-action lemmas and worked examples.
- `sessions.dfy`: arbitrary sequences of actions, and the properties that hold across whole
  sessions.
- `resource_aliasing.dfy`: the shared-`resources` defect as the source has it (see Findings).
- `npc.dfy`: the dialogue click machine.

Metrics are Dafny `real`, so constants such as 0.7, 0.4, 0.2, 0.5, 0.3 and 1.5 are exact.
`Math.floor` is `.Floor`. The clock reading in an element id (`Date.now()`) is a parameter
`now` of `PlaceElement`.

The store invariant `Valid` says:

- every metric and resource is in [0,100];
- `generation >= 1`;
- the stored emotion equals `CalculateEmotion(health)`;
- the action cap is 5 and the action counter does not exceed it;
- the score is non-negative;
- every placed element is stamped with a generation in `[1, generation]`.

The model proves that every action preserves `Valid`, so every store a session reaches
satisfies it. The stored health is *not* always the formula's value: the starting planet has
health 70, while the formula gives 59 for its metrics.

Placing one factory from the start gives health 53.4 (50 − 12.6 + 12 + 4). That is below
the 60 threshold, so the emotion is `worried` (`GameStore.FirstFactoryExample`).

## Model

| member | source | states |
|---|---|---|
| Basics.Clamp | src/store/gameStore.ts:127-136 | the clamp used on every metric returns a value in [0,100], returns in-range inputs unchanged, and sends values below 0 to 0 and values above 100 to 100 |
| Planet.EffectOf | src/store/gameStore.ts:53-63 | the effect table has one row per kind; no scalar delta is zero; only factory, mountain, farmer and builder carry resources; only tree, river, scientist and healer carry a direct health delta |
| Planet.CalculateEmotion | src/store/gameStore.ts:65-72 | the emotion returned is the band that contains the health: happy from 80, content from 60, worried from 40, angry from 20, crying from 5, dying below 5 |
| Planet.EmotionIsTheBand | src/store/gameStore.ts:65-72 | the bands partition the reals: an emotion is the result for a health exactly when the health lies in that emotion's band |
| Planet.EmotionMonotone | src/store/gameStore.ts:65-72 | more health never gives a worse emotion |
| Planet.CalculateHealth | src/store/gameStore.ts:74-83 | the health is always in [0,100]; it equals 50 − 0.7·pollution + 0.4·biodiversity + 0.2·knowledge when that value is in range, and 0 or 100 when the value falls below or above |
| Planet.HealthMonotone | src/store/gameStore.ts:74-83 | health is non-increasing in pollution and non-decreasing in biodiversity and knowledge |
| Planet.HealthReadsOnlyThreeMetrics | src/store/gameStore.ts:74-83 | two states with equal pollution, biodiversity and knowledge get the same health, whatever their stored health, generation or resources |
| Planet.InitialPlanet | src/store/gameStore.ts:85-96 | the starting planet is in range, at generation 1, with emotion content; its stored health of 70 differs from the formula's value of 59 |
| Planet.ApplyScalar | src/store/gameStore.ts:127-130 | a present, non-zero delta leaves the field in [0,100]; an in-range field stays in range |
| Planet.ApplyResources | src/store/gameStore.ts:132-138 | with no resource delta the resources are unchanged; with one, all three resources end in [0,100] |
| Planet.ApplyEffect | src/store/gameStore.ts:123-138 | applying a row keeps the generation, keeps an in-range planet in range, and leaves every field the row has no delta for unchanged |
| GameStore.Count | src/store/gameStore.ts:162-179 | the count of one kind is at most the history's length, and it is 0 when no element of that kind was placed |
| GameStore.CountAppend | src/store/gameStore.ts:146 | appending an element adds one to its own kind's count and leaves every other count unchanged |
| GameStore.CountIsMultiplicity | src/store/gameStore.ts:162-179 | the count of a kind equals that kind's multiplicity in the multiset of placed kinds |
| GameStore.CountsSumToLength | src/store/gameStore.ts:162-179 | the nine per-kind counts add up to the number of placements |
| GameStore.CountMonotone | src/store/gameStore.ts:162-179 | extending the history never lowers any kind's count |
| GameStore.InitialGame | src/store/gameStore.ts:98-107 | the store is created valid: the starting planet, emotion content, no elements, no selection, action counter 0 with cap 5, score 0, not playing, tutorial shown |
| GameStore.SelectElement | src/store/gameStore.ts:109 | the selection becomes the argument, including none; every other field is unchanged; validity is kept |
| GameStore.NewElement | src/store/gameStore.ts:116-121 | the appended element has the selected kind, the given position and the current generation |
| GameStore.PlacedPlanet | src/store/gameStore.ts:123-141 | after a placement the generation is unchanged, the stored health equals the formula's value, and an in-range planet stays in range |
| GameStore.PlaceElement | src/store/gameStore.ts:111-152 | with no selection or the cap reached, the store is unchanged. Otherwise exactly one element is appended after the old history; the generation is unchanged; the action counter rises by 1; health matches the formula and emotion matches health; the score rises by the floor of the new health; selection and flags are kept; validity is kept and the score never falls |
| GameStore.PlacementEffects | src/store/gameStore.ts:123-138 | each present scalar delta is added to its own field and clamped on its own; fields with no delta keep their value; a resource row moves and clamps all three resources |
| GameStore.DeltaMatchesTable | src/store/gameStore.ts:127-130 | for every row of the table, the truthiness-checked update and the plain "add and clamp when present" update agree, because no table delta is zero |
| GameStore.HealthDeltaIsOverwritten | src/store/gameStore.ts:130-141 | the table's direct health deltas have no lasting effect: the placed planet is the same as it would be with the health delta removed |
| GameStore.PlacementHealthDirection | src/store/gameStore.ts:123-141 | from a store whose health matches the formula, placing a tree, river, mountain, scientist, educator or healer never lowers health, and placing a factory, farmer or builder never raises it |
| GameStore.AdvanceGeneration | src/store/gameStore.ts:154-194 | the generation rises by exactly 1; the action counter becomes 0; health matches the formula and emotion matches health; materials, history, score, selection and flags are unchanged; validity is kept; biodiversity and knowledge never fall; food and energy never rise; with no factory ever placed, pollution never rises |
| GameStore.AdvanceClosedForm | src/store/gameStore.ts:159-184 | while no clamp binds: biodiversity gains 0.5 per tree ever placed; pollution changes by −0.3 per tree, +2 per factory and −1.5 per scientist; knowledge gains 2 per educator; food falls by 5 and energy by 3. A growth that would pass 100 ends at 100, and upkeep that would pass 0 ends at 0 |
| GameStore.AdvanceClampsStepByStep | src/store/gameStore.ts:163-172 | the pollution steps are clamped one after another: from pollution 0 with ten trees and one factory, the result is 2, where one clamp of the net change would give 0 |
| GameStore.AdvanceIgnoresStoredHealth | src/store/gameStore.ts:178-187 | the healer bonus and the previous health have no lasting effect: the result is the same for any pre-step health |
| GameStore.UpdatePlanetState | src/store/gameStore.ts:196-203 | health becomes the formula's value and emotion follows it; nothing else in the planet or the store changes; validity is kept |
| GameStore.UpdatePlanetStateIdempotent | src/store/gameStore.ts:196-203 | recomputing twice gives the same store as recomputing once |
| GameStore.StartGame | src/store/gameStore.ts:205 | the playing flag is set and nothing else changes, so the planet is not reset |
| GameStore.CloseTutorial | src/store/gameStore.ts:218 | the tutorial flag is cleared and nothing else changes |
| GameStore.ResetGame | src/store/gameStore.ts:207-216 | a reset gives the starting planet, emotion content, an empty history, no selection, zero counter and score, not playing and tutorial shown; the cap is kept, so a reset of a valid store is exactly the created store |
| GameStore.FirstTreeExample | src/store/gameStore.ts:111-152 | one tree from the start gives biodiversity 35, pollution 7, health 63.1, emotion content and score 63 |
| GameStore.FirstFactoryExample | src/store/gameStore.ts:111-152 | one factory from the start gives pollution 18, energy 60, materials 55, health 53.4, emotion worried and score 53 |
| GameStore.TreeThenFactoryExample | src/store/gameStore.ts:111-152 | a tree then a factory from the start give health 57.5, pollution 15, score 120 and emotion worried |
| GameStore.TreeFactoryGenerationExample | src/store/gameStore.ts:154-194 | advancing after a tree and a factory gives generation 2, biodiversity 35.5, pollution 16.7, food 45, energy 57, materials 55 and health 56.51 (worried) |
| Sessions.RunPreservesValid | src/store/gameStore.ts:98-218 | every sequence of store actions from a valid store ends in a valid store: metrics in range, emotion in sync with health, counter within the cap |
| Sessions.RunWithoutReset | src/store/gameStore.ts:111-194 | between resets the generation rises by exactly the number of advances; the old history stays a prefix of the new one; the score never falls |
| Sessions.CapBoundsPlacements | src/store/gameStore.ts:114-147 | within one generation, the elements placed equal the actions used, so at most 5 minus the actions already used |
| Sessions.CapEnforced | src/store/gameStore.ts:114 | after five successful placements in a generation, any further placement leaves the store unchanged |
| Sessions.ResetAfterAnything | src/store/gameStore.ts:207-216 | a reset after any session from a valid store gives exactly the created store |
| Npc.HandleClick | src/components/NPC.tsx:14-24 | the trigger fires exactly when a hidden dialogue opens and a trigger was given. Opening shows line 0; a shown dialogue with a next line moves to it; on or past the last line it hides and keeps its index; a well-formed index stays well formed |
| Npc.RenderedLineInBounds | src/components/NPC.tsx:12-35 | for a dialogue with at least one line, the line a shown box renders is always a valid index, after any number of clicks from mount |
| Npc.EmptyDialogue | src/components/NPC.tsx:10-24 | with no lines, the first click shows the box at index 0, which is out of range, and may fire; the second click hides it without firing |
| Npc.ClicksKeepIndex | src/components/NPC.tsx:14-24 | any number of clicks keeps the line index well formed |
| Npc.ReadOn | src/components/NPC.tsx:19-20 | clicks on an open dialogue that stay before its last line advance one line each and never fire |
| Npc.ReadToEnd | src/components/NPC.tsx:19-22 | from any line of an open dialogue, reading to the last line and clicking once more hides it without firing |
| Npc.FullCycle | src/components/NPC.tsx:14-24 | from hidden, with n ≥ 1 lines, the box is shown at line k−1 after k clicks for every k from 1 to n. Click n+1 hides it. Over the cycle the trigger fires exactly once if given, and never otherwise |
| ResourceAliasing.Created | src/store/gameStore.ts:98-99 | the created store's planet shares its resources object with the starting planet |
| ResourceAliasing.AliasedPlace | src/store/gameStore.ts:124-137 | a placement as written computes the same store as the value model; a row with resources ends the sharing |
| ResourceAliasing.AliasedAdvance | src/store/gameStore.ts:158-184 | the generation step as written computes the same store as the value model; while the object is shared, the starting planet's food and energy change with it |
| ResourceAliasing.AliasedUpdate | src/store/gameStore.ts:196-203 | a recompute as written computes the same store and keeps the sharing |
| ResourceAliasing.AliasedReset | src/store/gameStore.ts:207-216 | a reset as written gives the value model's reset except for the resources, which are whatever the starting planet's object now holds; sharing starts again |
| ResourceAliasing.ResetAfterAdvanceKeepsUpkeep | src/store/gameStore.ts:183-184 | create, advance once, reset: the reset planet has food 45 and energy 47, not the starting 50 and 50 |
| ResourceAliasing.ResetAfterAdvanceRestores | src/store/gameStore.ts:207-216 | the same session under value semantics restores food and energy to 50 |

## Findings

| source | as written | input that shows it | evidently intended | confidence | as-written member | corrected member |
|---|---|---|---|---|---|---|
| src/store/gameStore.ts:183-184 | `advanceGeneration` writes food and energy into a resources object. The spread copies at lines 99, 158 and 208 share that object with `initialPlanetState` until a placement with resources replaces it. | create the store, advance one generation, reset | the reset restores food 50 and energy 50 | not executed; high, the copies are shallow by the language's definition | ResourceAliasing.ResetAfterAdvanceKeepsUpkeep | GameStore.ResetGame |

## Left out

- Floating point: metrics are exact reals, so binary rounding (63.1 is not exact in IEEE-754 doubles) is not modelled.
- Element ids: the clock is the parameter `now`. Ids are `(kind, now)` and are not claimed unique.
- Element positions are an opaque triple of reals, stored as given.
- JavaScript truthiness is modelled only for the cases that occur: an absent or zero scalar delta is skipped. Non-numeric values and NaN cannot occur.
- Store plumbing: `create`, `set`, `get`, subscriptions and re-rendering are library code. Each action is a pure function on the store record.
- Value semantics: apart from `resource_aliasing.dfy`, the model copies resources by value. This is the corrected behaviour of the Findings row.
- NPC: the callback's own effect and the dialogue text are not modelled; only the number of lines matters to the click machine. The JSX rendering is not modelled except the index it reads.
- UI and scene components (`Planet.tsx`, `StatusPanel.tsx`, `ElementPalette.tsx`, `Tutorial.tsx`, `GameHeader.tsx`, `HintBook.tsx`, `StartScreen.tsx`, `GameScreen.tsx`, `LoadingScreen.tsx`) are not part of this model: they render, raycast or lay out, and only call into the store. The "Next Generation" button is disabled until the counter reaches the cap, but that check is on the caller's side: `AdvanceGeneration` does not check the counter.
- `GameScreen.tsx` destructures `increaseNature`, `increaseKnowledge` and `increaseHappiness`, which the store does not define. Those NPC callbacks are not part of this model.
- Bootstrap and configuration (`main.tsx`, `Index.tsx`, `vite.config.ts`, `use-toast.ts`) are not part of this model.
