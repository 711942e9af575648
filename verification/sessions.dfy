/**
 * Sessions: any sequence of store actions, as the user interface issues them, and the
 * properties that hold across a whole sequence rather than one call.
 */
module Sessions {
  import opened Basics
  import opened Planet
  import opened GameStore

  /** One call into the store. */
  datatype Action =
    | Select(kind: Option<ElementKind>)
    | Place(position: Position, now: int)
    | Advance
    | UpdatePlanet
    | Start
    | Reset
    | HideTutorial

  function Step(g: GameState, a: Action): GameState {
    match a
    case Select(k) => SelectElement(g, k)
    case Place(pos, now) => PlaceElement(g, pos, now)
    case Advance => AdvanceGeneration(g)
    case UpdatePlanet => UpdatePlanetState(g)
    case Start => StartGame(g)
    case Reset => ResetGame(g)
    case HideTutorial => CloseTutorial(g)
  }

  /** The store after the actions `acts`, in order, from `g`. */
  function Run(g: GameState, acts: seq<Action>): GameState
    decreases |acts|
  {
    if |acts| == 0 then g else Run(Step(g, acts[0]), acts[1..])
  }

  /** How many of `acts` advance the generation. */
  function Advances(acts: seq<Action>): (n: nat)
    ensures n <= |acts|
  {
    if |acts| == 0 then 0 else (if acts[0].Advance? then 1 else 0) + Advances(acts[1..])
  }

  predicate NoReset(acts: seq<Action>) {
    forall i :: 0 <= i < |acts| ==> !acts[i].Reset?
  }

  /** No reset and no new generation: the actions all fall within one generation. */
  predicate WithinGeneration(acts: seq<Action>) {
    forall i :: 0 <= i < |acts| ==> !acts[i].Reset? && !acts[i].Advance?
  }

  /** Every action keeps the store invariant, so every store a session reaches satisfies it. */
  lemma {:induction false} RunPreservesValid(g: GameState, acts: seq<Action>)
    requires Valid(g)
    ensures Valid(Run(g, acts))
    decreases |acts|
  {
    if |acts| > 0 {
      RunPreservesValid(Step(g, acts[0]), acts[1..]);
    }
  }

  /**
   * Between resets the generation goes up by exactly one per advance and by nothing else,
   * the history only grows at its end, and the score never falls.
   */
  lemma {:induction false} RunWithoutReset(g: GameState, acts: seq<Action>)
    requires Valid(g) && NoReset(acts)
    ensures Run(g, acts).planet.generation == g.planet.generation + Advances(acts)
    ensures g.placed <= Run(g, acts).placed
    ensures g.score <= Run(g, acts).score
    decreases |acts|
  {
    if |acts| > 0 {
      var g' := Step(g, acts[0]);
      assert NoReset(acts[1..]) by {
        forall i | 0 <= i < |acts[1..]| ensures !acts[1..][i].Reset? {
          assert acts[1..][i] == acts[i + 1];
        }
      }
      assert !acts[0].Reset?;
      RunWithoutReset(g', acts[1..]);
    }
  }

  /**
   * Within one generation, every successful placement uses one action: the elements placed
   * equal the actions used, so at most five placements succeed per generation.
   */
  lemma {:induction false} CapBoundsPlacements(g: GameState, acts: seq<Action>)
    requires Valid(g) && WithinGeneration(acts)
    ensures var r := Run(g, acts);
            && |g.placed| <= |r.placed|
            && |r.placed| - |g.placed| == r.actionsThisGeneration - g.actionsThisGeneration
            && |r.placed| - |g.placed| <= MaxActions - g.actionsThisGeneration
    decreases |acts|
  {
    if |acts| > 0 {
      var g' := Step(g, acts[0]);
      assert WithinGeneration(acts[1..]) by {
        forall i | 0 <= i < |acts[1..]| ensures !acts[1..][i].Reset? && !acts[1..][i].Advance? {
          assert acts[1..][i] == acts[i + 1];
        }
      }
      assert !acts[0].Reset? && !acts[0].Advance?;
      CapBoundsPlacements(g', acts[1..]);
      RunPreservesValid(g, acts);
    }
  }

  /**
   * Once five placements have succeeded in a generation, every further placement in that
   * generation leaves the store exactly as it was.
   */
  lemma CapEnforced(g: GameState, acts: seq<Action>, position: Position, now: int)
    requires Valid(g) && g.actionsThisGeneration == 0 && WithinGeneration(acts)
    requires |Run(g, acts).placed| == |g.placed| + MaxActions
    ensures PlaceElement(Run(g, acts), position, now) == Run(g, acts)
  {
    CapBoundsPlacements(g, acts);
    RunPreservesValid(g, acts);
    assert !CanPlace(Run(g, acts));
  }

  /** A reset after any session from a valid store gives back the store as it was created. */
  lemma ResetAfterAnything(g: GameState, acts: seq<Action>)
    requires Valid(g)
    ensures ResetGame(Run(g, acts)) == InitialGame()
  {
    RunPreservesValid(g, acts);
  }
}
