/**
 * The dialogue of a non-player character: a click opens it, steps through its lines, and
 * closes it after the last one. Opening fires the character's optional trigger callback.
 */
module Npc {

  /** The component's state: whether the dialogue box is shown and which line it shows. */
  datatype Dialogue = Dialogue(showDialogue: bool, lineIndex: int)

  /** A click's outcome: the next state and whether the trigger callback was called. */
  datatype Click = Click(next: Dialogue, fired: bool)

  /** The state the component is mounted with. */
  const Mounted: Dialogue := Dialogue(false, 0)

  /** The line index stays at 0 or above, and below the dialogue's length when it has lines. */
  predicate WellIndexed(s: Dialogue, length: nat) {
    0 <= s.lineIndex && (length >= 1 ==> s.lineIndex <= length - 1)
  }

  /**
   * `handleClick`, with `length` the number of dialogue lines and `hasTrigger` whether an
   * `onTriggerEvent` callback was passed. A hidden dialogue opens at its first line and fires
   * the trigger; a shown one moves to its next line while one remains, and otherwise closes,
   * keeping its index. Only opening ever fires.
   */
  function HandleClick(s: Dialogue, length: nat, hasTrigger: bool): (c: Click)
    ensures c.fired <==> !s.showDialogue && hasTrigger
    ensures !s.showDialogue ==> c.next == Dialogue(true, 0)
    ensures s.showDialogue && s.lineIndex < length - 1 ==> c.next == Dialogue(true, s.lineIndex + 1)
    ensures s.showDialogue && s.lineIndex >= length - 1 ==> c.next == Dialogue(false, s.lineIndex)
    ensures WellIndexed(s, length) ==> WellIndexed(c.next, length)
  {
    if !s.showDialogue then Click(Dialogue(true, 0), hasTrigger)
    else if s.lineIndex < length - 1 then Click(Dialogue(true, s.lineIndex + 1), false)
    else Click(Dialogue(false, s.lineIndex), false)
  }

  /** The line a shown dialogue renders is a line of the dialogue, provided it has at least one. */
  lemma RenderedLineInBounds(length: nat, acts: nat, hasTrigger: bool)
    requires length >= 1
    ensures var r := Clicks(Mounted, length, hasTrigger, acts);
            r.state.showDialogue ==> 0 <= r.state.lineIndex < length
  {
    ClicksKeepIndex(Mounted, length, hasTrigger, acts);
  }

  /**
   * With no lines at all, the first click shows the box at line 0, which no empty dialogue
   * has, and the second click hides it again.
   */
  lemma EmptyDialogue(hasTrigger: bool)
    ensures var first := HandleClick(Mounted, 0, hasTrigger);
            && first.next == Dialogue(true, 0)
            && first.fired == hasTrigger
            && HandleClick(first.next, 0, hasTrigger) == Click(Dialogue(false, 0), false)
  {
  }

  /** The state after several clicks and how many of them fired the trigger. */
  datatype Clicked = Clicked(state: Dialogue, fires: nat)

  /** `k` clicks in a row, starting from `s`. */
  function Clicks(s: Dialogue, length: nat, hasTrigger: bool, k: nat): (r: Clicked)
    ensures r.fires <= k
    decreases k
  {
    if k == 0 then Clicked(s, 0)
    else
      var c := HandleClick(s, length, hasTrigger);
      var rest := Clicks(c.next, length, hasTrigger, k - 1);
      Clicked(rest.state, rest.fires + (if c.fired then 1 else 0))
  }

  /** Any number of clicks keeps the index well formed. */
  lemma {:induction false} ClicksKeepIndex(s: Dialogue, length: nat, hasTrigger: bool, k: nat)
    requires WellIndexed(s, length)
    ensures WellIndexed(Clicks(s, length, hasTrigger, k).state, length)
    decreases k
  {
    if k > 0 {
      ClicksKeepIndex(HandleClick(s, length, hasTrigger).next, length, hasTrigger, k - 1);
    }
  }

  /** From line `i` of an open dialogue of `length` lines, `k` clicks that stay within it read on to line `i + k` without firing. */
  lemma {:induction false} ReadOn(i: nat, length: nat, hasTrigger: bool, k: nat)
    requires i + k <= length - 1
    ensures Clicks(Dialogue(true, i), length, hasTrigger, k) == Clicked(Dialogue(true, i + k), 0)
    decreases k
  {
    if k > 0 {
      ReadOn(i + 1, length, hasTrigger, k - 1);
    }
  }

  /** From line `i` of an open dialogue, reading to the end and clicking once more closes it, without firing. */
  lemma {:induction false} ReadToEnd(i: nat, length: nat, hasTrigger: bool, k: nat)
    requires i + k == length && k >= 1
    ensures Clicks(Dialogue(true, i), length, hasTrigger, k) == Clicked(Dialogue(false, length - 1), 0)
    decreases k
  {
    if i < length - 1 {
      ReadToEnd(i + 1, length, hasTrigger, k - 1);
    }
  }

  /**
   * From a hidden dialogue of `length >= 1` lines, the box stays shown for the first `length`
   * clicks and the click after those hides it again; over that cycle the trigger fires once
   * when there is one.
   */
  lemma FullCycle(s: Dialogue, length: nat, hasTrigger: bool)
    requires !s.showDialogue && length >= 1
    ensures Clicks(s, length, hasTrigger, length + 1) == Clicked(Dialogue(false, length - 1), if hasTrigger then 1 else 0)
    ensures forall k :: 1 <= k <= length ==> Clicks(s, length, hasTrigger, k).state == Dialogue(true, k - 1)
  {
    ReadToEnd(0, length, hasTrigger, length);
    forall k | 1 <= k <= length
      ensures Clicks(s, length, hasTrigger, k).state == Dialogue(true, k - 1)
    {
      ReadOn(0, length, hasTrigger, k - 1);
    }
  }
}
