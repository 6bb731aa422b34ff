/**
 * The typewriter effect (`TypingSimulator`): a timer reveals one more
 * character of `text` per tick, `onComplete` is called once the whole text
 * is shown, and a new `text` restarts the reveal. Timer delays are not
 * modelled; each timer that fires is one call of `TimerFires`.
 */
module TypingSimulator {
  import opened Text
  import opened JsMath

  /** The component's two state variables. */
  datatype Reveal = Reveal(displayText: string, currentIndex: nat)

  /** The state a reset leaves: nothing shown, index 0. */
  const Start: Reveal := Reveal("", 0)

  /** The state agrees with `text`: the shown text is the first `currentIndex` characters. */
  predicate Consistent(text: string, s: Reveal) {
    s.currentIndex <= |text| && s.displayText == text[..s.currentIndex]
  }

  /**
   * One tick: while characters remain, the timer shows
   * `text.substring(0, currentIndex + 1)` and moves the index on by one;
   * at the end no timer is set and the state stays as it is.
   */
  function Step(text: string, s: Reveal): (t: Reveal)
    ensures s.currentIndex < |text| ==> t.currentIndex == s.currentIndex + 1
    ensures s.currentIndex >= |text| ==> t == s
    ensures Consistent(text, s) ==> Consistent(text, t)
  {
    if s.currentIndex < |text| then Reveal(Take(text, s.currentIndex + 1), s.currentIndex + 1) else s
  }

  /** `n` ticks in a row. */
  function Ticks(text: string, s: Reveal, n: nat): Reveal
    decreases n
  {
    if n == 0 then s else Ticks(text, Step(text, s), n - 1)
  }

  /** After `n` ticks from the start, no more than the text holds, the first `n` characters are shown. */
  lemma {:induction false} TicksFromStart(text: string, s: Reveal, n: nat)
    requires Consistent(text, s)
    ensures Ticks(text, s, n) == Reveal(text[..Min(s.currentIndex + n, |text|)], Min(s.currentIndex + n, |text|))
    decreases n
  {
    if n > 0 {
      TicksFromStart(text, Step(text, s), n - 1);
    }
  }

  /** `|text|` ticks from the start show the whole text, and then the reveal stands still. */
  lemma FullReveal(text: string)
    ensures Ticks(text, Start, |text|) == Reveal(text, |text|)
    ensures Step(text, Reveal(text, |text|)) == Reveal(text, |text|)
  {
    TicksFromStart(text, Start, |text|);
    assert text[..|text|] == text;
  }

  /** The first effect calls `onComplete` when no character is left to reveal. */
  predicate Completes(text: string, s: Reveal) {
    s.currentIndex >= |text|
  }

  /** The cursor `|` is rendered while characters remain. */
  predicate CursorShown(text: string, s: Reveal) {
    s.currentIndex < |text|
  }

  /** The cursor shows exactly until completion; once complete, the whole text is shown. */
  lemma CursorUntilComplete(text: string, s: Reveal)
    requires Consistent(text, s)
    ensures CursorShown(text, s) <==> !Completes(text, s)
    ensures Completes(text, s) ==> s.displayText == text
  {
    assert text[..|text|] == text;
  }

  /**
   * Whether `onComplete` is called when `text` changes, as written: the
   * first effect runs before the reset effect, on the index left from the
   * old text, so it completes when that index is at least the new length.
   */
  predicate StaleCompletion(oldIndex: nat, newText: string) {
    oldIndex >= |newText|
  }

  class Simulator {
    /** The `text` prop. */
    var text: string
    var displayText: string
    var currentIndex: nat

    function State(): Reveal
      reads this
    {
      Reveal(displayText, currentIndex)
    }

    ghost predicate Valid()
      reads this
    {
      Consistent(text, State())
    }

    constructor (text: string)
      ensures this.text == text && State() == Start
      ensures Valid()
    {
      this.text := text;
      displayText := "";
      currentIndex := 0;
    }

    /**
     * The first effect, run after every change of index or text: it arms
     * the timer while characters remain (`armed`) and calls `onComplete`,
     * if given, otherwise. On a consistent state it completes only with
     * the whole text shown.
     */
    method RunEffect(hasOnComplete: bool) returns (armed: bool, completed: bool)
      requires Valid()
      ensures armed <==> currentIndex < |text|
      ensures completed <==> hasOnComplete && !armed
      ensures completed ==> displayText == text
    {
      armed := currentIndex < |text|;
      completed := !armed && hasOnComplete;
      CursorUntilComplete(text, State());
    }

    /** The armed timer fires: one more character is shown. */
    method TimerFires()
      requires currentIndex < |text|
      modifies this
      ensures State() == Step(text, old(State()))
      ensures text == old(text)
      ensures old(Valid()) ==> Valid()
    {
      displayText := Take(text, currentIndex + 1);
      currentIndex := currentIndex + 1;
    }

    /**
     * A new `text` as the source handles it: the first effect runs on the
     * old index (`completed` is its `onComplete` call), then the second
     * effect resets the state.
     */
    method ChangeTextAsWritten(newText: string, hasOnComplete: bool) returns (completed: bool)
      modifies this
      ensures completed <==> hasOnComplete && StaleCompletion(old(currentIndex), newText)
      ensures text == newText && State() == Start
      ensures Valid()
    {
      text := newText;
      completed := hasOnComplete && currentIndex >= |text|;
      displayText := "";
      currentIndex := 0;
    }

    /**
     * A new `text` with the reset done first: no completion is reported
     * at the change itself; the next `RunEffect` decides on the reset
     * state, so `onComplete` comes only once the new text is all shown.
     */
    method ChangeText(newText: string)
      modifies this
      ensures text == newText && State() == Start
      ensures Valid()
    {
      text := newText;
      displayText := "";
      currentIndex := 0;
    }
  }

  /**
   * The source's behaviour on a text change: `abc` is typed out in full,
   * then the text becomes `ab`. `onComplete` is reported at the change,
   * while `abc` is still displayed and nothing of `ab` has been typed;
   * after the change the reset state shows nothing.
   */
  method SpuriousCompletionScenario() returns (completed: bool, shownAtChange: string, shownAfter: string)
    ensures completed
    ensures shownAtChange == "abc" && shownAfter == ""
  {
    var sim := new Simulator("abc");
    sim.TimerFires();
    sim.TimerFires();
    sim.TimerFires();
    shownAtChange := sim.displayText;
    completed := sim.ChangeTextAsWritten("ab", true);
    shownAfter := sim.displayText;
  }

  /**
   * The same change with the reset done first: the effect after the change
   * arms the timer instead of completing, and `onComplete` comes only once
   * `ab` is shown in full.
   */
  method CorrectedScenario() returns (completedAtChange: bool, completedAfterReveal: bool, shown: string)
    ensures !completedAtChange
    ensures completedAfterReveal && shown == "ab"
  {
    var sim := new Simulator("abc");
    sim.TimerFires();
    sim.TimerFires();
    sim.TimerFires();
    sim.ChangeText("ab");
    var armed, c := sim.RunEffect(true);
    completedAtChange := c;
    sim.TimerFires();
    sim.TimerFires();
    armed, c := sim.RunEffect(true);
    completedAfterReveal := c;
    shown := sim.displayText;
  }
}
