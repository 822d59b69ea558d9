/**
 * The typewriter effect: while fewer than all characters of `text` are
 * shown, a timer appends the next one.
 */
module TypingEffect {

  datatype TypingState = TypingState(displayedText: string, currentIndex: nat)

  /** Both `useState` initial values. */
  const Initial := TypingState("", 0)

  /** What a state of the effect is supposed to mean for `text`. */
  ghost predicate ShowsPrefix(text: string, s: TypingState) {
    s.currentIndex <= |text| && s.displayedText == text[..s.currentIndex]
  }

  /** The effect schedules a step only while `currentIndex < text.length`. */
  predicate StepScheduled(text: string, s: TypingState) {
    s.currentIndex < |text|
  }

  /**
   * One run of the effect together with its timer: append `text[currentIndex]`
   * and advance the index, if a step is scheduled at all.
   */
  function Next(text: string, s: TypingState): (n: TypingState)
    ensures StepScheduled(text, s) ==>
      n.displayedText == s.displayedText + [text[s.currentIndex]] && n.currentIndex == s.currentIndex + 1
    ensures !StepScheduled(text, s) ==> n == s
    ensures ShowsPrefix(text, s) ==> ShowsPrefix(text, n)
  {
    if StepScheduled(text, s) then
      assert text[..s.currentIndex + 1] == text[..s.currentIndex] + [text[s.currentIndex]];
      TypingState(s.displayedText + [text[s.currentIndex]], s.currentIndex + 1)
    else s
  }

  /** `k` timer periods after state `s`. */
  function After(text: string, s: TypingState, k: nat): (t: TypingState)
    decreases k
  {
    if k == 0 then s else After(text, Next(text, s), k - 1)
  }

  /** The shown text stays a prefix of `text` however many steps are taken. */
  lemma {:induction false} AfterShowsPrefix(text: string, s: TypingState, k: nat)
    requires ShowsPrefix(text, s)
    ensures ShowsPrefix(text, After(text, s, k))
    decreases k
  {
    if k > 0 {
      AfterShowsPrefix(text, Next(text, s), k - 1);
    }
  }

  /** After `k` steps from the start, exactly the first `min(k, |text|)` characters are shown. */
  lemma {:induction false} AfterFromInitial(text: string, k: nat)
    ensures var n := if k <= |text| then k else |text|;
      After(text, Initial, k) == TypingState(text[..n], n)
    decreases k
  {
    if k > 0 {
      AfterFromStep(text, TypingState(text[..0], 0), k);
    }
  }

  lemma {:induction false} AfterFromStep(text: string, s: TypingState, k: nat)
    requires ShowsPrefix(text, s)
    ensures var n := if s.currentIndex + k <= |text| then s.currentIndex + k else |text|;
      After(text, s, k) == TypingState(text[..n], n)
    decreases k
  {
    if k > 0 {
      AfterFromStep(text, Next(text, s), k - 1);
    }
  }

  /** After `text.length` steps the whole text is shown and nothing more is scheduled. */
  lemma TypingCompletes(text: string)
    ensures After(text, Initial, |text|).displayedText == text
    ensures !StepScheduled(text, After(text, Initial, |text|))
  {
    AfterFromInitial(text, |text|);
  }

  /** The component's two pieces of state, for a fixed `text`. */
  class Typewriter {
    const text: string
    var displayedText: string
    var currentIndex: nat

    function State(): TypingState
      reads this
    {
      TypingState(displayedText, currentIndex)
    }

    constructor (text: string)
      ensures this.text == text && State() == Initial
    {
      this.text := text;
      displayedText, currentIndex := "", 0;
    }

    /** One timer period: the effect runs and, if it scheduled a step, the step happens. */
    method Tick() returns (stepped: bool)
      modifies this
      ensures stepped <==> StepScheduled(text, old(State()))
      ensures State() == Next(text, old(State()))
      ensures ShowsPrefix(text, old(State())) ==> ShowsPrefix(text, State())
    {
      stepped := currentIndex < |text|;
      if stepped {
        displayedText := displayedText + [text[currentIndex]];
        currentIndex := currentIndex + 1;
      }
    }
  }
}
