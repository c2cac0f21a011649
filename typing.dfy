/** The typing effect: a text is written into an element one character per
    step. Its state is the position in the text and the element's content. */
module Typing {

  /** A UTF-16 code unit: JavaScript's `length` and `charAt` count these, so
      a character outside the Basic Multilingual Plane is two of them. */
  newtype CodeUnit = x: int | 0 <= x < 0x1_0000

  /** A JavaScript string, as its sequence of code units. */
  type Text = seq<CodeUnit>

  /** The position reached in the text and the element's text content. */
  datatype Progress = Progress(index: nat, content: Text)

  /** The element shows exactly the part of the text typed so far. */
  predicate Synced(text: Text, s: Progress)
  {
    s.index <= |text| && s.content == text[..s.index]
  }

  /** One call of `type()`: while characters remain, append the next one and
      advance; at the end of the text nothing changes. */
  function TypeStep(text: Text, s: Progress): Progress
  {
    if s.index < |text| then Progress(s.index + 1, s.content + [text[s.index]]) else s
  }

  /** The synchronous part of `start()`: clear the element, keep the index,
      and type once. */
  function StartStep(text: Text, s: Progress): Progress
  {
    TypeStep(text, Progress(s.index, []))
  }

  /** n calls of `type()` in a row, as the timer chain makes them. */
  function TypeSteps(text: Text, s: Progress, n: nat): Progress
    decreases n
  {
    if n == 0 then s else TypeSteps(text, TypeStep(text, s), n - 1)
  }

  /** A step keeps the element in step with the index, and appends exactly
      the next character of the text. */
  lemma TypeStepKeepsSynced(text: Text, s: Progress)
    requires Synced(text, s)
    ensures Synced(text, TypeStep(text, s))
    ensures s.index < |text| ==> TypeStep(text, s).content == s.content + [text[s.index]]
  {
    if s.index < |text| {
      assert text[..s.index + 1] == text[..s.index] + [text[s.index]];
    }
  }

  /** From a synced state, n steps type min(n, what remains) characters. */
  lemma {:induction false} TypeStepsTypesPrefix(text: Text, s: Progress, n: nat)
    requires Synced(text, s)
    ensures var m := if s.index + n <= |text| then s.index + n else |text|;
            TypeSteps(text, s, n) == Progress(m, text[..m])
    decreases n
  {
    if n > 0 {
      TypeStepKeepsSynced(text, s);
      TypeStepsTypesPrefix(text, TypeStep(text, s), n - 1);
    }
  }

  /** Starting a fresh effect and letting the chain run writes the whole
      text, and no step after that changes anything. */
  lemma FreshStartWritesText(text: Text, n: nat)
    requires n + 1 >= |text|
    ensures TypeSteps(text, StartStep(text, Progress(0, [])), n) == Progress(|text|, text)
  {
    TypeStepsTypesPrefix(text, StartStep(text, Progress(0, [])), n);
  }

  /** "a" followed by the emoji U+1F44B, which is the surrogate pair
      D83D DC4B: it takes three steps, and after two the element holds "a"
      and a lone high surrogate. */
  lemma SurrogatePairTakesTwoSteps()
    ensures var text: Text := [0x61, 0xD83D, 0xDC4B];
            TypeSteps(text, Progress(0, []), 2) == Progress(2, [0x61, 0xD83D])
              && TypeSteps(text, Progress(0, []), 3) == Progress(3, text)
  {
  }

  /** Once the text is complete, `start()` empties the element for good: the
      index is not reset, so no later step types anything. */
  lemma {:induction false} RestartAfterCompletionStaysEmpty(text: Text, s: Progress, n: nat)
    requires s.index >= |text|
    ensures TypeSteps(text, StartStep(text, s), n) == Progress(s.index, [])
    decreases n
  {
    if n > 0 {
      RestartAfterCompletionStaysEmpty(text, s, n - 1);
      assert TypeStep(text, Progress(s.index, [])) == Progress(s.index, []);
    }
  }

  class TypingEffect {
    const text: Text
    /** Delay between steps in milliseconds; timing is not modelled. */
    const speed: int
    var index: nat
    /** The `textContent` of the element the effect writes into. */
    var textContent: Text

    function State(): Progress
      reads this
    {
      Progress(index, textContent)
    }

    /** The index never passes the end of the text. */
    ghost predicate Valid()
      reads this
    {
      index <= |text|
    }

    constructor (elementContent: Text, text: Text, speed: int := 100)
      ensures Valid()
      ensures this.text == text && this.speed == speed
      ensures index == 0 && textContent == elementContent
    {
      this.text := text;
      this.speed := speed;
      index := 0;
      textContent := elementContent;
    }

    method Type()
      requires Valid()
      modifies this
      ensures Valid()
      ensures State() == TypeStep(text, old(State()))
    {
      if index < |text| {
        textContent := textContent + [text[index]];
        index := index + 1;
      }
    }

    method Start()
      requires Valid()
      modifies this
      ensures Valid()
      ensures State() == StartStep(text, old(State()))
    {
      textContent := [];
      Type();
    }

    /** The steps that each `type()` schedules for the next one, run until the
        text is complete. */
    method RunToEnd()
      requires Valid()
      modifies this
      ensures Valid()
      ensures index == |text|
      ensures textContent == old(textContent) + text[old(index)..]
      ensures State() == TypeSteps(text, old(State()), |text| - old(index))
    {
      ghost var start := State();
      ghost var steps: nat := 0;
      while index < |text|
        invariant Valid()
        invariant index == start.index + steps
        invariant textContent == start.content + text[start.index..index]
        invariant TypeSteps(text, start, steps) == State()
        decreases |text| - index
      {
        StepsAppend(text, start, steps);
        Type();
        steps := steps + 1;
      }
    }
  }

  lemma {:induction false} StepsAppend(text: Text, s: Progress, n: nat)
    ensures TypeSteps(text, s, n + 1) == TypeStep(text, TypeSteps(text, s, n))
    decreases n
  {
    if n > 0 {
      StepsAppend(text, TypeStep(text, s), n - 1);
    }
  }
}
