/** The ungraded flashcard view (src/components/Flashcards.tsx): a current card
    and whether its answer is revealed. */
module Flashcards {
  import opened Types

  /** `(currentIndex, showAnswer)`. */
  datatype CardState = CardState(index: nat, showAnswer: bool)

  /** What the user can do: click the card, press a key, or press one of the
      buttons (previous, the reveal/next primary button, next, and the back
      button of the empty deck). */
  datatype CardInput = CardClick | Key(key: string) | PrevButton | PrimaryButton | NextButton | BackButton

  const Start := CardState(0, false)

  /** The index stays on a card of a non-empty deck; an empty deck never leaves the start. */
  predicate ValidState(n: nat, s: CardState) {
    (n > 0 ==> s.index < n) && (n == 0 ==> s == Start)
  }

  /** `nextCard`, with whether `onComplete` was called. */
  function Advance(n: nat, s: CardState): (CardState, bool) {
    if s.index + 1 < n then (CardState(s.index + 1, false), false) else (s, true)
  }

  /** `prevCard`. */
  function Retreat(s: CardState): CardState {
    if s.index > 0 then CardState(s.index - 1, false) else s
  }

  /** The overloaded primary action: reveal a hidden answer, otherwise `nextCard`. */
  function Primary(n: nat, s: CardState): (CardState, bool) {
    if !s.showAnswer then (CardState(s.index, true), false) else Advance(n, s)
  }

  /** The effect of one input, with whether `onComplete` was called. */
  function Step(n: nat, s: CardState, input: CardInput): (r: (CardState, bool))
    ensures ValidState(n, s) ==> ValidState(n, r.0)
    ensures r.0.index != s.index ==> !r.0.showAnswer && (r.0.index == s.index + 1 || r.0.index + 1 == s.index)
    ensures r.1 ==> r.0 == s && (n == 0 || s.index + 1 >= n)
    ensures n == 0 ==> r == (s, input == BackButton)
  {
    if n == 0 then (s, input == BackButton)
    else
      match input
      case CardClick => Primary(n, s)
      case PrimaryButton => Primary(n, s)
      case Key(key) =>
        if key == " " || key == "Enter" then Primary(n, s)
        else if key == "ArrowLeft" then (Retreat(s), false)
        else if key == "ArrowRight" then Advance(n, s)
        else (s, false)
      case PrevButton => (Retreat(s), false)
      case NextButton => if s.index + 1 >= n then (s, false) else Advance(n, s)
      case BackButton => (s, false)
  }

  /** `k` primary actions from `s`: the final state and how many times `onComplete` was called. */
  function Run(n: nat, s: CardState, k: nat): (CardState, nat)
    decreases k
  {
    if k == 0 then (s, 0)
    else
      var (p, c) := Run(n, s, k - 1);
      var (q, done) := Primary(n, p);
      (q, c + (if done then 1 else 0))
  }

  /** Before the last action of a full pass, primary actions alternate reveal and
      advance and never complete: after `k` of them the deck is on card `k / 2`,
      revealed when `k` is odd. */
  lemma {:induction false} RunPrefix(n: nat, k: nat)
    requires k < 2 * n
    ensures Run(n, Start, k) == (CardState(k / 2, k % 2 == 1), 0)
    decreases k
  {
    if k > 0 {
      RunPrefix(n, k - 1);
    }
  }

  /** Two primary actions from the start of a deck of two or more cards land on
      the second card with its answer hidden. */
  lemma TwoPrimaryActions(n: nat)
    requires n >= 2
    ensures Run(n, Start, 2) == (CardState(1, false), 0)
  {
    RunPrefix(n, 2);
  }

  /** `2n` primary actions on an `n`-card deck call `onComplete` exactly once,
      on the last action. */
  lemma FullPassCompletesOnce(n: nat)
    requires n >= 1
    ensures Run(n, Start, 2 * n) == (CardState(n - 1, true), 1)
    ensures forall k :: 0 <= k < 2 * n ==> Run(n, Start, k).1 == 0
  {
    RunPrefix(n, 2 * n - 1);
    forall k | 0 <= k < 2 * n ensures Run(n, Start, k).1 == 0 {
      RunPrefix(n, k);
    }
  }

  /** ArrowRight does not wait for the reveal: on a hidden last card it completes. */
  lemma ArrowRightSkipsReveal(n: nat)
    requires n >= 1
    ensures Step(n, CardState(n - 1, false), Key("ArrowRight")) == (CardState(n - 1, false), true)
    ensures Step(n, CardState(n - 1, false), CardClick) == (CardState(n - 1, true), false)
  {
  }

  class FlashcardSession {
    const questions: seq<Question>
    var currentIndex: nat
    var showAnswer: bool

    function State(): CardState
      reads this
    {
      CardState(currentIndex, showAnswer)
    }

    ghost predicate Valid()
      reads this
    {
      ValidState(|questions|, State())
    }

    constructor (questions: seq<Question>)
      ensures Valid() && this.questions == questions && State() == Start
    {
      this.questions := questions;
      currentIndex := 0;
      showAnswer := false;
    }

    /** `nextCard`: moves to the next card with its answer hidden, or on the last
        card calls `onComplete` and stays. */
    method NextCard() returns (completed: bool)
      requires Valid() && |questions| > 0
      modifies this
      ensures Valid()
      ensures (State(), completed) == Advance(|questions|, old(State()))
      ensures old(currentIndex) < |questions| - 1 ==> currentIndex == old(currentIndex) + 1 && !showAnswer && !completed
      ensures old(currentIndex) == |questions| - 1 ==> completed && State() == old(State())
    {
      if currentIndex < |questions| - 1 {
        currentIndex := currentIndex + 1;
        showAnswer := false;
        completed := false;
      } else {
        completed := true;
      }
    }

    /** `prevCard`: moves back with the answer hidden; nothing happens on the first card. */
    method PrevCard()
      requires Valid()
      modifies this
      ensures Valid()
      ensures State() == Retreat(old(State()))
      ensures old(currentIndex) > 0 ==> currentIndex == old(currentIndex) - 1 && !showAnswer
      ensures old(currentIndex) == 0 ==> State() == old(State())
    {
      if currentIndex > 0 {
        currentIndex := currentIndex - 1;
        showAnswer := false;
      }
    }

    /** The card click and the Space/Enter keys: reveal if hidden, otherwise `nextCard`. */
    method PrimaryAction() returns (completed: bool)
      requires Valid() && |questions| > 0
      modifies this
      ensures Valid()
      ensures (State(), completed) == Primary(|questions|, old(State()))
      ensures !old(showAnswer) ==> State() == CardState(old(currentIndex), true) && !completed
    {
      if !showAnswer {
        showAnswer := true;
        completed := false;
      } else {
        completed := NextCard();
      }
    }

    /** `handleKeyPress`: Space and Enter are the primary action, ArrowLeft is
        `prevCard`, ArrowRight is `nextCard`, other keys do nothing. */
    method HandleKey(key: string) returns (completed: bool)
      requires Valid() && |questions| > 0
      modifies this
      ensures Valid()
      ensures (State(), completed) == Step(|questions|, old(State()), Key(key))
    {
      completed := false;
      if key == " " || key == "Enter" {
        completed := PrimaryAction();
      } else if key == "ArrowLeft" {
        PrevCard();
      } else if key == "ArrowRight" {
        completed := NextCard();
      }
    }

    /** Every input of the view. The previous button is disabled on the first
        card and the next button on the last; an empty deck shows only the back
        button, which calls `onComplete`. */
    method Handle(input: CardInput) returns (completed: bool)
      requires Valid()
      modifies this
      ensures Valid()
      ensures (State(), completed) == Step(|questions|, old(State()), input)
    {
      completed := false;
      if |questions| == 0 {
        completed := input == BackButton;
        return;
      }
      match input
      case CardClick => completed := PrimaryAction();
      case PrimaryButton => completed := PrimaryAction();
      case Key(key) => completed := HandleKey(key);
      case PrevButton => PrevCard();
      case NextButton => if currentIndex < |questions| - 1 { completed := NextCard(); }
      case BackButton =>
    }
  }
}
