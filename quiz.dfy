/**
 * The checkpoint quiz: a fixed bank of three questions walked through one at
 * a time, with a selected option, a submitted flag, a running score and a
 * final result screen.
 */
module Quiz {
  import opened Optional

  datatype Question = Question(
    id: int,
    question: string,
    options: seq<string>,
    correctIndex: int,
    explanation: string)

  /** The question bank. */
  const Questions: seq<Question> := [
    Question(1,
      "Which describes the force the Moon exerts on the Earth compared to the Earth's force on the Moon?",
      ["Earth pulls harder because it is more massive.",
       "The Moon pulls harder to stay in orbit.",
       "They are equal in magnitude but opposite in direction.",
       "The force is only present when they are aligned."],
      2,
      "Newton's Third Law (Action-Reaction) states that forces between two interacting objects are always equal in magnitude and opposite in direction, regardless of mass difference."),
    Question(2,
      "What happens to the gravitational force if the distance (r) between bodies is tripled?",
      ["The force stays the same.",
       "The force becomes three times stronger.",
       "The force becomes nine times weaker.",
       "The force becomes three times weaker."],
      2,
      "Gravity follows an 'inverse-square law'. Tripling the distance (3r) reduces the force by a factor of 3 squared, which is 9 (1/9th original force)."),
    Question(3,
      "Gravity is scientifically categorized as which type of force?",
      ["Contact force",
       "Non-contact (Field) force",
       "Electrostatic force",
       "Frictional force"],
      1,
      "Gravity is a non-contact force because it acts over a distance through a gravitational field without requiring physical contact between bodies.")
  ]

  /** Every question's answer key names one of its own options. */
  lemma QuestionsWellFormed()
    ensures |Questions| == 3
    ensures forall i :: 0 <= i < |Questions| ==> 0 <= Questions[i].correctIndex < |Questions[i].options|
  {
  }

  /** The five state cells of the quiz, as one value. */
  datatype QuizView = QuizView(
    currentIdx: int,
    selected: Option<int>,
    isSubmitted: bool,
    score: int,
    showResult: bool)

  const Initial: QuizView := QuizView(0, None, false, 0, false)

  /** The current question exists. */
  predicate InRange(q: QuizView) {
    0 <= q.currentIdx < |Questions|
  }

  /** What the screen lets the user do keeps the score within what was answered:
      score <= currentIdx + (1 if submitted) <= number of questions. */
  predicate ScoreBounded(q: QuizView) {
    && InRange(q)
    && 0 <= q.score <= q.currentIdx + (if q.isSubmitted then 1 else 0) <= |Questions|
  }

  /** `handleSubmit`: nothing without a selection; otherwise mark submitted and score a correct answer. */
  function Submit(q: QuizView): (r: QuizView)
    requires InRange(q)
    ensures q.selected.None? ==> r == q
    ensures q.selected.Some? ==> r.isSubmitted
    ensures q.selected.Some? && q.selected.value == Questions[q.currentIdx].correctIndex ==> r.score == q.score + 1
    ensures q.selected.Some? && q.selected.value != Questions[q.currentIdx].correctIndex ==> r.score == q.score
    ensures r.currentIdx == q.currentIdx && r.selected == q.selected && r.showResult == q.showResult
  {
    match q.selected
    case None => q
    case Some(choice) =>
      var score := if choice == Questions[q.currentIdx].correctIndex then q.score + 1 else q.score;
      q.(score := score, isSubmitted := true)
  }

  /** `handleNext`: advance to a cleared next question, or on the last one show the result. */
  function Next(q: QuizView): (r: QuizView)
    ensures InRange(q) ==> InRange(r)
    ensures r.score == q.score
    ensures q.currentIdx < |Questions| - 1 ==>
              r.currentIdx == q.currentIdx + 1 && r.selected.None? && !r.isSubmitted && r.showResult == q.showResult
    ensures q.currentIdx >= |Questions| - 1 ==>
              r.showResult && r.currentIdx == q.currentIdx && r.selected == q.selected && r.isSubmitted == q.isSubmitted
  {
    if q.currentIdx < |Questions| - 1 then
      q.(currentIdx := q.currentIdx + 1, selected := None, isSubmitted := false)
    else
      q.(showResult := true)
  }

  /** `reset`: the start state again. */
  function Restart(q: QuizView): (r: QuizView)
    ensures r.currentIdx == 0 && r.selected.None? && !r.isSubmitted && r.score == 0 && !r.showResult
  {
    QuizView(0, None, false, 0, false)
  }

  /** An option's click or change handler: `!isSubmitted && setSelected(i)`. */
  function Choose(q: QuizView, option: int): (r: QuizView)
    ensures q.isSubmitted ==> r == q
    ensures !q.isSubmitted ==> r == q.(selected := Some(option))
  {
    if q.isSubmitted then q else q.(selected := Some(option))
  }

  /** A user action on the rendered screen. */
  datatype Event = ChooseOption(option: int) | PressSubmit | PressNext | PressRestart

  /** The screen's guards: the question view (options, Submit, Next) is only on
      screen until the result shows; Submit is shown only before submitting and is
      disabled without a selection; Next is shown only after submitting; Restart
      only on the result screen. A press that is not on offer changes nothing. */
  function Dispatch(q: QuizView, e: Event): (r: QuizView)
    requires InRange(q)
    ensures InRange(r)
    ensures q.showResult && !e.PressRestart? ==> r == q
  {
    match e
    case ChooseOption(i) => if q.showResult then q else Choose(q, i)
    case PressSubmit =>
      if !q.showResult && !q.isSubmitted && q.selected.Some? then Submit(q) else q
    case PressNext => if !q.showResult && q.isSubmitted then Next(q) else q
    case PressRestart => if q.showResult then Restart(q) else q
  }

  /** Every guarded step keeps the score bounded by the questions answered. */
  lemma DispatchKeepsScoreBounded(q: QuizView, e: Event)
    requires ScoreBounded(q)
    ensures ScoreBounded(Dispatch(q, e))
  {
  }

  /** The state after a sequence of user actions. */
  function Run(q: QuizView, es: seq<Event>): (r: QuizView)
    requires InRange(q)
    ensures InRange(r)
    decreases |es|
  {
    if es == [] then q else Run(Dispatch(q, es[0]), es[1..])
  }

  /** From the start, whatever the user does, the score never exceeds the number of
      answered questions, and hence never the size of the bank. */
  lemma {:induction false} RunKeepsScoreBounded(q: QuizView, es: seq<Event>)
    requires ScoreBounded(q)
    ensures ScoreBounded(Run(q, es))
    ensures 0 <= Run(q, es).score <= |Questions|
    decreases |es|
  {
    if es != [] {
      DispatchKeepsScoreBounded(q, es[0]);
      RunKeepsScoreBounded(Dispatch(q, es[0]), es[1..]);
    }
  }

  lemma InitialScoreBounded()
    ensures ScoreBounded(Initial)
  {
  }

  /** Answering every question correctly scores the full bank. */
  lemma PerfectRun()
    ensures Run(Initial, [ChooseOption(2), PressSubmit, PressNext,
                          ChooseOption(2), PressSubmit, PressNext,
                          ChooseOption(1), PressSubmit, PressNext])
         == QuizView(2, Some(1), true, 3, true)
  {
  }

  /** The quiz component's state cells (`useState` x 5). */
  class QuizSession {
    var currentIdx: int
    var selected: Option<int>
    var isSubmitted: bool
    var score: int
    var showResult: bool

    function View(): QuizView
      reads this
    {
      QuizView(currentIdx, selected, isSubmitted, score, showResult)
    }

    ghost predicate Valid()
      reads this
    {
      InRange(View())
    }

    constructor ()
      ensures Valid() && View() == Initial
    {
      currentIdx, selected, isSubmitted, score, showResult := 0, None, false, 0, false;
    }

    method HandleSubmit()
      requires Valid()
      modifies this
      ensures Valid() && View() == Submit(old(View()))
    {
      if selected.None? {
        return;
      }
      if selected.value == Questions[currentIdx].correctIndex {
        score := score + 1;
      }
      isSubmitted := true;
    }

    method HandleNext()
      requires Valid()
      modifies this
      ensures Valid() && View() == Next(old(View()))
    {
      if currentIdx < |Questions| - 1 {
        currentIdx := currentIdx + 1;
        selected := None;
        isSubmitted := false;
      } else {
        showResult := true;
      }
    }

    method Reset()
      modifies this
      ensures Valid() && View() == Restart(old(View()))
    {
      currentIdx := 0;
      selected := None;
      isSubmitted := false;
      score := 0;
      showResult := false;
    }

    method Select(option: int)
      requires Valid()
      modifies this
      ensures Valid() && View() == Choose(old(View()), option)
    {
      if !isSubmitted {
        selected := Some(option);
      }
    }

    /** One user action on the rendered screen, routed through the handler the screen offers. */
    method Handle(e: Event)
      requires Valid()
      modifies this
      ensures Valid() && View() == Dispatch(old(View()), e)
      ensures ScoreBounded(old(View())) ==> ScoreBounded(View())
    {
      if ScoreBounded(View()) {
        DispatchKeepsScoreBounded(View(), e);
      }
      match e
      case ChooseOption(i) =>
        if !showResult {
          Select(i);
        }
      case PressSubmit =>
        if !showResult && !isSubmitted && selected.Some? {
          HandleSubmit();
        }
      case PressNext =>
        if !showResult && isSubmitted {
          HandleNext();
        }
      case PressRestart =>
        if showResult {
          Reset();
        }
    }
  }
}
