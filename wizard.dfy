/**
 * The survey wizard: step 0 is the profile form, steps 1..N show question
 * N's of the catalog one at a time, step N + 1 is the completion screen.
 * Answers are kept in a map keyed by question id and overwritten on every
 * change.
 */
module Wizard {
  import opened Wrappers
  import opened Questions
  import opened Scoring

  /** What the page renders for a step of a catalog of `n` questions. */
  datatype Screen = ProfileForm | QuestionScreen(number: nat) | CompletionScreen

  function ScreenOf(step: nat, n: nat): (sc: Screen)
    requires step <= n + 1
    ensures sc.QuestionScreen? <==> 1 <= step <= n
    ensures sc.QuestionScreen? ==> sc.number == step
  {
    if step == 0 then ProfileForm
    else if step == n + 1 then CompletionScreen
    else QuestionScreen(step)
  }

  /** The step after "next" on step `step`: the completion step submits instead of moving. */
  function NextStep(step: nat, n: nat): (next: nat)
    ensures step <= n + 1 ==> next <= n + 1
    ensures step <= n + 1 ==> (next == step <==> ScreenOf(step, n).CompletionScreen?)
    ensures next == step || next == step + 1
  {
    if step == n + 1 then step else step + 1
  }

  /** The step after "previous": only a step above 1 moves back. */
  function PreviousStep(step: nat): (prev: nat)
    ensures step >= 1 ==> prev >= 1
    ensures prev == step - 1 <==> step > 1
    ensures step <= 1 ==> prev == step
  {
    if step > 1 then step - 1 else step
  }

  /** "Next" never leaves the wizard's steps, and moves forward by one except on the completion step. */
  lemma NextStaysInRange(step: nat, n: nat)
    requires step <= n + 1
    ensures NextStep(step, n) <= n + 1
    ensures step <= n ==> NextStep(step, n) == step + 1
    ensures step == n + 1 ==> NextStep(step, n) == step
  {
  }

  /** From a question or the completion screen, "previous" never reaches the profile form. */
  lemma PreviousNeverReachesProfile(step: nat)
    requires step >= 1
    ensures PreviousStep(step) >= 1
    ensures step == 1 ==> PreviousStep(step) == 1
  {
  }

  /** "Previous" undoes "next" on a question screen, and "next" undoes "previous" past the first question. */
  lemma NextPreviousInverse(step: nat, n: nat)
    ensures 1 <= step <= n ==> PreviousStep(NextStep(step, n)) == step
    ensures 2 <= step <= n + 1 ==> NextStep(PreviousStep(step), n) == step
  {
  }

  /** The step reached by pressing "next" `k` times from `step`. */
  function Advance(step: nat, n: nat, k: nat): nat
    decreases k
  {
    if k == 0 then step else Advance(NextStep(step, n), n, k - 1)
  }

  /** Pressing "next" `k` times moves `k` steps forward, but never past the completion step. */
  lemma {:induction false} AdvanceSaturates(step: nat, n: nat, k: nat)
    requires step <= n + 1
    ensures Advance(step, n, k) == if step + k <= n + 1 then step + k else n + 1
    decreases k
  {
    if k > 0 {
      AdvanceSaturates(NextStep(step, n), n, k - 1);
    }
  }

  /** The survey page's state: the current step and the answers collected so far. */
  class SurveyWizard {
    const questions: seq<Question>
    var step: nat
    var answers: Answers

    /**
     * The step is one of the wizard's, and every question before the current
     * step has an answer: "next" is disabled while the current one has none
     * and answers are never removed.
     */
    ghost predicate Valid()
      reads this
    {
      && step <= |questions| + 1
      && forall i :: 0 <= i < step - 1 ==> questions[i].id in answers
    }

    /** The page mounts on the profile form with no answers. */
    constructor (qs: seq<Question>)
      ensures Valid()
      ensures questions == qs && step == 0 && answers == map[]
    {
      questions := qs;
      step := 0;
      answers := map[];
    }

    /** The step is a question screen. */
    predicate OnQuestion()
      reads this
    {
      1 <= step <= |questions|
    }

    /** The step is the completion screen (`isLastQuestion` in the page). */
    predicate IsLastQuestion(): (last: bool)
      reads this
      ensures step <= |questions| + 1 ==> (last <==> ScreenOf(step, |questions|).CompletionScreen?)
      ensures last ==> !OnQuestion()
    {
      step == |questions| + 1
    }

    /** The "next" button is enabled: the current question has an answer. */
    predicate NextEnabled(): (enabled: bool)
      reads this
      requires OnQuestion()
      ensures enabled && Valid() ==> forall i :: 0 <= i < step ==> questions[i].id in answers
    {
      questions[step - 1].id in answers
    }

    /** Submitting the profile form starts the questions. */
    method SubmitProfile()
      requires Valid()
      modifies this
      ensures Valid()
      ensures step == 1 && answers == old(answers)
    {
      step := 1;
    }

    /** Storing an answer overwrites the entry for that id and leaves every other entry alone. */
    method Answer(id: string, x: Scoring.Answer)
      requires Valid()
      modifies this
      ensures Valid()
      ensures answers == old(answers)[id := x] && step == old(step)
      ensures forall other :: other != id ==>
        (other in answers <==> other in old(answers)) && (other in answers ==> answers[other] == old(answers)[other])
    {
      answers := answers[id := x];
    }

    /**
     * The score, tier and advice of the current answers, computed in that
     * order. Called from the completion screen, where every question has an
     * answer.
     */
    method SubmitSurvey() returns (e: Evaluation)
      requires Valid() && IsLastQuestion()
      ensures e == EvaluationOf(questions, answers)
      ensures forall i :: 0 <= i < |questions| ==> questions[i].id in answers
    {
      e := Evaluate(questions, answers);
    }

    /**
     * "Next": on the completion step it submits, anywhere else it moves one
     * step forward. On a question screen the button is enabled only once the
     * question has an answer.
     */
    method Next() returns (submitted: Option<Evaluation>)
      requires Valid()
      requires OnQuestion() ==> NextEnabled()
      modifies this
      ensures Valid()
      ensures step == NextStep(old(step), |questions|) && answers == old(answers)
      ensures submitted.Some? <==> old(step) == |questions| + 1
      ensures submitted.Some? ==> submitted.value == EvaluationOf(questions, answers)
    {
      if IsLastQuestion() {
        var e := Evaluate(questions, answers);
        submitted := Some(e);
      } else {
        step := step + 1;
        submitted := None;
      }
    }

    /** "Previous": moves back one step, but only from a step above 1. */
    method Previous()
      requires Valid()
      modifies this
      ensures Valid()
      ensures step == PreviousStep(old(step)) && answers == old(answers)
    {
      if step > 1 {
        step := step - 1;
      }
    }
  }

  /** Storing the same answer twice is the same as storing it once. */
  lemma AnswerIdempotent(answers: Answers, id: string, x: Scoring.Answer)
    ensures answers[id := x][id := x] == answers[id := x]
  {
  }
}
