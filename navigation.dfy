/**
 * The questionnaire page: which question is on screen, the answers given so
 * far and whether the last question has been answered, with the transitions
 * the page's handlers and effects make.
 */
module Navigation {
  import opened Wrappers
  import opened Catalogue
  import opened Scoring
  import opened ScoringProperties

  /** The page's three pieces of navigation state. */
  datatype State = State(currentIndex: int, answers: Answers, isComplete: bool)

  /** The stored assessment row as loading sees it: the answers (absent when null) and the completion flag. */
  datatype SavedProgress = SavedProgress(savedAnswers: Option<Answers>, completed: bool)

  /** `0 <= currentIndex <= totalQuestions - 1`: the index names a question of the catalogue. */
  predicate InRange(s: State) {
    0 <= s.currentIndex < TotalQuestions
  }

  /** Index 0, no answers, not complete. */
  const Initial: State := State(0, map[], false)

  /** `assessmentQuestions[currentIndex]`. */
  function CurrentQuestion(s: State): (q: Question)
    requires InRange(s)
    ensures q.id == s.currentIndex + 1
  {
    QuestionIds();
    Questions[s.currentIndex]
  }

  /** `answers[currentQuestion.id] !== undefined`. */
  predicate Answered(s: State)
    requires InRange(s)
  {
    CurrentQuestion(s).id in s.answers
  }

  /** `((currentIndex + 1) / totalQuestions) * 100`, exactly: within (0, 100] on the catalogue, 100 on the last question. */
  function Progress(s: State): (p: real)
    ensures InRange(s) ==> 0.0 < p <= 100.0
    ensures s.currentIndex == TotalQuestions - 1 ==> p == 100.0
  {
    ((s.currentIndex + 1) as real / TotalQuestions as real) * 100.0
  }

  /** `getCurrentSection(currentIndex + 1)`: on the catalogue there is always one, and it holds the question. */
  function CurrentSection(s: State): (r: Option<SectionInfo>)
    ensures InRange(s) ==> r.Some? && Contains(r.value, s.currentIndex + 1)
  {
    GetCurrentSection(s.currentIndex + 1)
  }

  /**
   * `handleSelect(value)`: record the answer to the question on screen, keeping
   * the index and every other answer; answering the last question completes
   * the assessment.
   */
  function SelectAnswer(s: State, value: int): (r: State)
    requires InRange(s)
    ensures InRange(r) && r.currentIndex == s.currentIndex
    ensures r.answers.Keys == s.answers.Keys + {s.currentIndex + 1} && r.answers[s.currentIndex + 1] == value
    ensures forall id :: id in s.answers && id != s.currentIndex + 1 ==> r.answers[id] == s.answers[id]
    ensures r.isComplete <==> s.isComplete || s.currentIndex == TotalQuestions - 1
  {
    State(s.currentIndex, s.answers[CurrentQuestion(s).id := value], s.isComplete || s.currentIndex == TotalQuestions - 1)
  }

  /** `handlePrevious`: step back unless on the first question; answers and completion stay as they are. */
  function Previous(s: State): (r: State)
    ensures r.answers == s.answers && r.isComplete == s.isComplete
    ensures s.currentIndex > 0 ==> r.currentIndex == s.currentIndex - 1
    ensures s.currentIndex <= 0 ==> r == s
    ensures InRange(s) ==> InRange(r)
  {
    if s.currentIndex > 0 then s.(currentIndex := s.currentIndex - 1) else s
  }

  /** The condition shared by `handleNext` and the auto-advance effect: answered and not the last. */
  predicate CanAdvance(s: State)
    requires InRange(s)
  {
    s.currentIndex < TotalQuestions - 1 && Answered(s)
  }

  /**
   * `handleNext`, and the auto-advance effect once its delay has passed: one
   * step forward exactly when the question on screen is answered and is not the
   * last, and otherwise no change at all.
   */
  function Advance(s: State): (r: State)
    requires InRange(s)
    ensures InRange(r) && r.answers == s.answers && r.isComplete == s.isComplete
    ensures r.currentIndex == s.currentIndex + 1 <==> s.currentIndex + 1 in s.answers && s.currentIndex < TotalQuestions - 1
    ensures r.currentIndex != s.currentIndex + 1 ==> r == s
  {
    if CanAdvance(s) then s.(currentIndex := s.currentIndex + 1) else s
  }

  /** The number of keys of the stored answers, `Object.keys(data.answers || {}).length`. */
  function AnsweredCount(saved: SavedProgress): nat {
    match saved.savedAnswers
    case None => 0
    case Some(a) => |a.Keys|
  }

  /**
   * `loadProgress`: no stored row leaves the state; otherwise the stored answers
   * replace the current ones when present, and a completed row marks the
   * assessment complete while an open one resumes at `min(answeredCount, 89)`.
   */
  function Resume(s: State, data: Option<SavedProgress>): (r: State)
    ensures data.None? ==> r == s
    ensures data.Some? && data.value.savedAnswers.Some? ==> r.answers == data.value.savedAnswers.value
    ensures data.Some? && data.value.savedAnswers.None? ==> r.answers == s.answers
    ensures data.Some? && data.value.completed ==> r.isComplete && r.currentIndex == s.currentIndex
    ensures data.Some? && !data.value.completed ==>
      r.isComplete == s.isComplete &&
      r.currentIndex == (if AnsweredCount(data.value) < TotalQuestions - 1 then AnsweredCount(data.value) else TotalQuestions - 1)
    ensures InRange(s) ==> InRange(r)
  {
    match data
    case None => s
    case Some(saved) =>
      var answers := if saved.savedAnswers.Some? then saved.savedAnswers.value else s.answers;
      if saved.completed then State(s.currentIndex, answers, true)
      else State(Min(AnsweredCount(saved), TotalQuestions - 1), answers, s.isComplete)
  }

  function Min(a: int, b: int): int {
    if a < b then a else b
  }

  // ---------------------------------------------------------------------------
  // Properties of the transitions
  // ---------------------------------------------------------------------------

  /** Every transition keeps the index on a question of the catalogue. */
  lemma TransitionsKeepInRange(s: State, value: int, data: Option<SavedProgress>)
    requires InRange(s)
    ensures InRange(Initial)
    ensures InRange(SelectAnswer(s, value))
    ensures InRange(Previous(s))
    ensures InRange(Advance(s))
    ensures InRange(Resume(s, data))
  {
  }

  /** Selecting a point of the five-point scale keeps every recorded answer on the scale. */
  lemma SelectKeepsScale(s: State, value: int)
    requires InRange(s) && ValidAnswers(s.answers) && 1 <= value <= MaxPerQuestion
    ensures ValidAnswers(SelectAnswer(s, value).answers)
  {
  }

  /** Answering any question but the last always lets the page move on to the next. */
  lemma SelectThenAdvance(s: State, value: int)
    requires InRange(s) && s.currentIndex < TotalQuestions - 1
    ensures Advance(SelectAnswer(s, value)).currentIndex == s.currentIndex + 1
    ensures !Advance(SelectAnswer(s, value)).isComplete <==> !s.isComplete
  {
  }

  /** Going forward and back returns to the same state. */
  lemma AdvanceThenPrevious(s: State)
    requires InRange(s) && CanAdvance(s)
    ensures Previous(Advance(s)) == s
  {
  }

  /** Going back to an answered question and forward again returns to the same state. */
  lemma PreviousThenAdvance(s: State)
    requires InRange(s) && s.currentIndex > 0 && s.currentIndex in s.answers
    ensures Advance(Previous(s)) == s
  {
  }

  /**
   * Going back onto an answered question leaves the auto-advance condition true,
   * so once its delay passes the effect moves the page forward again.
   */
  lemma PreviousRearmsAutoAdvance(s: State)
    requires InRange(s) && s.currentIndex > 0 && s.currentIndex in s.answers
    ensures InRange(Previous(s)) && CanAdvance(Previous(s))
    ensures Advance(Previous(s)).currentIndex == s.currentIndex
  {
  }

  /** Progress strictly rises with the index. */
  lemma ProgressIncreases(s: State, t: State)
    requires s.currentIndex < t.currentIndex
    ensures Progress(s) < Progress(t)
  {
  }

  /** The section header's section is the question's own section. */
  lemma CurrentSectionOfQuestion(s: State)
    requires InRange(s)
    ensures CurrentSection(s).Some? && CurrentSection(s).value.id == CurrentQuestion(s).section
  {
    QuestionsDense();
    assert CurrentQuestion(s) == Questions[s.currentIndex];
  }

  // ---------------------------------------------------------------------------
  // Answering straight through
  // ---------------------------------------------------------------------------

  /** The state after answering the given values one by one from the start, letting the page advance after each. */
  function AnswerInOrder(values: seq<int>): (s: State)
    requires |values| <= TotalQuestions
    ensures InRange(s)
    decreases |values|
  {
    if values == [] then Initial
    else
      var before := AnswerInOrder(values[..|values| - 1]);
      Advance(SelectAnswer(before, values[|values| - 1]))
  }

  /** The page after answering `values` in order: on question min(k + 1, 90), holding exactly answers
      1..k with the values given, and complete exactly when all 90 have been answered. */
  ghost predicate AnsweredThrough(s: State, values: seq<int>) {
    s.currentIndex == (if |values| < TotalQuestions then |values| else TotalQuestions - 1) &&
    (forall id :: id in s.answers <==> 1 <= id <= |values|) &&
    (forall i :: 0 <= i < |values| ==> s.answers[i + 1] == values[i]) &&
    (s.isComplete <==> |values| == TotalQuestions)
  }

  /** Answering k questions in order leaves the page on question min(k + 1, 90), holding exactly answers
      1..k with the values given, and complete exactly when all 90 have been answered. */
  lemma {:induction false} AnswerInOrderState(values: seq<int>)
    requires |values| <= TotalQuestions
    ensures AnsweredThrough(AnswerInOrder(values), values)
    decreases |values|
  {
    if values != [] {
      var n := |values| - 1;
      AnswerInOrderState(values[..n]);
      AnswerNext(AnswerInOrder(values[..n]), values);
    }
  }

  /** One more answer, followed by the auto-advance, extends the answered prefix by one. */
  lemma AnswerNext(before: State, values: seq<int>)
    requires 0 < |values| <= TotalQuestions
    requires AnsweredThrough(before, values[..|values| - 1])
    ensures InRange(before)
    ensures AnsweredThrough(Advance(SelectAnswer(before, values[|values| - 1])), values)
  {
    var n := |values| - 1;
    var front := values[..n];
    var selected := SelectAnswer(before, values[n]);
    var after := Advance(selected);
    assert after.answers == selected.answers;
    forall id ensures id in after.answers <==> 1 <= id <= |values| {
    }
    forall i | 0 <= i < |values| ensures after.answers[i + 1] == values[i] {
      if i < n {
        assert front[i] == values[i];
      }
    }
  }

  // ---------------------------------------------------------------------------
  // The page's state, updated in place
  // ---------------------------------------------------------------------------

  class Questionnaire {
    var currentIndex: int
    var answers: Answers
    var isComplete: bool

    function Snapshot(): State
      reads this
    {
      State(currentIndex, answers, isComplete)
    }

    ghost predicate Valid()
      reads this
    {
      InRange(Snapshot())
    }

    constructor ()
      ensures Valid() && Snapshot() == Initial
    {
      currentIndex := 0;
      answers := map[];
      isComplete := false;
    }

    /** `handleSelect`. */
    method HandleSelect(value: int)
      requires Valid()
      modifies this
      ensures Valid() && Snapshot() == SelectAnswer(old(Snapshot()), value)
    {
      var id := CurrentQuestion(Snapshot()).id;
      answers := answers[id := value];
      if currentIndex == TotalQuestions - 1 {
        isComplete := true;
      }
    }

    /** `handlePrevious`. */
    method HandlePrevious()
      requires Valid()
      modifies this
      ensures Valid() && Snapshot() == Previous(old(Snapshot()))
    {
      if currentIndex > 0 {
        currentIndex := currentIndex - 1;
      }
    }

    /** `handleNext`. */
    method HandleNext()
      requires Valid()
      modifies this
      ensures Valid() && Snapshot() == Advance(old(Snapshot()))
    {
      if currentIndex < TotalQuestions - 1 && CurrentQuestion(Snapshot()).id in answers {
        currentIndex := currentIndex + 1;
      }
    }

    /** The auto-advance effect, taken at the moment its timer fires. */
    method AutoAdvance()
      requires Valid()
      modifies this
      ensures Valid() && Snapshot() == Advance(old(Snapshot()))
    {
      var id := CurrentQuestion(Snapshot()).id;
      if id in answers && currentIndex < TotalQuestions - 1 {
        currentIndex := currentIndex + 1;
      }
    }

    /** `loadProgress`, given the row the query returned (None for no row). */
    method LoadProgress(data: Option<SavedProgress>)
      requires Valid()
      modifies this
      ensures Valid() && Snapshot() == Resume(old(Snapshot()), data)
    {
      if data.Some? {
        var saved := data.value;
        if saved.savedAnswers.Some? {
          answers := saved.savedAnswers.value;
        }
        if saved.completed {
          isComplete := true;
        } else {
          var answeredCount := AnsweredCount(saved);
          currentIndex := Min(answeredCount, TotalQuestions - 1);
        }
      }
    }
  }
}
