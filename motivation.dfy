/** The encouragement line shown above each question. */
module Motivation {
  import opened Catalogue
  import opened Navigation

  const Greeting := "Let's discover what makes you unique!"
  const GreatStart := "Great start! Keep going."
  const DoingAmazing := "You're doing amazing!"
  const Halfway := "Halfway there! You've got this."
  const AlmostDone := "Almost done! Just a few more."
  const FinalStretch := "Final stretch! You're incredible."

  /** The five progress messages, in the order the thresholds 25, 50, 75, 90 hand them out. */
  const Tiers: seq<string> := [GreatStart, DoingAmazing, Halfway, AlmostDone, FinalStretch]

  /**
   * `getMotivationalContent(progress, currentQuestion, totalQuestions).text`: the
   * greeting on the first question, otherwise the message of the progress band.
   */
  function MotivationalText(progress: real, currentQuestion: int, totalQuestions: int): (text: string)
    ensures currentQuestion == 1 ==> text == Greeting
    ensures currentQuestion != 1 ==> text == Tiers[Tier(progress)]
    ensures currentQuestion != 1 && progress < 25.0 ==> text == GreatStart
    ensures currentQuestion != 1 && 25.0 <= progress < 50.0 ==> text == DoingAmazing
    ensures currentQuestion != 1 && 50.0 <= progress < 75.0 ==> text == Halfway
    ensures currentQuestion != 1 && 75.0 <= progress < 90.0 ==> text == AlmostDone
    ensures currentQuestion != 1 && progress >= 90.0 ==> text == FinalStretch
  {
    if currentQuestion == 1 then Greeting
    else if progress < 25.0 then GreatStart
    else if progress < 50.0 then DoingAmazing
    else if progress < 75.0 then Halfway
    else if progress < 90.0 then AlmostDone
    else FinalStretch
  }

  /** The position in Tiers of the message for a question other than the first. */
  function Tier(progress: real): (t: nat)
    ensures t < |Tiers|
  {
    if progress < 25.0 then 0 else if progress < 50.0 then 1 else if progress < 75.0 then 2
    else if progress < 90.0 then 3 else 4
  }

  /** The six messages are pairwise different, so the message determines the tier. */
  lemma MessagesDistinct()
    ensures forall i, j :: 0 <= i < j < |Tiers| ==> Tiers[i] != Tiers[j]
    ensures forall i :: 0 <= i < |Tiers| ==> Tiers[i] != Greeting
  {
    assert GreatStart[0] == 'G' && DoingAmazing[0] == 'Y' && Halfway[0] == 'H' && AlmostDone[0] == 'A';
    assert FinalStretch[0] == 'F' && Greeting[0] == 'L';
  }

  /** The total passed in never changes the message. */
  lemma TotalIgnored(progress: real, currentQuestion: int, total1: int, total2: int)
    ensures MotivationalText(progress, currentQuestion, total1) == MotivationalText(progress, currentQuestion, total2)
  {
  }

  /** More progress never gives an earlier tier. */
  lemma TierMonotone(p1: real, p2: real)
    requires p1 <= p2
    ensures Tier(p1) <= Tier(p2)
  {
  }

  /** The message the page shows on question q = currentIndex + 1: the greeting on 1, then Great start on
      2..22, amazing on 23..44, halfway on 45..67, almost done on 68..80 and final stretch on 81..90. */
  lemma MessageAlongTheAssessment(s: State)
    requires InRange(s)
    ensures var q := s.currentIndex + 1;
      var text := MotivationalText(Progress(s), q, TotalQuestions);
      (q == 1 ==> text == Greeting) &&
      (2 <= q <= 22 ==> text == GreatStart) &&
      (23 <= q <= 44 ==> text == DoingAmazing) &&
      (45 <= q <= 67 ==> text == Halfway) &&
      (68 <= q <= 80 ==> text == AlmostDone) &&
      (81 <= q ==> text == FinalStretch)
  {
    var q := s.currentIndex + 1;
    ProgressThresholds(q);
  }

  /** Where (q / 90) * 100 crosses 25, 50, 75 and 90, on integers. */
  lemma ProgressThresholds(q: int)
    ensures var p := (q as real / TotalQuestions as real) * 100.0;
      (p < 25.0 <==> q <= 22) && (p < 50.0 <==> q <= 44) && (p < 75.0 <==> q <= 67) && (p < 90.0 <==> q <= 80)
  {
    var p := (q as real / TotalQuestions as real) * 100.0;
    assert p * 9.0 == 10.0 * q as real;
  }
}
