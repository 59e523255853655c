/**
 * Properties of the scoring pipeline that relate several of its functions:
 * the order and stability of the interest ranking, the shape of the full
 * results, bounds, extreme answer maps and the frame of each score.
 */
module ScoringProperties {
  import opened Catalogue
  import opened Scoring

  // ---------------------------------------------------------------------------
  // The ranking sort
  // ---------------------------------------------------------------------------

  /** Inserting x leaves the entries of each percentage in their order, with x first among its ties. */
  lemma {:induction false} InsertStable(x: DimensionScore, t: seq<DimensionScore>, v: real)
    ensures WithPercentage(InsertByPercentage(x, t), v) == (if x.percentage == v then [x] else []) + WithPercentage(t, v)
  {
    if t == [] {
      WithPercentageCons(x, [], v);
    } else if x.percentage >= t[0].percentage {
      WithPercentageCons(x, t, v);
    } else {
      InsertStable(x, t[1..], v);
      InsertStableStep(x, t, v);
    }
  }

  /** The step of `InsertStable` where x goes past the head of t, which then cannot tie with x. */
  lemma InsertStableStep(x: DimensionScore, t: seq<DimensionScore>, v: real)
    requires t != [] && x.percentage < t[0].percentage
    requires WithPercentage(InsertByPercentage(x, t[1..]), v) ==
      (if x.percentage == v then [x] else []) + WithPercentage(t[1..], v)
    ensures WithPercentage(InsertByPercentage(x, t), v) == (if x.percentage == v then [x] else []) + WithPercentage(t, v)
  {
    var hx := if x.percentage == v then [x] else [];
    var h0 := if t[0].percentage == v then [t[0]] else [];
    var w1 := WithPercentage(t[1..], v);
    assert InsertByPercentage(x, t) == [t[0]] + InsertByPercentage(x, t[1..]);
    WithPercentageCons(t[0], InsertByPercentage(x, t[1..]), v);
    assert t == [t[0]] + t[1..];
    WithPercentageCons(t[0], t[1..], v);
    if h0 == [] {
      EmptyConcat(h0, hx + w1);
      EmptyConcat(h0, w1);
    } else {
      EmptyConcat(hx, w1);
      EmptyConcat(hx, h0 + w1);
    }
  }

  lemma EmptyConcat(e: seq<DimensionScore>, s: seq<DimensionScore>)
    requires e == []
    ensures e + s == s
  {
  }

  /** The entries of a given percentage in a list with a known head. */
  lemma WithPercentageCons(h: DimensionScore, rest: seq<DimensionScore>, v: real)
    ensures WithPercentage([h] + rest, v) == (if h.percentage == v then [h] else []) + WithPercentage(rest, v)
  {
    assert ([h] + rest)[0] == h && ([h] + rest)[1..] == rest;
  }

  /** Stability: for every percentage, the entries having it keep their relative order. */
  lemma {:induction false} SortStable(s: seq<DimensionScore>, v: real)
    ensures WithPercentage(SortByPercentage(s), v) == WithPercentage(s, v)
  {
    if s != [] {
      SortStable(s[1..], v);
      InsertStable(s[0], SortByPercentage(s[1..]), v);
    }
  }

  /** A list already in descending order is left as it is. */
  lemma {:induction false} SortOfDescending(s: seq<DimensionScore>)
    requires Descending(s)
    ensures SortByPercentage(s) == s
  {
    if s != [] {
      var rest := s[1..];
      assert Descending(rest) by {
        forall i, j | 0 <= i < j < |rest| ensures rest[i].percentage >= rest[j].percentage {
          assert rest[i] == s[i + 1] && rest[j] == s[j + 1];
        }
      }
      SortOfDescending(rest);
      assert s == [s[0]] + rest;
      if rest != [] {
        assert rest[0] == s[1];
      }
    }
  }

  // ---------------------------------------------------------------------------
  // Top interests
  // ---------------------------------------------------------------------------

  /** Interests tied on percentage keep enumeration order: equal percentages give the first two areas. */
  lemma TopInterestsTies(s: seq<DimensionScore>, v: real)
    requires |s| >= TopInterestCount
    requires forall i :: 0 <= i < |s| ==> s[i].percentage == v
    ensures TopInterests(s) == s[..2]
  {
    SortOfDescending(s);
  }

  // ---------------------------------------------------------------------------
  // Shape of the full results
  // ---------------------------------------------------------------------------

  /** The six section records of the results, in catalogue order, with their range totals. */
  lemma ResultsSections(answers: Answers)
    ensures var r := CalculateAssessmentResults(answers).sections;
      |r| == 6 &&
      forall k :: 0 <= k < 6 ==>
        r[k].sectionId == Sections[k].id && r[k].sectionTitle == Sections[k].title &&
        r[k].totalScore == SumAnswers(IdRange(Sections[k].startQuestion, Sections[k].endQuestion + 1), answers) &&
        r[k].maxScore == MaxPerQuestion * Sections[k].questionCount &&
        r[k].percentage == Percentage(r[k].totalScore, r[k].maxScore)
  {
    var i, a, p := CalculateInterestScores(answers), CalculateAptitudeScores(answers), CalculatePersonalityScores(answers);
    assert CalculateAssessmentResults(answers).sections == BuildSections(answers, i, a, p);
  }

  /** Dimensions appear only under the three multi-dimension sections, unsorted; personality is passed through. */
  lemma ResultsDimensions(answers: Answers)
    ensures var r := CalculateAssessmentResults(answers);
      |r.sections| == 6 &&
      r.sections[0].dimensions == CalculateInterestScores(answers) &&
      r.sections[1].dimensions == CalculateAptitudeScores(answers) &&
      r.sections[2].dimensions == CalculatePersonalityScores(answers) &&
      r.sections[3].dimensions == [] && r.sections[4].dimensions == [] && r.sections[5].dimensions == [] &&
      r.personalitySummary == CalculatePersonalityScores(answers)
  {
    var i, a, p := CalculateInterestScores(answers), CalculateAptitudeScores(answers), CalculatePersonalityScores(answers);
    assert CalculateAssessmentResults(answers).sections == BuildSections(answers, i, a, p);
    BuildSectionsDimensions(answers, i, a, p);
  }

  /** Only the interest, aptitude and personality records list dimensions. */
  lemma BuildSectionsDimensions(
    answers: Answers, interestScores: seq<DimensionScore>, aptitudeScores: seq<DimensionScore>,
    personalityScores: seq<DimensionScore>)
    ensures var r := BuildSections(answers, interestScores, aptitudeScores, personalityScores);
      |r| == 6 && r[0].dimensions == interestScores && r[1].dimensions == aptitudeScores &&
      r[2].dimensions == personalityScores && r[3].dimensions == [] && r[4].dimensions == [] && r[5].dimensions == []
  {
    var r := BuildSections(answers, interestScores, aptitudeScores, personalityScores);
    assert r[0] == BuildSection(Sections[0], answers, interestScores, aptitudeScores, personalityScores);
    assert r[1] == BuildSection(Sections[1], answers, interestScores, aptitudeScores, personalityScores);
    assert r[2] == BuildSection(Sections[2], answers, interestScores, aptitudeScores, personalityScores);
    assert r[3] == BuildSection(Sections[3], answers, interestScores, aptitudeScores, personalityScores);
    assert r[4] == BuildSection(Sections[4], answers, interestScores, aptitudeScores, personalityScores);
    assert r[5] == BuildSection(Sections[5], answers, interestScores, aptitudeScores, personalityScores);
  }

  /** The strong aptitudes are exactly the high-band aptitudes, in order. */
  lemma ResultsStrongAptitudes(answers: Answers)
    ensures forall e :: e in CalculateAssessmentResults(answers).strongAptitudes <==>
      e in CalculateAptitudeScores(answers) && e.band == High
    ensures Subsequence(CalculateAssessmentResults(answers).strongAptitudes, CalculateAptitudeScores(answers))
  {
  }

  /** The two top interests rank the interest scores; the interest section still lists them unsorted. */
  lemma ResultsTopInterests(answers: Answers)
    ensures var r := CalculateAssessmentResults(answers);
      var interests := CalculateInterestScores(answers);
      |r.topInterests| == 2 && Descending(r.topInterests) &&
      multiset(r.topInterests) <= multiset(interests) &&
      (forall i :: 0 <= i < 6 ==> interests[i].percentage <= r.topInterests[0].percentage) &&
      (forall e :: e in multiset(interests) - multiset(r.topInterests) ==> e.percentage <= r.topInterests[1].percentage)
  {
  }

  /** The three single-score sections are named, totalled and banded from their own section record. */
  lemma ResultsSingleScores(answers: Answers)
    ensures var r := CalculateAssessmentResults(answers);
      |r.sections| == 6 &&
      r.studyStyleScore == DimensionScore("Study Style & Discipline", r.sections[3].totalScore,
        r.sections[3].maxScore, r.sections[3].percentage, GetScoreBand(r.sections[3].percentage)) &&
      r.motivationScore == DimensionScore("Motivation & Stress Handling", r.sections[4].totalScore,
        r.sections[4].maxScore, r.sections[4].percentage, GetScoreBand(r.sections[4].percentage)) &&
      r.environmentScore == DimensionScore("Environment & Constraints", r.sections[5].totalScore,
        r.sections[5].maxScore, r.sections[5].percentage, GetScoreBand(r.sections[5].percentage))
  {
    SectionsAreContiguous();
  }

  // ---------------------------------------------------------------------------
  // Each section total is the total of its dimensions
  // ---------------------------------------------------------------------------

  /** The sum of the listed scores. */
  function TotalScore(ds: seq<DimensionScore>): int
    decreases |ds|
  {
    if ds == [] then 0 else TotalScore(ds[..|ds| - 1]) + ds[|ds| - 1].score
  }

  /** The sum of the listed maxima. */
  function TotalMax(ds: seq<DimensionScore>): int
    decreases |ds|
  {
    if ds == [] then 0 else TotalMax(ds[..|ds| - 1]) + ds[|ds| - 1].maxScore
  }

  /** Entries scoring consecutive blocks of w ids from lo add up to the sum over the union of the blocks. */
  lemma {:induction false} BlockTotals(ds: seq<DimensionScore>, lo: int, w: nat, answers: Answers)
    requires ScoredInBlocks(ds, lo, w, answers)
    ensures TotalScore(ds) == SumAnswers(IdRange(lo, lo + w * |ds|), answers)
    ensures TotalMax(ds) == MaxPerQuestion * w * |ds|
    decreases |ds|
  {
    if ds == [] {
      assert w * |ds| == 0;
      assert IdRange(lo, lo + w * |ds|) == [];
    } else {
      var n := |ds| - 1;
      BlocksPrefix(ds, lo, w, answers);
      BlockTotals(ds[..n], lo, w, answers);
      NonNegativeProduct(w, n);
      MulStep(w, |ds|, n);
      BlockStep(ds, lo, lo + w * n, lo + w * |ds|, w, answers);
    }
  }

  /** Dropping the last entry keeps the block scoring of the rest; the last entry scores the last block. */
  lemma BlocksPrefix(ds: seq<DimensionScore>, lo: int, w: nat, answers: Answers)
    requires |ds| > 0 && ScoredInBlocks(ds, lo, w, answers)
    ensures ScoredInBlocks(ds[..|ds| - 1], lo, w, answers)
    ensures ScoresBlock(ds[|ds| - 1], BlockStart(lo, w, |ds| - 1), w, answers)
  {
    var front := ds[..|ds| - 1];
    forall k | 0 <= k < |front| ensures ScoresBlock(front[k], BlockStart(lo, w, k), w, answers) {
      assert front[k] == ds[k];
    }
  }

  /** Adding the last block's entry to the totals of the ones before it. */
  lemma BlockStep(ds: seq<DimensionScore>, lo: int, mid: int, hi: int, w: nat, answers: Answers)
    requires |ds| > 0 && lo <= mid && hi == mid + w
    requires TotalScore(ds[..|ds| - 1]) == SumAnswers(IdRange(lo, mid), answers)
    requires ScoresBlock(ds[|ds| - 1], mid, w, answers)
    ensures TotalScore(ds) == SumAnswers(IdRange(lo, hi), answers)
    ensures TotalMax(ds) == TotalMax(ds[..|ds| - 1]) + MaxPerQuestion * w
  {
    var n := |ds| - 1;
    IdRangeSplit(lo, mid, hi);
    SumAppend(IdRange(lo, mid), IdRange(mid, hi), answers);
    assert TotalScore(ds) == TotalScore(ds[..n]) + ds[n].score;
  }

  /** Entry k scores the k-th block of w ids from lo. */
  ghost predicate ScoredInBlocks(ds: seq<DimensionScore>, lo: int, w: int, answers: Answers) {
    forall k {:trigger BlockStart(lo, w, k)} :: 0 <= k < |ds| ==> ScoresBlock(ds[k], BlockStart(lo, w, k), w, answers)
  }

  /** The first id of block k. */
  function BlockStart(lo: int, w: int, k: int): int {
    lo + w * k
  }

  /** The entry scores the w ids from start, five points each at most. */
  ghost predicate ScoresBlock(d: DimensionScore, start: int, w: int, answers: Answers) {
    d.score == SumAnswers(IdRange(start, start + w), answers) && d.maxScore == MaxPerQuestion * w
  }

  lemma MulStep(w: int, m: int, n: int)
    requires m == n + 1
    ensures w * m == w * n + w
    ensures MaxPerQuestion * w * m == MaxPerQuestion * w * n + MaxPerQuestion * w
  {
    assert w * (n + 1) == w * n + w;
  }

  lemma NonNegativeProduct(a: nat, b: nat)
    ensures a * b >= 0
  {
  }

  /** The interest scores, block by block, add up to the ids 1..24. */
  lemma InterestBlocks(answers: Answers)
    ensures TotalScore(CalculateInterestScores(answers)) == SumAnswers(IdRange(1, 25), answers)
    ensures TotalMax(CalculateInterestScores(answers)) == 120
  {
    var ds := CalculateInterestScores(answers);
    InterestScoresAreBlocks(answers);
    BlockTotals(ds, 1, 4, answers);
    assert 1 + 4 * |ds| == 25;
  }

  lemma InterestScoresAreBlocks(answers: Answers)
    ensures ScoredInBlocks(CalculateInterestScores(answers), 1, 4, answers)
  {
    var ds := CalculateInterestScores(answers);
    forall k | 0 <= k < |ds|
      ensures ScoresBlock(ds[k], BlockStart(1, 4, k), 4, answers)
    {
      assert BlockStart(1, 4, k) == 4 * k + 1;
      assert ds[k] == ScoreDimension(InterestName(InterestAreas[k]), IdRange(4 * k + 1, 4 * k + 5), answers);
    }
  }

  /** The interest section scores 24 questions out of 120, the total of its six areas. */
  lemma InterestSectionTotal(answers: Answers)
    ensures CalculateSectionScore(Interest, answers).score == TotalScore(CalculateInterestScores(answers))
    ensures CalculateSectionScore(Interest, answers).maxScore == TotalMax(CalculateInterestScores(answers)) == 120
  {
    InterestBlocks(answers);
    SectionRanges();
    SectionScoreSpan(Interest, answers, 1, 25);
  }

  /** The aptitude scores, block by block, add up to the ids 25..42. */
  lemma AptitudeBlocks(answers: Answers)
    ensures TotalScore(CalculateAptitudeScores(answers)) == SumAnswers(IdRange(25, 43), answers)
    ensures TotalMax(CalculateAptitudeScores(answers)) == 90
  {
    var ds := CalculateAptitudeScores(answers);
    AptitudeScoresAreBlocks(answers);
    BlockTotals(ds, 25, 3, answers);
    assert 25 + 3 * |ds| == 43;
  }

  lemma AptitudeScoresAreBlocks(answers: Answers)
    ensures ScoredInBlocks(CalculateAptitudeScores(answers), 25, 3, answers)
  {
    var ds := CalculateAptitudeScores(answers);
    forall k | 0 <= k < |ds|
      ensures ScoresBlock(ds[k], BlockStart(25, 3, k), 3, answers)
    {
      assert BlockStart(25, 3, k) == 3 * k + 25;
      assert ds[k] == ScoreDimension(AptitudeName(AptitudeAreas[k]), IdRange(25 + 3 * k, 28 + 3 * k), answers);
    }
  }

  /** The aptitude section scores 18 questions out of 90, the total of its six areas. */
  lemma AptitudeSectionTotal(answers: Answers)
    ensures CalculateSectionScore(Aptitude, answers).score == TotalScore(CalculateAptitudeScores(answers))
    ensures CalculateSectionScore(Aptitude, answers).maxScore == TotalMax(CalculateAptitudeScores(answers)) == 90
  {
    AptitudeBlocks(answers);
    SectionRanges();
    SectionScoreSpan(Aptitude, answers, 25, 43);
  }

  /** The personality scores, block by block, add up to the ids 43..60. */
  lemma PersonalityBlocks(answers: Answers)
    ensures TotalScore(CalculatePersonalityScores(answers)) == SumAnswers(IdRange(43, 61), answers)
    ensures TotalMax(CalculatePersonalityScores(answers)) == 90
  {
    var ds := CalculatePersonalityScores(answers);
    PersonalityScoresAreBlocks(answers);
    BlockTotals(ds, 43, 3, answers);
    assert 43 + 3 * |ds| == 61;
  }

  lemma PersonalityScoresAreBlocks(answers: Answers)
    ensures ScoredInBlocks(CalculatePersonalityScores(answers), 43, 3, answers)
  {
    var ds := CalculatePersonalityScores(answers);
    forall k | 0 <= k < |ds|
      ensures ScoresBlock(ds[k], BlockStart(43, 3, k), 3, answers)
    {
      assert BlockStart(43, 3, k) == 3 * k + 43;
      assert ds[k] == ScoreDimension(PersonalityName(PersonalityDimensions[k]), IdRange(43 + 3 * k, 46 + 3 * k), answers);
    }
  }

  /** The personality section scores 18 questions out of 90, the total of its six dimensions. */
  lemma PersonalitySectionTotal(answers: Answers)
    ensures CalculateSectionScore(Personality, answers).score == TotalScore(CalculatePersonalityScores(answers))
    ensures CalculateSectionScore(Personality, answers).maxScore == TotalMax(CalculatePersonalityScores(answers)) == 90
  {
    PersonalityBlocks(answers);
    SectionRanges();
    SectionScoreSpan(Personality, answers, 43, 61);
  }

  /** A section's aggregate sums the ids from lo below hi, five points each at most. */
  lemma SectionScoreSpan(section: Section, answers: Answers, lo: int, hi: int)
    requires SectionInfoOf(section).startQuestion == lo && SectionInfoOf(section).endQuestion == hi - 1
    ensures CalculateSectionScore(section, answers).score == SumAnswers(IdRange(lo, hi), answers)
    ensures CalculateSectionScore(section, answers).maxScore == MaxPerQuestion * (hi - lo)
  {
    var info := SectionInfoOf(section);
    var r := CalculateSectionScore(section, answers);
    assert info.questionCount == hi - lo;
    assert r.score == SumAnswers(IdRange(info.startQuestion, info.endQuestion + 1), answers);
    assert r.maxScore == MaxPerQuestion * info.questionCount;
  }

  /** Two subsections of a section share no question. */
  lemma SubsectionsDisjoint(section: Section, s1: Subsection, s2: Subsection, q: Question)
    requires s1 != s2 && q in GetQuestionsForSubsection(section, s1)
    ensures q !in GetQuestionsForSubsection(section, s2)
  {
    SubsectionMembers(section, s1);
    SubsectionMembers(section, s2);
  }

  // ---------------------------------------------------------------------------
  // Bounds
  // ---------------------------------------------------------------------------

  /** Every recorded answer is a point of the five-point scale. */
  ghost predicate ValidAnswers(answers: Answers) {
    forall id :: id in answers ==> 1 <= answers[id] <= MaxPerQuestion
  }

  ghost predicate Bounded(d: DimensionScore) {
    0 <= d.score <= d.maxScore && 0.0 <= d.percentage <= 100.0
  }

  lemma DimensionBounded(name: string, ids: seq<int>, answers: Answers)
    requires ValidAnswers(answers)
    ensures Bounded(ScoreDimension(name, ids, answers))
  {
    SumBounds(ids, answers);
  }

  lemma SectionBounded(section: Section, name: string, answers: Answers)
    requires ValidAnswers(answers)
    ensures Bounded(SectionDimension(name, CalculateSectionScore(section, answers)))
  {
    var info := SectionInfoOf(section);
    SumBounds(IdRange(info.startQuestion, info.endQuestion + 1), answers);
  }

  /** With answers on the scale, every score of the results lies between 0 and its maximum, 0% to 100%. */
  lemma ResultsBounded(answers: Answers)
    requires ValidAnswers(answers)
    ensures var r := CalculateAssessmentResults(answers);
      (forall k :: 0 <= k < 6 ==> Bounded(CalculateInterestScores(answers)[k])) &&
      (forall k :: 0 <= k < 6 ==> Bounded(CalculateAptitudeScores(answers)[k])) &&
      (forall k :: 0 <= k < 6 ==> Bounded(r.personalitySummary[k])) &&
      Bounded(r.studyStyleScore) && Bounded(r.motivationScore) && Bounded(r.environmentScore)
  {
    ResultsDimensions(answers);
    forall k | 0 <= k < 6
      ensures Bounded(CalculateInterestScores(answers)[k]) && Bounded(CalculateAptitudeScores(answers)[k])
      ensures Bounded(CalculatePersonalityScores(answers)[k])
    {
      DimensionBounded(InterestName(InterestAreas[k]), IdRange(4 * k + 1, 4 * k + 5), answers);
      DimensionBounded(AptitudeName(AptitudeAreas[k]), IdRange(25 + 3 * k, 28 + 3 * k), answers);
      DimensionBounded(PersonalityName(PersonalityDimensions[k]), IdRange(43 + 3 * k, 46 + 3 * k), answers);
    }
    SectionBounded(StudyStyle, "Study Style & Discipline", answers);
    SectionBounded(Motivation, "Motivation & Stress Handling", answers);
    SectionBounded(Environment, "Environment & Constraints", answers);
  }

  /** With answers on the scale, every section record's percentage lies in 0..100. */
  lemma SectionsBounded(answers: Answers)
    requires ValidAnswers(answers)
    ensures forall k :: 0 <= k < 6 ==>
      0 <= CalculateAssessmentResults(answers).sections[k].totalScore <= CalculateAssessmentResults(answers).sections[k].maxScore &&
      0.0 <= CalculateAssessmentResults(answers).sections[k].percentage <= 100.0
  {
    ResultsSections(answers);
    SectionsAreContiguous();
    forall k | 0 <= k < 6
      ensures 0 <= SumAnswers(IdRange(Sections[k].startQuestion, Sections[k].endQuestion + 1), answers) <=
        MaxPerQuestion * Sections[k].questionCount
    {
      SumBounds(IdRange(Sections[k].startQuestion, Sections[k].endQuestion + 1), answers);
    }
  }

  // ---------------------------------------------------------------------------
  // Extreme answer maps
  // ---------------------------------------------------------------------------

  /** With nothing answered a dimension scores 0 of its maximum, 0%, band low. */
  lemma UnansweredDimension(name: string, ids: seq<int>, answers: Answers)
    requires answers == map[]
    ensures ScoreDimension(name, ids, answers) == DimensionScore(name, 0, MaxPerQuestion * |ids|, 0.0, Low)
  {
    SumNoAnswers(ids, answers);
  }

  lemma UnansweredSection(section: Section, answers: Answers)
    requires answers == map[]
    ensures CalculateSectionScore(section, answers).score == 0
    ensures CalculateSectionScore(section, answers).percentage == 0.0
    ensures GetScoreBand(CalculateSectionScore(section, answers).percentage) == Low
  {
    var info := SectionInfoOf(section);
    SumNoAnswers(IdRange(info.startQuestion, info.endQuestion + 1), answers);
  }

  /** An empty answer map: every score is 0% and low, nothing is strong, the first two areas lead. */
  lemma EmptyAnswersResults(answers: Answers)
    requires answers == map[]
    ensures var r := CalculateAssessmentResults(answers);
      (forall k :: 0 <= k < 6 ==> CalculateInterestScores(answers)[k].percentage == 0.0 && CalculateInterestScores(answers)[k].band == Low) &&
      (forall k :: 0 <= k < 6 ==> CalculateAptitudeScores(answers)[k].percentage == 0.0 && CalculateAptitudeScores(answers)[k].band == Low) &&
      (forall k :: 0 <= k < 6 ==> r.personalitySummary[k].percentage == 0.0 && r.personalitySummary[k].band == Low) &&
      r.strongAptitudes == [] &&
      r.topInterests == CalculateInterestScores(answers)[..2] &&
      r.studyStyleScore.band == Low && r.motivationScore.band == Low && r.environmentScore.band == Low
  {
    var interests := CalculateInterestScores(answers);
    var aptitudes := CalculateAptitudeScores(answers);
    EmptyAnswersScores(answers);
    ResultsParts(answers);
    TopInterestsTies(interests, 0.0);
    HighOnlyNone(aptitudes);
    UnansweredSection(StudyStyle, answers);
    UnansweredSection(Motivation, answers);
    UnansweredSection(Environment, answers);
  }

  /** With no answers every interest, aptitude and personality entry is 0% and low. */
  lemma EmptyAnswersScores(answers: Answers)
    requires answers == map[]
    ensures forall k :: 0 <= k < 6 ==> CalculateInterestScores(answers)[k].percentage == 0.0 && CalculateInterestScores(answers)[k].band == Low
    ensures forall k :: 0 <= k < 6 ==> CalculateAptitudeScores(answers)[k].percentage == 0.0 && CalculateAptitudeScores(answers)[k].band == Low
    ensures forall k :: 0 <= k < 6 ==>
      CalculatePersonalityScores(answers)[k].percentage == 0.0 && CalculatePersonalityScores(answers)[k].band == Low
  {
    forall k | 0 <= k < 6
      ensures CalculateInterestScores(answers)[k].percentage == 0.0 && CalculateInterestScores(answers)[k].band == Low
      ensures CalculateAptitudeScores(answers)[k].percentage == 0.0 && CalculateAptitudeScores(answers)[k].band == Low
      ensures CalculatePersonalityScores(answers)[k].percentage == 0.0 && CalculatePersonalityScores(answers)[k].band == Low
    {
      UnansweredDimension(InterestName(InterestAreas[k]), IdRange(4 * k + 1, 4 * k + 5), answers);
      UnansweredDimension(AptitudeName(AptitudeAreas[k]), IdRange(25 + 3 * k, 28 + 3 * k), answers);
      UnansweredDimension(PersonalityName(PersonalityDimensions[k]), IdRange(43 + 3 * k, 46 + 3 * k), answers);
    }
  }

  lemma {:induction false} HighOnlyNone(s: seq<DimensionScore>)
    requires forall i :: 0 <= i < |s| ==> s[i].band != High
    ensures HighOnly(s) == []
  {
    if s != [] {
      HighOnlyNone(s[1..]);
    }
  }

  lemma {:induction false} HighOnlyAll(s: seq<DimensionScore>)
    requires forall i :: 0 <= i < |s| ==> s[i].band == High
    ensures HighOnly(s) == s
  {
    if s != [] {
      HighOnlyAll(s[1..]);
      assert s == [s[0]] + s[1..];
    }
  }

  /** Every one of the 90 questions answered with v. */
  ghost predicate AllAnswered(answers: Answers, v: int) {
    forall id :: 1 <= id <= TotalQuestions ==> id in answers && answers[id] == v
  }

  /** Ids inside 1..90, all answered 5: the full score, 100%, band high. */
  lemma FullDimension(name: string, lo: int, hi: int, answers: Answers)
    requires 1 <= lo < hi <= TotalQuestions + 1 && AllAnswered(answers, MaxPerQuestion)
    ensures ScoreDimension(name, IdRange(lo, hi), answers) ==
      DimensionScore(name, MaxPerQuestion * (hi - lo), MaxPerQuestion * (hi - lo), 100.0, High)
  {
    SumConstant(IdRange(lo, hi), answers, MaxPerQuestion);
  }

  lemma FullSection(section: Section, answers: Answers)
    requires AllAnswered(answers, MaxPerQuestion)
    ensures CalculateSectionScore(section, answers).score == CalculateSectionScore(section, answers).maxScore
    ensures CalculateSectionScore(section, answers).percentage == 100.0
    ensures GetScoreBand(CalculateSectionScore(section, answers).percentage) == High
  {
    var info := SectionInfoOf(section);
    var ids := IdRange(info.startQuestion, info.endQuestion + 1);
    SectionWithinCatalogue(section);
    IdRangeMembers(info.startQuestion, info.endQuestion + 1);
    SumConstant(ids, answers, MaxPerQuestion);
    var r := CalculateSectionScore(section, answers);
    assert r.score == MaxPerQuestion * |ids| == r.maxScore;
    assert r.percentage == Percentage(r.score, r.maxScore);
  }

  /** Every question answered 5: every score is 100% and high, and every aptitude is strong. */
  lemma AllFivesResults(answers: Answers)
    requires AllAnswered(answers, MaxPerQuestion)
    ensures var r := CalculateAssessmentResults(answers);
      (forall k :: 0 <= k < 6 ==> CalculateInterestScores(answers)[k].percentage == 100.0 && CalculateInterestScores(answers)[k].band == High) &&
      (forall k :: 0 <= k < 6 ==> r.personalitySummary[k].percentage == 100.0 && r.personalitySummary[k].band == High) &&
      r.strongAptitudes == CalculateAptitudeScores(answers) &&
      r.topInterests == CalculateInterestScores(answers)[..2] &&
      r.studyStyleScore.band == High && r.motivationScore.band == High && r.environmentScore.band == High
  {
    var interests := CalculateInterestScores(answers);
    var aptitudes := CalculateAptitudeScores(answers);
    AllFivesInterests(answers);
    AllFivesAptitudes(answers);
    AllFivesPersonality(answers);
    TopInterestsTies(interests, 100.0);
    HighOnlyAll(aptitudes);
    FullSection(StudyStyle, answers);
    FullSection(Motivation, answers);
    FullSection(Environment, answers);
    ResultsFields(answers);
  }

  lemma AllFivesInterests(answers: Answers)
    requires AllAnswered(answers, MaxPerQuestion)
    ensures forall k :: 0 <= k < |CalculateInterestScores(answers)| ==>
      CalculateInterestScores(answers)[k].percentage == 100.0 && CalculateInterestScores(answers)[k].band == High
  {
    forall k | 0 <= k < 6
      ensures CalculateInterestScores(answers)[k].percentage == 100.0 && CalculateInterestScores(answers)[k].band == High
    {
      FullDimension(InterestName(InterestAreas[k]), 4 * k + 1, 4 * k + 5, answers);
    }
  }

  lemma AllFivesAptitudes(answers: Answers)
    requires AllAnswered(answers, MaxPerQuestion)
    ensures forall k :: 0 <= k < |CalculateAptitudeScores(answers)| ==> CalculateAptitudeScores(answers)[k].band == High
  {
    forall k | 0 <= k < 6 ensures CalculateAptitudeScores(answers)[k].band == High {
      FullDimension(AptitudeName(AptitudeAreas[k]), 25 + 3 * k, 28 + 3 * k, answers);
    }
  }

  lemma AllFivesPersonality(answers: Answers)
    requires AllAnswered(answers, MaxPerQuestion)
    ensures forall k :: 0 <= k < |CalculatePersonalityScores(answers)| ==>
      CalculatePersonalityScores(answers)[k].percentage == 100.0 && CalculatePersonalityScores(answers)[k].band == High
  {
    forall k | 0 <= k < 6
      ensures CalculatePersonalityScores(answers)[k].percentage == 100.0 && CalculatePersonalityScores(answers)[k].band == High
    {
      FullDimension(PersonalityName(PersonalityDimensions[k]), 43 + 3 * k, 46 + 3 * k, answers);
    }
  }

  // ---------------------------------------------------------------------------
  // Frame: a score depends only on the answers to its own questions
  // ---------------------------------------------------------------------------

  lemma DimensionFrame(name: string, ids: seq<int>, a: Answers, b: Answers)
    requires AgreeOn(a, b, ids)
    ensures ScoreDimension(name, ids, a) == ScoreDimension(name, ids, b)
  {
    SumFrame(ids, a, b);
  }

  lemma SectionFrame(section: Section, a: Answers, b: Answers)
    requires AgreeOn(a, b, IdRange(SectionInfoOf(section).startQuestion, SectionInfoOf(section).endQuestion + 1))
    ensures CalculateSectionScore(section, a) == CalculateSectionScore(section, b)
  {
    SumFrame(IdRange(SectionInfoOf(section).startQuestion, SectionInfoOf(section).endQuestion + 1), a, b);
  }

  /** Recording an answer outside a section's range leaves the section's score as it was. */
  lemma SectionIgnoresOtherIds(section: Section, answers: Answers, id: int, value: int)
    requires !(SectionInfoOf(section).startQuestion <= id <= SectionInfoOf(section).endQuestion)
    ensures CalculateSectionScore(section, answers[id := value]) == CalculateSectionScore(section, answers)
  {
    SectionFrame(section, answers[id := value], answers);
  }

  /** Recording an answer for an id a dimension does not list leaves that dimension as it was. */
  lemma DimensionIgnoresOtherIds(name: string, ids: seq<int>, answers: Answers, id: int, value: int)
    requires id !in ids
    ensures ScoreDimension(name, ids, answers[id := value]) == ScoreDimension(name, ids, answers)
  {
    DimensionFrame(name, ids, answers[id := value], answers);
  }

  /** Answer maps agreeing on questions 1..90 agree on every range inside 1..90. */
  lemma AgreeOnSubrange(a: Answers, b: Answers, lo: int, hi: int)
    requires AgreeOn(a, b, IdRange(1, TotalQuestions + 1)) && 1 <= lo && hi <= TotalQuestions + 1
    ensures AgreeOn(a, b, IdRange(lo, hi))
  {
    IdRangeMembers(1, TotalQuestions + 1);
    IdRangeMembers(lo, hi);
  }

  lemma SectionsFrame(a: Answers, b: Answers)
    requires AgreeOn(a, b, IdRange(1, TotalQuestions + 1))
    ensures forall section: Section :: CalculateSectionScore(section, a) == CalculateSectionScore(section, b)
  {
    forall section: Section ensures CalculateSectionScore(section, a) == CalculateSectionScore(section, b) {
      SectionWithinCatalogue(section);
      AgreeOnSubrange(a, b, SectionInfoOf(section).startQuestion, SectionInfoOf(section).endQuestion + 1);
      SectionFrame(section, a, b);
    }
  }

  lemma DimensionsFrame(a: Answers, b: Answers)
    requires AgreeOn(a, b, IdRange(1, TotalQuestions + 1))
    ensures CalculateInterestScores(a) == CalculateInterestScores(b)
    ensures CalculateAptitudeScores(a) == CalculateAptitudeScores(b)
    ensures CalculatePersonalityScores(a) == CalculatePersonalityScores(b)
  {
    InterestFrame(a, b);
    AptitudeFrame(a, b);
    PersonalityFrame(a, b);
  }

  lemma InterestFrame(a: Answers, b: Answers)
    requires AgreeOn(a, b, IdRange(1, TotalQuestions + 1))
    ensures CalculateInterestScores(a) == CalculateInterestScores(b)
  {
    forall k | 0 <= k < 6 ensures CalculateInterestScores(a)[k] == CalculateInterestScores(b)[k] {
      InterestEntryFrame(a, b, k);
    }
  }

  lemma InterestEntryFrame(a: Answers, b: Answers, k: int)
    requires AgreeOn(a, b, IdRange(1, TotalQuestions + 1)) && 0 <= k < 6
    ensures CalculateInterestScores(a)[k] == CalculateInterestScores(b)[k]
  {
    AgreeOnSubrange(a, b, 4 * k + 1, 4 * k + 5);
    DimensionFrame(InterestName(InterestAreas[k]), IdRange(4 * k + 1, 4 * k + 5), a, b);
    assert CalculateInterestScores(a)[k] == ScoreDimension(InterestName(InterestAreas[k]), IdRange(4 * k + 1, 4 * k + 5), a);
    assert CalculateInterestScores(b)[k] == ScoreDimension(InterestName(InterestAreas[k]), IdRange(4 * k + 1, 4 * k + 5), b);
  }

  lemma AptitudeFrame(a: Answers, b: Answers)
    requires AgreeOn(a, b, IdRange(1, TotalQuestions + 1))
    ensures CalculateAptitudeScores(a) == CalculateAptitudeScores(b)
  {
    forall k | 0 <= k < 6 ensures CalculateAptitudeScores(a)[k] == CalculateAptitudeScores(b)[k] {
      AptitudeEntryFrame(a, b, k);
    }
  }

  lemma AptitudeEntryFrame(a: Answers, b: Answers, k: int)
    requires AgreeOn(a, b, IdRange(1, TotalQuestions + 1)) && 0 <= k < 6
    ensures CalculateAptitudeScores(a)[k] == CalculateAptitudeScores(b)[k]
  {
    AgreeOnSubrange(a, b, 25 + 3 * k, 28 + 3 * k);
    DimensionFrame(AptitudeName(AptitudeAreas[k]), IdRange(25 + 3 * k, 28 + 3 * k), a, b);
    assert CalculateAptitudeScores(a)[k] == ScoreDimension(AptitudeName(AptitudeAreas[k]), IdRange(25 + 3 * k, 28 + 3 * k), a);
    assert CalculateAptitudeScores(b)[k] == ScoreDimension(AptitudeName(AptitudeAreas[k]), IdRange(25 + 3 * k, 28 + 3 * k), b);
  }

  lemma PersonalityFrame(a: Answers, b: Answers)
    requires AgreeOn(a, b, IdRange(1, TotalQuestions + 1))
    ensures CalculatePersonalityScores(a) == CalculatePersonalityScores(b)
  {
    forall k | 0 <= k < 6 ensures CalculatePersonalityScores(a)[k] == CalculatePersonalityScores(b)[k] {
      PersonalityEntryFrame(a, b, k);
    }
  }

  lemma PersonalityEntryFrame(a: Answers, b: Answers, k: int)
    requires AgreeOn(a, b, IdRange(1, TotalQuestions + 1)) && 0 <= k < 6
    ensures CalculatePersonalityScores(a)[k] == CalculatePersonalityScores(b)[k]
  {
    AgreeOnSubrange(a, b, 43 + 3 * k, 46 + 3 * k);
    DimensionFrame(PersonalityName(PersonalityDimensions[k]), IdRange(43 + 3 * k, 46 + 3 * k), a, b);
    assert CalculatePersonalityScores(a)[k] == ScoreDimension(PersonalityName(PersonalityDimensions[k]), IdRange(43 + 3 * k, 46 + 3 * k), a);
    assert CalculatePersonalityScores(b)[k] == ScoreDimension(PersonalityName(PersonalityDimensions[k]), IdRange(43 + 3 * k, 46 + 3 * k), b);
  }

  lemma BuildSectionsFrame(
    a: Answers, b: Answers, interestScores: seq<DimensionScore>, aptitudeScores: seq<DimensionScore>,
    personalityScores: seq<DimensionScore>)
    requires forall section: Section :: CalculateSectionScore(section, a) == CalculateSectionScore(section, b)
    ensures BuildSections(a, interestScores, aptitudeScores, personalityScores) ==
      BuildSections(b, interestScores, aptitudeScores, personalityScores)
  {
    var ra := BuildSections(a, interestScores, aptitudeScores, personalityScores);
    var rb := BuildSections(b, interestScores, aptitudeScores, personalityScores);
    forall k | 0 <= k < |ra| ensures ra[k] == rb[k] {
      assert CalculateSectionScore(Sections[k].id, a) == CalculateSectionScore(Sections[k].id, b);
    }
  }

  /** Answer maps agreeing on questions 1..90 give the same results. */
  lemma ResultsFrame(a: Answers, b: Answers)
    requires AgreeOn(a, b, IdRange(1, TotalQuestions + 1))
    ensures CalculateAssessmentResults(a) == CalculateAssessmentResults(b)
  {
    DimensionsFrame(a, b);
    SectionsFrame(a, b);
    var ia, aa, pa := CalculateInterestScores(a), CalculateAptitudeScores(a), CalculatePersonalityScores(a);
    BuildSectionsFrame(a, b, ia, aa, pa);
    ResultsFields(a);
    ResultsFields(b);
  }

  /** An answer stored under an id outside 1..90 changes nothing in the results. */
  lemma ResultsIgnoreUnknownIds(answers: Answers, id: int, value: int)
    requires !(1 <= id <= TotalQuestions)
    ensures CalculateAssessmentResults(answers[id := value]) == CalculateAssessmentResults(answers)
  {
    IdRangeMembers(1, TotalQuestions + 1);
    ResultsFrame(answers[id := value], answers);
  }

  // ---------------------------------------------------------------------------
  // Worked examples
  // ---------------------------------------------------------------------------

  /** Questions 1..4 answered 5 and nothing else: realistic scores 20/20, the others 0, and realistic leads investigative. */
  lemma RealisticOnlyExample(answers: Answers)
    requires answers == map[1 := 5, 2 := 5, 3 := 5, 4 := 5]
    ensures var interests := CalculateInterestScores(answers);
      interests[0] == DimensionScore("Realistic (Hands-on)", 20, 20, 100.0, High) &&
      (forall k :: 1 <= k < 6 ==> interests[k] == DimensionScore(InterestName(InterestAreas[k]), 0, 20, 0.0, Low)) &&
      CalculateAssessmentResults(answers).topInterests ==
        [interests[0], DimensionScore("Investigative (Research)", 0, 20, 0.0, Low)]
  {
    RealisticOnlyScores(answers);
    RealisticOnlyTop(answers);
    ResultsTop(answers);
    PairOfPrefix(CalculateInterestScores(answers));
  }

  lemma PairOfPrefix(s: seq<DimensionScore>)
    requires |s| >= 2
    ensures s[..2] == [s[0], s[1]]
  {
  }

  lemma RealisticOnlyTop(answers: Answers)
    requires answers == map[1 := 5, 2 := 5, 3 := 5, 4 := 5]
    ensures TopInterests(CalculateInterestScores(answers)) == CalculateInterestScores(answers)[..2]
    ensures CalculateInterestScores(answers)[1] == DimensionScore("Investigative (Research)", 0, 20, 0.0, Low)
  {
    var interests := CalculateInterestScores(answers);
    RealisticOnlyScores(answers);
    assert interests[1].percentage == 0.0;
    LeaderThenZeros(interests);
    SecondAreaName();
  }

  lemma SecondAreaName()
    ensures InterestName(InterestAreas[1]) == "Investigative (Research)"
  {
  }

  /** One leader and every other entry at 0%: the order is already descending, so the top two are the first two. */
  lemma LeaderThenZeros(s: seq<DimensionScore>)
    requires |s| >= TopInterestCount && s[0].percentage >= 0.0
    requires forall i :: 1 <= i < |s| ==> s[i].percentage == 0.0
    ensures TopInterests(s) == s[..2]
  {
    assert Descending(s);
    SortOfDescending(s);
  }

  lemma RealisticOnlyScores(answers: Answers)
    requires answers == map[1 := 5, 2 := 5, 3 := 5, 4 := 5]
    ensures CalculateInterestScores(answers)[0] == DimensionScore("Realistic (Hands-on)", 20, 20, 100.0, High)
    ensures forall k :: 1 <= k < 6 ==>
      CalculateInterestScores(answers)[k] == DimensionScore(InterestName(InterestAreas[k]), 0, 20, 0.0, Low)
  {
    IdRangeMembers(1, 5);
    SumConstant(IdRange(1, 5), answers, 5);
    assert Percentage(20, 20) == 100.0;
    forall k | 1 <= k < 6
      ensures CalculateInterestScores(answers)[k] == DimensionScore(InterestName(InterestAreas[k]), 0, 20, 0.0, Low)
    {
      IdRangeMembers(4 * k + 1, 4 * k + 5);
      SumNoAnswers(IdRange(4 * k + 1, 4 * k + 5), answers);
    }
  }

  /** Study-style questions 61..72 all answered 3: 36 of 60, 60%, band moderate. */
  lemma StudyStyleExample(answers: Answers)
    requires forall id :: 61 <= id <= 72 ==> id in answers && answers[id] == 3
    ensures CalculateAssessmentResults(answers).studyStyleScore ==
      DimensionScore("Study Style & Discipline", 36, 60, 60.0, Moderate)
  {
    StudyStyleSection(answers);
    ResultsFields(answers);
  }

  lemma StudyStyleSection(answers: Answers)
    requires forall id :: 61 <= id <= 72 ==> id in answers && answers[id] == 3
    ensures CalculateSectionScore(StudyStyle, answers) == SectionAggregate(36, 60, 60.0)
  {
    SectionRanges();
    IdRangeMembers(61, 73);
    SumConstant(IdRange(61, 73), answers, 3);
    var r := CalculateSectionScore(StudyStyle, answers);
    assert r.score == SumAnswers(IdRange(61, 73), answers) == 36;
    assert SectionInfoOf(StudyStyle).questionCount == 12;
    assert r.maxScore == 60;
    assert r.percentage == Percentage(36, 60) == 60.0;
  }

  /** The results' top interests are the top of the interest scores. */
  lemma ResultsTop(answers: Answers)
    ensures CalculateAssessmentResults(answers).topInterests == TopInterests(CalculateInterestScores(answers))
  {
  }

  /** How the results other than the section records are put together from the scorers. */
  lemma ResultsParts(answers: Answers)
    ensures var r := CalculateAssessmentResults(answers);
      r.topInterests == TopInterests(CalculateInterestScores(answers)) &&
      r.strongAptitudes == HighOnly(CalculateAptitudeScores(answers)) &&
      r.personalitySummary == CalculatePersonalityScores(answers) &&
      r.studyStyleScore == SectionDimension("Study Style & Discipline", CalculateSectionScore(StudyStyle, answers)) &&
      r.motivationScore == SectionDimension("Motivation & Stress Handling", CalculateSectionScore(Motivation, answers)) &&
      r.environmentScore == SectionDimension("Environment & Constraints", CalculateSectionScore(Environment, answers))
  {
  }

  /** How the results are put together from the scorers. */
  lemma ResultsFields(answers: Answers)
    ensures var r := CalculateAssessmentResults(answers);
      var interests := CalculateInterestScores(answers);
      var aptitudes := CalculateAptitudeScores(answers);
      var personality := CalculatePersonalityScores(answers);
      r.sections == BuildSections(answers, interests, aptitudes, personality) &&
      r.topInterests == TopInterests(interests) &&
      r.strongAptitudes == HighOnly(aptitudes) &&
      r.personalitySummary == personality &&
      r.studyStyleScore == SectionDimension("Study Style & Discipline", CalculateSectionScore(StudyStyle, answers)) &&
      r.motivationScore == SectionDimension("Motivation & Stress Handling", CalculateSectionScore(Motivation, answers)) &&
      r.environmentScore == SectionDimension("Environment & Constraints", CalculateSectionScore(Environment, answers))
  {
  }
}
