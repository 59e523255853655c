# NAVSPRO assessment core in Dafny

NAVSPRO is a career-readiness questionnaire. A student answers 90 Likert
questions, rated 1 to 5, in six sections: interest (RIASEC), aptitude,
personality, study style, motivation and work environment. The answers are
scored per dimension and per section, and the scores go into a report. This
project models the parts of the application that carry rules:

- `catalogue.dfy` (module `Catalogue`) holds the fixed instrument: the six
  section records, the 5-point scale, and the 90 questions as
  (id, section, subsection) records. It also holds `GetCurrentSection`, the
  section lookup by question number. Its lemmas prove that the section ranges
  partition 1..90, that ids are dense and ascending, and that each subsection
  has 4 or 3 questions in a fixed order.
- `scoring.dfy` (module `Scoring`) is the scoring library:
  - banding;
  - the question filters;
  - `CalculateScore`, the summing loop;
  - the three per-dimension scorers;
  - the section aggregate;
  - `CalculateAssessmentResults`, which builds the top two interests, the
    strong aptitudes and the six section records.
- `scoring_properties.dfy` (module `ScoringProperties`) proves how the scores
  behave together:
  - the sort is ordered and stable;
  - the top-2 interests are maximal;
  - percentages are bounded;
  - empty and all-5 answer maps give the expected scores;
  - scores depend only on their own question ids;
  - section totals equal the sum of their dimension scores;
  - the worked examples hold.
- `navigation.dfy` (module `Navigation`) is the questionnaire's state
  machine (`currentIndex`, `answers`, `isComplete`). Each transition is a
  pure function on a `State` value with lemmas about it. The class
  `Questionnaire` holds the three fields, and each handler method is proved
  to move the object's state by that function.
- `motivation.dfy`, `readiness.dfy` and `testimonials.dfy` hold three small
  rules:
  - the progress-dependent encouragement message;
  - the readiness label and colour tiers;
  - the testimonial carousel's wrap-around index, as the class `Carousel`.
- `wrappers.dfy` holds `Option`.

Modelling choices:
- Answers are a `map<int, int>` from question id to value.
- Percentages and progress are exact `real`s. The thresholds are also proved
  in cross-multiplied integer form (`BandByCrossMultiplying`).
- JavaScript's `%` truncates toward zero, so it is written out as
  `Testimonials.JsRem`.
- `Array.prototype.sort` on the copied interest list is a library call that
  the ECMAScript standard (section 23.1.3.30 of ECMA-262) requires to be
  stable. It is modelled as a pure stable insertion sort, `SortByPercentage`.

## Model

| member | source | states |
|---|---|---|
| Catalogue.SectionsAreContiguous | src/data/assessmentQuestions.ts:52-101 | six sections in the order interest..environment; each has `endQuestion == startQuestion + questionCount - 1`; the first starts at 1, the last ends at 90, and each one starts right after the previous one ends |
| Catalogue.SectionsPartition | src/data/assessmentQuestions.ts:52-101 | a number lies in some section's range iff it is in 1..90, and no number lies in two different sections' ranges |
| Catalogue.AscendingRanges | src/data/assessmentQuestions.ts:52-101 | an earlier section's range ends before any later section's range starts |
| Catalogue.LikertScale | src/data/assessmentQuestions.ts:103-109 | exactly five options, with values 1..5 in ascending order |
| Catalogue.QuestionsDense | src/data/assessmentQuestions.ts:111-267 | 90 questions; the entry at index i has id i+1; its section is the section whose range contains i+1 |
| Catalogue.QuestionsLayout | src/data/assessmentQuestions.ts:111-267 | the question list is the six section blocks laid end to end, with the ids and section tags above |
| Catalogue.InterestLayout | src/data/assessmentQuestions.ts:117-151 | the 24 interest questions are ids 1..24; the question at index i (id i+1) is in RIASEC area i/4 (four each, in order realistic..conventional) |
| Catalogue.AptitudeLayout | src/data/assessmentQuestions.ts:158-186 | the 18 aptitude questions are ids 25..42, three per ability area in declaration order |
| Catalogue.PersonalityLayout | src/data/assessmentQuestions.ts:194-221 | the 18 personality questions are ids 43..60, three per trait in declaration order |
| Catalogue.SectionRanges | src/data/assessmentQuestions.ts:52-101 | the concrete ranges: interest 1-24, aptitude 25-42, personality 43-60, study style 61-72, motivation 73-82, environment 83-90 |
| Catalogue.FindSection | src/data/assessmentQuestions.ts:270-274 | the `find` scan: None iff no section contains the number; otherwise the first section that contains it |
| Catalogue.GetCurrentSection | src/data/assessmentQuestions.ts:269-274 | some section iff 1 <= q <= 90, and the section returned contains q |
| Catalogue.GetCurrentSectionUnique | src/data/assessmentQuestions.ts:269-274 | whenever section k contains q, the lookup returns exactly section k |
| Catalogue.GetCurrentSectionExamples | src/data/assessmentQuestions.ts:269-274 | the lookup gives None for 0 and 91, and the right section for 1, 24, 25 and 90 |
| Scoring.GetScoreBand | src/lib/scoringUtils.ts:43-56 | low iff p < 40, moderate iff 40 <= p < 70, high iff p >= 70 |
| Scoring.BandBoundaries | src/lib/scoringUtils.ts:43-56 | 39.99 is low, 40 is moderate, 69.99 is moderate, 70 is high |
| Scoring.BandMonotone | src/lib/scoringUtils.ts:43-56 | a higher percentage never gets a lower band |
| Scoring.Percentage | src/lib/scoringUtils.ts:126 | 0 when maxScore is 0 (or the score is 0); within [0,100] when 0 <= score <= maxScore; 100 when score == maxScore |
| Scoring.PercentageScaled | src/lib/scoringUtils.ts:126 | for maxScore > 0, percentage × maxScore == 100 × score |
| Scoring.BandByCrossMultiplying | src/lib/scoringUtils.ts:43-56 | the band in integers: low iff 100·score < 40·max, high iff 100·score >= 70·max |
| Scoring.GetBandInterpretation | src/lib/scoringUtils.ts:324-333 | a non-empty text for every band |
| Scoring.BandInterpretationsDistinct | src/lib/scoringUtils.ts:324-333 | different bands get different texts |
| Scoring.SelectMembers | src/lib/scoringUtils.ts:61-75 | the filter keeps exactly the questions that match the predicate |
| Scoring.GetQuestionsForSubsection | src/lib/scoringUtils.ts:61-68 | the filtered list has at most 90 entries (its members are stated by SubsectionMembers) |
| Scoring.GetQuestionsForSection | src/lib/scoringUtils.ts:73-75 | the filtered list has at most 90 entries (its members are stated by SectionMembers) |
| Scoring.SubsectionMembers | src/lib/scoringUtils.ts:61-68 | a question is returned iff it is in the catalogue with that section and subsection |
| Scoring.SectionMembers | src/lib/scoringUtils.ts:73-75 | a question is returned iff it is in the catalogue with that section |
| Scoring.InterestSubsectionIds | src/lib/scoringUtils.ts:61-68 | the ids of RIASEC area k are exactly 4k+1..4k+4 |
| Scoring.AptitudeSubsectionIds | src/lib/scoringUtils.ts:61-68 | the ids of ability area k are exactly 25+3k..27+3k |
| Scoring.PersonalitySubsectionIds | src/lib/scoringUtils.ts:61-68 | the ids of trait k are exactly 43+3k..45+3k |
| Scoring.SectionIds | src/lib/scoringUtils.ts:73-75 | the ids of a section are exactly its declared range start..end |
| Scoring.CalculateScore | src/lib/scoringUtils.ts:80-96 | the loop's score is the sum of the answers present for the given ids, with missing ids adding 0; maxScore is 5 × the number of ids |
| Scoring.SumAppend | src/lib/scoringUtils.ts:87-92 | the sum over a concatenation is the sum of the two parts |
| Scoring.SumFrame | src/lib/scoringUtils.ts:87-92 | two answer maps that agree on the ids give the same sum |
| Scoring.SumBounds | src/lib/scoringUtils.ts:87-92 | with every answer in 1..5, the sum is within 0..5 × count |
| Scoring.SumConstant | src/lib/scoringUtils.ts:87-92 | ids all answered with v sum to v × count |
| Scoring.SumNoAnswers | src/lib/scoringUtils.ts:87-92 | ids with no answers sum to 0 |
| Scoring.ScoreDimension | src/lib/scoringUtils.ts:122-135 | a dimension record carries its name, the sum of the answers present for its ids and maxScore 5 × the number of ids; its percentage times maxScore is 100 × score (0 for no ids); its band is the band of its percentage |
| Scoring.CalculateInterestScores | src/lib/scoringUtils.ts:101-136 | six entries in RIASEC order with their display names; entry k scores ids 4k+1..4k+4, with maxScore 20 and its own percentage and band |
| Scoring.CalculateAptitudeScores | src/lib/scoringUtils.ts:141-176 | six entries in area order with their display names; entry k scores ids 25+3k..27+3k, with maxScore 15 |
| Scoring.CalculatePersonalityScores | src/lib/scoringUtils.ts:181-216 | six entries in trait order with their display names; entry k scores ids 43+3k..45+3k, with maxScore 15 |
| Scoring.CalculateSectionScore | src/lib/scoringUtils.ts:221-231 | the score is the sum over the section's whole declared id range; maxScore is 5 × questionCount; the percentage follows the zero-max rule |
| Scoring.SortByPercentage | src/lib/scoringUtils.ts:241-242 | the sorted copy is a permutation of the input and is non-increasing in percentage |
| Scoring.TopInterests | src/lib/scoringUtils.ts:240-243 | min(2, n) entries, non-increasing, drawn from the input (all of it when n < 2); the first is at least every input entry; with n >= 2 no entry left out is above the second |
| Scoring.HighOnly | src/lib/scoringUtils.ts:247 | exactly the band-high entries, each as often as in the input, as a subsequence (original order) of the input |
| Scoring.BuildSection | src/lib/scoringUtils.ts:282-307 | a section record carries the section's id and title and, for a listed section, the sum over its declared id range, maxScore 5 × questionCount and the zero-max percentage; the dimension list is the interest, aptitude or personality scores for those three sections and empty for the others |
| Scoring.BuildSections | src/lib/scoringUtils.ts:282-308 | six records, record k for section k in catalogue order, with its id, title, range total, maxScore and percentage |
| Scoring.CalculateAssessmentResults | src/lib/scoringUtils.ts:236-319 | the results hold six section records in catalogue order, two non-increasing top interests drawn from the interest scores, and only band-high strong aptitudes |
| ScoringProperties.SortStable | src/lib/scoringUtils.ts:241-242 | among entries with equal percentage the sort keeps the input order |
| ScoringProperties.SortOfDescending | src/lib/scoringUtils.ts:241-242 | an already non-increasing list is left as it is |
| ScoringProperties.TopInterestsTies | src/lib/scoringUtils.ts:240-243 | when all percentages are equal, the top two are the first two in enumeration order |
| ScoringProperties.ResultsTopInterests | src/lib/scoringUtils.ts:240-243 | the results' top interests are two entries drawn from the interest scores, non-increasing, the first being the maximum and none of the others above the second |
| ScoringProperties.ResultsStrongAptitudes | src/lib/scoringUtils.ts:247 | strong aptitudes are exactly the band-high aptitude entries, in original order |
| ScoringProperties.ResultsSections | src/lib/scoringUtils.ts:282-308 | six section records in catalogue order, each with its section's id, title and aggregate |
| ScoringProperties.ResultsDimensions | src/lib/scoringUtils.ts:282-308 | dimension lists are the three scorers' output for interest, aptitude and personality, and empty for the other three sections |
| ScoringProperties.ResultsSingleScores | src/lib/scoringUtils.ts:253-279 | study style, motivation and environment scores carry the section's title, its aggregate and the band of its own percentage |
| ScoringProperties.BlockTotals | src/lib/scoringUtils.ts:101-216 | scores over consecutive blocks of w ids add up to the sum over the whole span, and their maxima to 5·w·count |
| ScoringProperties.InterestSectionTotal | src/lib/scoringUtils.ts:221-231 | the interest section's score and maxScore (120) equal the sums over its six dimension scores |
| ScoringProperties.AptitudeSectionTotal | src/lib/scoringUtils.ts:221-231 | the aptitude section's score and maxScore (90) equal the sums over its six dimension scores |
| ScoringProperties.PersonalitySectionTotal | src/lib/scoringUtils.ts:221-231 | the personality section's score and maxScore (90) equal the sums over its six dimension scores |
| ScoringProperties.SubsectionsDisjoint | src/lib/scoringUtils.ts:61-68 | no question is returned for two different subsections |
| ScoringProperties.DimensionBounded | src/lib/scoringUtils.ts:87-96 | with answers in 1..5, a dimension's score is within 0..max and its percentage within [0,100] |
| ScoringProperties.SectionBounded | src/lib/scoringUtils.ts:221-231 | the same bounds for a section score |
| ScoringProperties.ResultsBounded | src/lib/scoringUtils.ts:236-319 | with answers in 1..5, every dimension and single-section score in the results is bounded |
| ScoringProperties.SectionsBounded | src/lib/scoringUtils.ts:282-308 | with answers in 1..5, every section record's percentage is in [0,100] |
| ScoringProperties.UnansweredDimension | src/lib/scoringUtils.ts:80-136 | with no answers, a dimension scores 0 out of 5 × count, at 0% and band low |
| ScoringProperties.UnansweredSection | src/lib/scoringUtils.ts:221-231 | with no answers, a section scores 0, at 0% and band low |
| ScoringProperties.EmptyAnswersResults | src/lib/scoringUtils.ts:236-319 | with no answers, every interest, aptitude and personality entry is 0% and low, no aptitude is strong, the top interests are the first two in enumeration order, and the three single-section scores are low |
| ScoringProperties.FullDimension | src/lib/scoringUtils.ts:80-136 | with all 90 answers at 5, a dimension over ids within 1..90 scores its maximum, at 100% and band high |
| ScoringProperties.FullSection | src/lib/scoringUtils.ts:221-231 | with all answers at 5, each section scores its maximum, at 100% and band high |
| ScoringProperties.AllFivesResults | src/lib/scoringUtils.ts:236-319 | with all answers at 5, every interest and personality entry is 100% and high, all six aptitudes are strong, the top interests are the first two, and the three single-section scores are high |
| ScoringProperties.DimensionFrame | src/lib/scoringUtils.ts:87-92 | a dimension score depends only on the answers for its own ids |
| ScoringProperties.DimensionIgnoresOtherIds | src/lib/scoringUtils.ts:87-92 | changing the answer to an id outside a dimension leaves that dimension unchanged |
| ScoringProperties.SectionFrame | src/lib/scoringUtils.ts:221-231 | a section score depends only on the answers for ids in its range |
| ScoringProperties.SectionIgnoresOtherIds | src/lib/scoringUtils.ts:221-231 | changing the answer to an id outside a section's range leaves that section unchanged |
| ScoringProperties.ResultsFrame | src/lib/scoringUtils.ts:236-319 | two answer maps that agree on ids 1..90 give identical results |
| ScoringProperties.ResultsIgnoreUnknownIds | src/lib/scoringUtils.ts:236-319 | an answer stored under an id outside 1..90 changes nothing in the results |
| ScoringProperties.RealisticOnlyExample | src/lib/scoringUtils.ts:101-136 | answers {1..4 := 5}: realistic scores 20/20 at 100% (high), every other interest scores 0/20 at 0% (low), and the top interests are realistic then investigative |
| ScoringProperties.StudyStyleExample | src/lib/scoringUtils.ts:253-279 | ids 61..72 all answered 3: the study style score is 36/60 at 60%, band moderate |
| Navigation.CurrentQuestion | src/pages/Assessment.tsx:31-32 | for an index in range, the current question has id index+1 |
| Navigation.Progress | src/pages/Assessment.tsx:33 | progress lies in (0,100] for an index on the catalogue and is 100 on the last question |
| Navigation.CurrentSection | src/pages/Assessment.tsx:34 | for an index on the catalogue a section is found, and it contains question index+1 |
| Navigation.SelectAnswer | src/pages/Assessment.tsx:121-136 | the value is stored under the current question's id, every other answer and the index are unchanged, and the state becomes complete iff it already was or this is question 90 |
| Navigation.Previous | src/pages/Assessment.tsx:138-142 | back moves one step when the index is > 0 and otherwise changes nothing; answers and completion are untouched |
| Navigation.Advance | src/pages/Assessment.tsx:110-148 | next and auto-advance move one step iff the current question is answered and is not the last; otherwise nothing changes; answers and completion are untouched |
| Navigation.Resume | src/pages/Assessment.tsx:58-67 | no row leaves the state; saved answers replace the current ones when present; a complete row sets isComplete and keeps the index; an open row sets the index to min(answered count, 89) |
| Navigation.TransitionsKeepInRange | src/pages/Assessment.tsx:110-148 | the initial state and every transition (select, previous, advance, resume) keep 0 <= currentIndex <= 89 |
| Navigation.SelectKeepsScale | src/pages/Assessment.tsx:121-126 | selecting a value in 1..5 keeps every stored answer in 1..5 |
| Navigation.SelectThenAdvance | src/pages/Assessment.tsx:110-136 | selecting on a question before the last always lets auto-advance move on, and never marks completion |
| Navigation.AdvanceThenPrevious | src/pages/Assessment.tsx:138-148 | going forward and then back returns to the same state |
| Navigation.PreviousThenAdvance | src/pages/Assessment.tsx:138-148 | going back from an answered position and then forward returns to the same state |
| Navigation.PreviousRearmsAutoAdvance | src/pages/Assessment.tsx:110-119 | going back onto an answered question leaves the auto-advance condition true, so the effect takes the page forward to where it was |
| Navigation.ProgressIncreases | src/pages/Assessment.tsx:33 | progress strictly increases with the index |
| Navigation.CurrentSectionOfQuestion | src/pages/Assessment.tsx:34 | the section shown for a question on the catalogue is the question's own section tag |
| Navigation.AnswerInOrderState | src/pages/Assessment.tsx:110-136 | answering n questions in order, each followed by auto-advance, leaves the index at min(n, 89), answers exactly for ids 1..n with the given values, and completion iff n == 90 |
| Navigation.Questionnaire.constructor | src/pages/Assessment.tsx:17-19 | starts at index 0 with no answers and not complete |
| Navigation.Questionnaire.HandleSelect | src/pages/Assessment.tsx:121-136 | the object moves to the SelectAnswer state of its old state and stays in range |
| Navigation.Questionnaire.HandlePrevious | src/pages/Assessment.tsx:138-142 | the object moves to the Previous state of its old state and stays in range |
| Navigation.Questionnaire.HandleNext | src/pages/Assessment.tsx:144-148 | the object moves to the Advance state of its old state and stays in range |
| Navigation.Questionnaire.AutoAdvance | src/pages/Assessment.tsx:110-119 | the object moves to the Advance state of its old state and stays in range |
| Navigation.Questionnaire.LoadProgress | src/pages/Assessment.tsx:58-67 | the object moves to the Resume state of its old state and the loaded row, and stays in range |
| Motivation.MotivationalText | src/components/assessment/MotivationalText.tsx:10-27 | the greeting on question 1 at any progress; otherwise "Great start" below 25, "doing amazing" in [25,50), "Halfway" in [50,75), "Almost done" in [75,90), "Final stretch" from 90 |
| Motivation.MessagesDistinct | src/components/assessment/MotivationalText.tsx:11-26 | the six messages are pairwise different |
| Motivation.TotalIgnored | src/components/assessment/MotivationalText.tsx:10-27 | the total-questions argument never changes the message |
| Motivation.TierMonotone | src/components/assessment/MotivationalText.tsx:14-26 | more progress never selects an earlier message |
| Motivation.MessageAlongTheAssessment | src/pages/Assessment.tsx:244-247 | along the questionnaire: question 1 greets, 2-22 "Great start", 23-44 "amazing", 45-67 "Halfway", 68-80 "Almost done", 81-90 "Final stretch" |
| Motivation.ProgressThresholds | src/pages/Assessment.tsx:33 | the 25/50/75/90 progress thresholds fall after questions 22, 44, 67 and 80 |
| Readiness.ScoreLabel | src/components/report/ReadinessRing.tsx:14-19 | "Excellent" iff score >= 80, "Good" iff 60 <= score < 80, "Developing" iff 40 <= score < 60, "Early Stage" iff score < 40 |
| Readiness.ScoreColor | src/components/report/ReadinessRing.tsx:21-25 | the secondary colour iff score >= 80, primary iff 60 <= score < 80, muted iff score < 60 |
| Readiness.ColorFollowsLabel | src/components/report/ReadinessRing.tsx:14-25 | the colour is a function of the label: Excellent gets secondary, Good gets primary, the other two get muted |
| Readiness.LabelMonotone | src/components/report/ReadinessRing.tsx:14-19 | a higher score never gets a lower label |
| Testimonials.JsRem | src/components/landing/TestimonialsSection.tsx:85-91 | JavaScript `%`: equals the mathematical remainder for a >= 0; for a < 0 it is minus the remainder of -a and lies in (-n, 0] |
| Testimonials.NextIndex | src/components/landing/TestimonialsSection.tsx:85-87 | from an index in [0,5), next stays in [0,5) and is i+1, except that 4 goes to 0 |
| Testimonials.PrevIndex | src/components/landing/TestimonialsSection.tsx:89-91 | from an index in [0,5), prev stays in [0,5) and is i-1, except that 0 goes to 4 |
| Testimonials.WrapAround | src/components/landing/TestimonialsSection.tsx:85-91 | next(4) == 0 and prev(0) == 4 |
| Testimonials.RoundTrip | src/components/landing/TestimonialsSection.tsx:85-91 | prev(next(i)) == i and next(prev(i)) == i |
| Testimonials.NextTimesRotates | src/components/landing/TestimonialsSection.tsx:85-87 | k presses of next from i land on (i + k) mod 5 |
| Testimonials.Carousel.constructor | src/components/landing/TestimonialsSection.tsx:81 | activeIndex starts at 0 |
| Testimonials.Carousel.NextTestimonial | src/components/landing/TestimonialsSection.tsx:85-87 | activeIndex becomes next(old activeIndex) and stays valid |
| Testimonials.Carousel.PrevTestimonial | src/components/landing/TestimonialsSection.tsx:89-91 | activeIndex becomes prev(old activeIndex) and stays valid |
| Testimonials.Carousel.SelectDot | src/components/landing/TestimonialsSection.tsx:149-152 | clicking dot k sets activeIndex to k, which is a valid index |

## Left out

- Supabase I/O and authentication: fetching and saving the `assessments` row, the login redirect and the `isLoading` flag. These are network calls to a hosted service. `LoadProgress` takes the fetched row as a parameter, `None` when there is no row or the fetch fails.
- `saveProgress`: its writes leave the modelled state unchanged, so they are omitted.
- The 600 ms `setTimeout` delays before auto-advance and before completion. Completion is set at once by `SelectAnswer`. Auto-advance is the separate method `Questionnaire.AutoAdvance`, taken at the moment its timer fires. The model does not capture a pending timer being cancelled by a later change.
- Navigation.Questionnaire.AutoAdvance: a caller may skip it. In the page the effect re-arms on every change of the index or the answers, so stepping back onto an answered question is followed 600 ms later by a step forward again (`Navigation.PreviousRearmsAutoAdvance` and `Navigation.PreviousThenAdvance` state the step it takes). The model does not force that step, so it does not capture this bounce-back.
- `navigate`, toasts, icons, question and option wording, animations and all JSX.
- Floating point: percentages and progress are exact reals, so double rounding is not modelled. For the maxima that occur (15, 20, 40, 50, 60, 90, 120) this makes no difference at the 40 and 70 cut-offs.
- The ring geometry in ReadinessRing and all report and PDF layout.
- The report transformer (`transformResultsToReportData`). Its source is not part of this model.
- Scoring.CalculateScore: the `answered` counter, which the source computes but never returns, is not modelled.
- Scoring.SortByPercentage: the sort is modelled as a pure function on a sequence, not as an in-place sort of an array copy. Its own contract states the permutation and the order. Stability is proved in `ScoringProperties.SortStable`.
- Scoring.GetQuestionsForSubsection and Scoring.GetQuestionsForSection: their own contracts state only the length bound. Which questions they return is stated by `Scoring.SubsectionMembers`, `Scoring.SectionMembers` and the `...SubsectionIds` lemmas, which keeps the per-score proofs small.
- Scoring.GetBandInterpretation: only the facts that the texts are non-empty and distinct are stated. The wording itself is not.
- The testimonial contents: only their count (5) matters to the index rules.
- The answered-count clamp on the dashboard and the other landing and dashboard widgets: these are presentation only.
