/**
 * The fixed 90-question instrument: six sections with contiguous question-id
 * ranges, the 5-point Likert scale, and every question's section and
 * subsection tag (the prompt text is not modelled).
 */
module Catalogue {
  import opened Wrappers

  datatype Section = Interest | Aptitude | Personality | StudyStyle | Motivation | Environment

  /** The six RIASEC interest areas. */
  datatype InterestArea = Realistic | Investigative | Artistic | Social | Enterprising | Conventional

  datatype AptitudeArea = Logical | Numerical | Verbal | Spatial | Memory | ProblemSolving

  datatype PersonalityDimension =
    Extroversion | Adaptability | EmotionalStability | RiskTaking | Independence | Conscientiousness

  /** A question's subsection tag; the last eighteen occur only under the three single-dimension sections. */
  datatype Subsection =
    | Riasec(area: InterestArea)
    | Ability(aptitude: AptitudeArea)
    | Trait(dimension: PersonalityDimension)
    | Focus | Consistency | Planning | ExamReadiness | Perseverance | Accountability
    | Drive | Persistence | StressManagement | Resilience | Openness | GrowthMindset
    | FamilySupport | Financial | Mobility | Preparation | Resources | HomeEnvironment

  datatype SectionInfo = SectionInfo(
    id: Section,
    title: string,
    questionCount: int,
    startQuestion: int,
    endQuestion: int)

  datatype LikertOption = LikertOption(value: int, labelText: string)

  datatype Question = Question(id: int, section: Section, subsection: Subsection)

  /** The enumeration orders of the three multi-dimension sections. */
  const InterestAreas: seq<InterestArea> :=
    [Realistic, Investigative, Artistic, Social, Enterprising, Conventional]
  const AptitudeAreas: seq<AptitudeArea> :=
    [Logical, Numerical, Verbal, Spatial, Memory, ProblemSolving]
  const PersonalityDimensions: seq<PersonalityDimension> :=
    [Extroversion, Adaptability, EmotionalStability, RiskTaking, Independence, Conscientiousness]

  const TotalQuestions: int := 90

  const Sections: seq<SectionInfo> := [
    SectionInfo(Interest, "Interest Assessment", 24, 1, 24),
    SectionInfo(Aptitude, "Aptitude Tendencies", 18, 25, 42),
    SectionInfo(Personality, "Personality", 18, 43, 60),
    SectionInfo(StudyStyle, "Study Style & Discipline", 12, 61, 72),
    SectionInfo(Motivation, "Motivation & Stress Handling", 10, 73, 82),
    SectionInfo(Environment, "Environment & Constraints", 8, 83, 90)
  ]

  const LikertOptions: seq<LikertOption> := [
    LikertOption(1, "Strongly Disagree"),
    LikertOption(2, "Disagree"),
    LikertOption(3, "Neutral"),
    LikertOption(4, "Agree"),
    LikertOption(5, "Strongly Agree")
  ]

  // Part 1: interest assessment, Q1-24, six RIASEC areas of four questions each.
  const InterestPart: seq<Question> := [
      Question(1, Interest, Riasec(Realistic)),
      Question(2, Interest, Riasec(Realistic)),
      Question(3, Interest, Riasec(Realistic)),
      Question(4, Interest, Riasec(Realistic)),
      Question(5, Interest, Riasec(Investigative)),
      Question(6, Interest, Riasec(Investigative)),
      Question(7, Interest, Riasec(Investigative)),
      Question(8, Interest, Riasec(Investigative)),
      Question(9, Interest, Riasec(Artistic)),
      Question(10, Interest, Riasec(Artistic)),
      Question(11, Interest, Riasec(Artistic)),
      Question(12, Interest, Riasec(Artistic)),
      Question(13, Interest, Riasec(Social)),
      Question(14, Interest, Riasec(Social)),
      Question(15, Interest, Riasec(Social)),
      Question(16, Interest, Riasec(Social)),
      Question(17, Interest, Riasec(Enterprising)),
      Question(18, Interest, Riasec(Enterprising)),
      Question(19, Interest, Riasec(Enterprising)),
      Question(20, Interest, Riasec(Enterprising)),
      Question(21, Interest, Riasec(Conventional)),
      Question(22, Interest, Riasec(Conventional)),
      Question(23, Interest, Riasec(Conventional)),
      Question(24, Interest, Riasec(Conventional))
  ]

  // Part 2: aptitude tendencies, Q25-42, six areas of three questions each.
  const AptitudePart: seq<Question> := [
      Question(25, Aptitude, Ability(Logical)),
      Question(26, Aptitude, Ability(Logical)),
      Question(27, Aptitude, Ability(Logical)),
      Question(28, Aptitude, Ability(Numerical)),
      Question(29, Aptitude, Ability(Numerical)),
      Question(30, Aptitude, Ability(Numerical)),
      Question(31, Aptitude, Ability(Verbal)),
      Question(32, Aptitude, Ability(Verbal)),
      Question(33, Aptitude, Ability(Verbal)),
      Question(34, Aptitude, Ability(Spatial)),
      Question(35, Aptitude, Ability(Spatial)),
      Question(36, Aptitude, Ability(Spatial)),
      Question(37, Aptitude, Ability(Memory)),
      Question(38, Aptitude, Ability(Memory)),
      Question(39, Aptitude, Ability(Memory)),
      Question(40, Aptitude, Ability(ProblemSolving)),
      Question(41, Aptitude, Ability(ProblemSolving)),
      Question(42, Aptitude, Ability(ProblemSolving))
  ]

  // Part 3: personality, Q43-60, six behavioural dimensions of three questions each.
  const PersonalityPart: seq<Question> := [
      Question(43, Personality, Trait(Extroversion)),
      Question(44, Personality, Trait(Extroversion)),
      Question(45, Personality, Trait(Extroversion)),
      Question(46, Personality, Trait(Adaptability)),
      Question(47, Personality, Trait(Adaptability)),
      Question(48, Personality, Trait(Adaptability)),
      Question(49, Personality, Trait(EmotionalStability)),
      Question(50, Personality, Trait(EmotionalStability)),
      Question(51, Personality, Trait(EmotionalStability)),
      Question(52, Personality, Trait(RiskTaking)),
      Question(53, Personality, Trait(RiskTaking)),
      Question(54, Personality, Trait(RiskTaking)),
      Question(55, Personality, Trait(Independence)),
      Question(56, Personality, Trait(Independence)),
      Question(57, Personality, Trait(Independence)),
      Question(58, Personality, Trait(Conscientiousness)),
      Question(59, Personality, Trait(Conscientiousness)),
      Question(60, Personality, Trait(Conscientiousness))
  ]

  // Part 4: study style and discipline, Q61-72.
  const StudyStylePart: seq<Question> := [
      Question(61, StudyStyle, Focus),
      Question(62, StudyStyle, Focus),
      Question(63, StudyStyle, Consistency),
      Question(64, StudyStyle, Consistency),
      Question(65, StudyStyle, Planning),
      Question(66, StudyStyle, Planning),
      Question(67, StudyStyle, ExamReadiness),
      Question(68, StudyStyle, ExamReadiness),
      Question(69, StudyStyle, Perseverance),
      Question(70, StudyStyle, Perseverance),
      Question(71, StudyStyle, Accountability),
      Question(72, StudyStyle, Accountability)
  ]

  // Part 5: motivation and stress handling, Q73-82.
  const MotivationPart: seq<Question> := [
      Question(73, Motivation, Drive),
      Question(74, Motivation, Drive),
      Question(75, Motivation, Persistence),
      Question(76, Motivation, Persistence),
      Question(77, Motivation, StressManagement),
      Question(78, Motivation, StressManagement),
      Question(79, Motivation, Resilience),
      Question(80, Motivation, Openness),
      Question(81, Motivation, GrowthMindset),
      Question(82, Motivation, GrowthMindset)
  ]

  // Part 6: environment and constraints, Q83-90.
  const EnvironmentPart: seq<Question> := [
      Question(83, Environment, FamilySupport),
      Question(84, Environment, FamilySupport),
      Question(85, Environment, Financial),
      Question(86, Environment, Mobility),
      Question(87, Environment, Preparation),
      Question(88, Environment, Resources),
      Question(89, Environment, HomeEnvironment),
      Question(90, Environment, HomeEnvironment)
  ]

  /** The full question list, in id order. */
  const Questions: seq<Question> :=
    InterestPart + AptitudePart + PersonalityPart + StudyStylePart + MotivationPart + EnvironmentPart

  predicate Contains(s: SectionInfo, questionNumber: int) {
    s.startQuestion <= questionNumber <= s.endQuestion
  }

  /** `Array.prototype.find` over section records: the first one whose range holds the number. */
  function FindSection(secs: seq<SectionInfo>, questionNumber: int): (r: Option<SectionInfo>)
    ensures r.None? <==> forall k :: 0 <= k < |secs| ==> !Contains(secs[k], questionNumber)
    ensures r.Some? ==> exists k :: 0 <= k < |secs| && secs[k] == r.value && Contains(secs[k], questionNumber) &&
                                    forall j :: 0 <= j < k ==> !Contains(secs[j], questionNumber)
  {
    if secs == [] then None
    else if Contains(secs[0], questionNumber) then Some(secs[0])
    else
      var r := FindSection(secs[1..], questionNumber);
      assert r.Some? ==> exists k :: 1 <= k < |secs| && secs[k] == r.value && Contains(secs[k], questionNumber) &&
                                     forall j :: 0 <= j < k ==> !Contains(secs[j], questionNumber) by {
        if r.Some? {
          var k :| 0 <= k < |secs[1..]| && secs[1..][k] == r.value && Contains(secs[1..][k], questionNumber) &&
                   forall j :: 0 <= j < k ==> !Contains(secs[1..][j], questionNumber);
          forall j | 0 <= j < k + 1 ensures !Contains(secs[j], questionNumber) {
            if j > 0 { assert secs[j] == secs[1..][j - 1]; }
          }
          assert secs[k + 1] == r.value;
        }
      }
      r
  }

  /** The section a question number falls in; `None` for numbers outside 1..90. */
  function GetCurrentSection(questionNumber: int): (r: Option<SectionInfo>)
    ensures r.Some? <==> 1 <= questionNumber <= TotalQuestions
    ensures r.Some? ==> r.value in Sections && Contains(r.value, questionNumber)
  {
    SectionsPartition(questionNumber);
    FindSection(Sections, questionNumber)
  }

  /** The six records are consistent with their counts, ascending, contiguous and span 1..90. */
  lemma SectionsAreContiguous()
    ensures |Sections| == 6
    ensures forall k :: 0 <= k < 6 ==>
      Sections[k].startQuestion <= Sections[k].endQuestion &&
      Sections[k].questionCount == Sections[k].endQuestion - Sections[k].startQuestion + 1
    ensures Sections[0].startQuestion == 1 && Sections[5].endQuestion == TotalQuestions
    ensures forall k :: 0 <= k < 5 ==> Sections[k + 1].startQuestion == Sections[k].endQuestion + 1
    ensures forall k :: 0 <= k < 6 ==> Sections[k].id == [Interest, Aptitude, Personality, StudyStyle, Motivation, Environment][k]
  {
  }

  /** Contiguity alone makes the ranges a partition of 1..90: every number is covered once. */
  lemma {:induction false} SectionsPartition(q: int)
    ensures (1 <= q <= TotalQuestions) <==> exists k :: 0 <= k < |Sections| && Contains(Sections[k], q)
    ensures forall i, j ::
      0 <= i < |Sections| && 0 <= j < |Sections| && Contains(Sections[i], q) && Contains(Sections[j], q) ==> i == j
  {
    SectionsAreContiguous();
    forall i, j | 0 <= i < j < |Sections| ensures Sections[i].endQuestion < Sections[j].startQuestion {
      AscendingRanges(i, j);
    }
    if 1 <= q <= TotalQuestions {
      var k := CoveringIndex(q, 0);
      assert Contains(Sections[k], q);
    }
  }

  lemma {:induction false} AscendingRanges(i: int, j: int)
    requires 0 <= i < j < |Sections|
    ensures Sections[i].endQuestion < Sections[j].startQuestion
    decreases j - i
  {
    SectionsAreContiguous();
    if i + 1 < j {
      AscendingRanges(i + 1, j);
    }
  }

  lemma {:induction false} CoveringIndex(q: int, from: int) returns (k: int)
    requires 0 <= from < |Sections| && Sections[from].startQuestion <= q <= TotalQuestions
    ensures from <= k < |Sections| && Contains(Sections[k], q)
    decreases |Sections| - from
  {
    SectionsAreContiguous();
    if q <= Sections[from].endQuestion {
      k := from;
    } else {
      k := CoveringIndex(q, from + 1);
    }
  }

  /** `GetCurrentSection` returns the unique section containing the number. */
  lemma GetCurrentSectionUnique(q: int, k: int)
    requires 0 <= k < |Sections| && Contains(Sections[k], q)
    ensures GetCurrentSection(q) == Some(Sections[k])
  {
    SectionsPartition(q);
  }

  lemma GetCurrentSectionExamples()
    ensures GetCurrentSection(0) == None && GetCurrentSection(91) == None
    ensures GetCurrentSection(1) == Some(Sections[0]) && GetCurrentSection(24) == Some(Sections[0])
    ensures GetCurrentSection(25) == Some(Sections[1]) && GetCurrentSection(90) == Some(Sections[5])
  {
    GetCurrentSectionUnique(1, 0);
    GetCurrentSectionUnique(24, 0);
    GetCurrentSectionUnique(25, 1);
    GetCurrentSectionUnique(90, 5);
  }

  lemma LikertScale()
    ensures |LikertOptions| == 5
    ensures forall i :: 0 <= i < 5 ==> LikertOptions[i].value == i + 1
  {
  }

  /** Every question of a part carries the given section and consecutive ids from `firstId`. */
  ghost predicate PartLayout(part: seq<Question>, firstId: int, section: Section) {
    forall i :: 0 <= i < |part| ==> part[i].id == firstId + i && part[i].section == section
  }

  lemma InterestLayout()
    ensures |InterestPart| == 24
    ensures forall i :: 0 <= i < 24 ==> InterestPart[i] == Question(i + 1, Interest, Riasec(InterestAreas[i / 4]))
  {
  }

  lemma AptitudeLayout()
    ensures |AptitudePart| == 18
    ensures forall i :: 0 <= i < 18 ==> AptitudePart[i] == Question(25 + i, Aptitude, Ability(AptitudeAreas[i / 3]))
  {
  }

  lemma PersonalityLayout()
    ensures |PersonalityPart| == 18
    ensures forall i :: 0 <= i < 18 ==>
      PersonalityPart[i] == Question(43 + i, Personality, Trait(PersonalityDimensions[i / 3]))
  {
  }

  lemma StudyStyleLayout()
    ensures |StudyStylePart| == 12 && PartLayout(StudyStylePart, 61, StudyStyle)
  {
  }

  lemma MotivationLayout()
    ensures |MotivationPart| == 10 && PartLayout(MotivationPart, 73, Motivation)
  {
  }

  lemma EnvironmentLayout()
    ensures |EnvironmentPart| == 8 && PartLayout(EnvironmentPart, 83, Environment)
  {
  }

  lemma PartsLayout()
    ensures |InterestPart| == 24 && PartLayout(InterestPart, 1, Interest)
    ensures |AptitudePart| == 18 && PartLayout(AptitudePart, 25, Aptitude)
    ensures |PersonalityPart| == 18 && PartLayout(PersonalityPart, 43, Personality)
    ensures |StudyStylePart| == 12 && PartLayout(StudyStylePart, 61, StudyStyle)
    ensures |MotivationPart| == 10 && PartLayout(MotivationPart, 73, Motivation)
    ensures |EnvironmentPart| == 8 && PartLayout(EnvironmentPart, 83, Environment)
  {
    InterestLayout();
    AptitudeLayout();
    PersonalityLayout();
    StudyStyleLayout();
    MotivationLayout();
    EnvironmentLayout();
  }

  /** The block of the question list that holds a section's questions. */
  function SectionPart(section: Section): seq<Question> {
    match section
    case Interest => InterestPart
    case Aptitude => AptitudePart
    case Personality => PersonalityPart
    case StudyStyle => StudyStylePart
    case Motivation => MotivationPart
    case Environment => EnvironmentPart
  }

  /** The record of a section. */
  function SectionInfoOf(section: Section): (info: SectionInfo)
    ensures info in Sections && info.id == section
    ensures info.endQuestion == info.startQuestion + info.questionCount - 1 && info.questionCount > 0
  {
    match section
    case Interest => Sections[0]
    case Aptitude => Sections[1]
    case Personality => Sections[2]
    case StudyStyle => Sections[3]
    case Motivation => Sections[4]
    case Environment => Sections[5]
  }

  /** Looking up a listed section's id gives back its record. */
  lemma SectionInfoOfMember(info: SectionInfo)
    requires info in Sections
    ensures SectionInfoOf(info.id) == info
  {
  }

  /** The declared range of each section. */
  lemma SectionRanges()
    ensures SectionInfoOf(Interest).startQuestion == 1 && SectionInfoOf(Interest).endQuestion == 24
    ensures SectionInfoOf(Aptitude).startQuestion == 25 && SectionInfoOf(Aptitude).endQuestion == 42
    ensures SectionInfoOf(Personality).startQuestion == 43 && SectionInfoOf(Personality).endQuestion == 60
    ensures SectionInfoOf(StudyStyle).startQuestion == 61 && SectionInfoOf(StudyStyle).endQuestion == 72
    ensures SectionInfoOf(Motivation).startQuestion == 73 && SectionInfoOf(Motivation).endQuestion == 82
    ensures SectionInfoOf(Environment).startQuestion == 83 && SectionInfoOf(Environment).endQuestion == 90
  {
  }

  /** Every section's range lies inside 1..90. */
  lemma SectionWithinCatalogue(section: Section)
    ensures 1 <= SectionInfoOf(section).startQuestion <= SectionInfoOf(section).endQuestion <= TotalQuestions
  {
    SectionRanges();
  }

  /** Each section's block has the section's length and starts at its first question. */
  lemma SectionPartLayout(section: Section)
    ensures |SectionPart(section)| == SectionInfoOf(section).questionCount
    ensures PartLayout(SectionPart(section), SectionInfoOf(section).startQuestion, section)
    ensures SectionInfoOf(section).endQuestion == SectionInfoOf(section).startQuestion + SectionInfoOf(section).questionCount - 1
  {
    match section
    case Interest => InterestLayout();
    case Aptitude => AptitudeLayout();
    case Personality => PersonalityLayout();
    case StudyStyle => StudyStyleLayout();
    case Motivation => MotivationLayout();
    case Environment => EnvironmentLayout();
  }

  /** The section of the question at 0-based position i of the list, from the declared ranges. */
  function SectionIndexAt(i: int): (k: int)
    ensures 0 <= k < 6
  {
    if i < 24 then 0 else if i < 42 then 1 else if i < 60 then 2 else if i < 72 then 3 else if i < 82 then 4 else 5
  }

  /** Six parts laid out back to back number their questions 1..90 and keep each in its section. */
  lemma ConcatLayout(
    p1: seq<Question>, p2: seq<Question>, p3: seq<Question>,
    p4: seq<Question>, p5: seq<Question>, p6: seq<Question>)
    requires |p1| == 24 && PartLayout(p1, 1, Interest) && |p2| == 18 && PartLayout(p2, 25, Aptitude)
    requires |p3| == 18 && PartLayout(p3, 43, Personality) && |p4| == 12 && PartLayout(p4, 61, StudyStyle)
    requires |p5| == 10 && PartLayout(p5, 73, Motivation) && |p6| == 8 && PartLayout(p6, 83, Environment)
    ensures |p1 + p2 + p3 + p4 + p5 + p6| == 90
    ensures forall i :: 0 <= i < 90 ==> (p1 + p2 + p3 + p4 + p5 + p6)[i].id == i + 1
    ensures forall i :: 0 <= i < 90 ==>
      (p1 + p2 + p3 + p4 + p5 + p6)[i].section == [Interest, Aptitude, Personality, StudyStyle, Motivation, Environment][SectionIndexAt(i)]
  {
  }

  lemma QuestionsLayout()
    ensures |Questions| == 90
    ensures forall i :: 0 <= i < 90 ==> Questions[i].id == i + 1
    ensures forall i :: 0 <= i < 90 ==>
      Questions[i].section == [Interest, Aptitude, Personality, StudyStyle, Motivation, Environment][SectionIndexAt(i)]
  {
    PartsLayout();
    ConcatLayout(InterestPart, AptitudePart, PersonalityPart, StudyStylePart, MotivationPart, EnvironmentPart);
  }

  /** The question at 0-based position i has id i + 1. */
  lemma QuestionIds()
    ensures |Questions| == TotalQuestions
    ensures forall i :: 0 <= i < |Questions| ==> Questions[i].id == i + 1
  {
    QuestionsLayout();
  }

  /** 90 questions whose ids are 1..90 in order, each inside its own section's range. */
  lemma QuestionsDense()
    ensures |Questions| == TotalQuestions
    ensures forall i :: 0 <= i < |Questions| ==> Questions[i].id == i + 1
    ensures forall i :: 0 <= i < |Questions| ==>
      GetCurrentSection(Questions[i].id).Some? && GetCurrentSection(Questions[i].id).value.id == Questions[i].section
  {
    QuestionsLayout();
    SectionsAreContiguous();
    forall i | 0 <= i < |Questions|
      ensures GetCurrentSection(i + 1).Some? && GetCurrentSection(i + 1).value.id == Questions[i].section
    {
      GetCurrentSectionUnique(i + 1, SectionIndexAt(i));
    }
  }
}
