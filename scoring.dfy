/**
 * Scoring of an answer map against the instrument: score bands, question
 * filters, the per-question sum, the three per-dimension scorers, the
 * section aggregate and the composition of the full results.
 *
 * Answers are a map from question id to the selected value; ids missing from
 * the map are unanswered. Percentages are exact reals (the source computes
 * them in doubles).
 */
module Scoring {
  import opened Catalogue

  datatype Band = Low | Moderate | High

  datatype DimensionScore = DimensionScore(
    name: string,
    score: int,
    maxScore: int,
    percentage: real,
    band: Band)

  datatype SectionScores = SectionScores(
    sectionId: Section,
    sectionTitle: string,
    totalScore: int,
    maxScore: int,
    percentage: real,
    dimensions: seq<DimensionScore>)

  datatype AssessmentResults = AssessmentResults(
    sections: seq<SectionScores>,
    topInterests: seq<DimensionScore>,
    strongAptitudes: seq<DimensionScore>,
    personalitySummary: seq<DimensionScore>,
    studyStyleScore: DimensionScore,
    motivationScore: DimensionScore,
    environmentScore: DimensionScore)

  /** What `calculateScore` returns. */
  datatype ScoreTally = ScoreTally(score: int, maxScore: int)

  /** What `calculateSectionScore` returns. */
  datatype SectionAggregate = SectionAggregate(score: int, maxScore: int, percentage: real)

  type Answers = map<int, int>

  // Band thresholds, in percent.
  const LowThreshold: real := 40.0
  const ModerateThreshold: real := 70.0

  /** The largest value a single answer can take. */
  const MaxPerQuestion: int := 5

  /** How many interests the results rank at the top. */
  const TopInterestCount: int := 2

  // ---------------------------------------------------------------------------
  // Bands and percentages
  // ---------------------------------------------------------------------------

  function GetScoreBand(percentage: real): (b: Band)
    ensures b == Low <==> percentage < 40.0
    ensures b == Moderate <==> 40.0 <= percentage < 70.0
    ensures b == High <==> 70.0 <= percentage
  {
    if percentage < LowThreshold then Low
    else if percentage < ModerateThreshold then Moderate
    else High
  }

  /** The order of the bands, lowest first. */
  function Rank(b: Band): int {
    match b
    case Low => 0
    case Moderate => 1
    case High => 2
  }

  /** A higher percentage never gets a lower band. */
  lemma BandMonotone(p: real, q: real)
    requires p <= q
    ensures Rank(GetScoreBand(p)) <= Rank(GetScoreBand(q))
  {
  }

  /** Each band's lower bound belongs to it. */
  lemma BandBoundaries()
    ensures GetScoreBand(0.0) == Low && GetScoreBand(39.99) == Low
    ensures GetScoreBand(40.0) == Moderate && GetScoreBand(69.99) == Moderate
    ensures GetScoreBand(70.0) == High && GetScoreBand(100.0) == High
  {
  }

  /** `maxScore > 0 ? (score / maxScore) * 100 : 0`, computed exactly. */
  function Percentage(score: int, maxScore: int): (p: real)
    ensures maxScore <= 0 || score == 0 ==> p == 0.0
    ensures maxScore > 0 && 0 <= score <= maxScore ==> 0.0 <= p <= 100.0
    ensures maxScore > 0 && score == maxScore ==> p == 100.0
  {
    if maxScore > 0 then (score as real / maxScore as real) * 100.0 else 0.0
  }

  /** A percentage times its maximum is a hundred times the score. */
  lemma PercentageScaled(score: int, maxScore: int)
    requires maxScore > 0
    ensures Percentage(score, maxScore) * (maxScore as real) == 100.0 * (score as real)
  {
  }

  /** The band of a percentage, decided on integers by cross-multiplying. */
  lemma BandByCrossMultiplying(score: int, maxScore: int)
    requires maxScore > 0
    ensures GetScoreBand(Percentage(score, maxScore)) == Low <==> 100 * score < 40 * maxScore
    ensures GetScoreBand(Percentage(score, maxScore)) == High <==> 100 * score >= 70 * maxScore
  {
    var p := Percentage(score, maxScore);
    PercentageScaled(score, maxScore);
    CrossMultiply(p, score, maxScore, 40);
    CrossMultiply(p, score, maxScore, 70);
  }

  /** A percentage p of score out of maxScore is below t exactly when 100 * score is below t * maxScore. */
  lemma CrossMultiply(p: real, score: int, maxScore: int, t: int)
    requires maxScore > 0 && p * (maxScore as real) == 100.0 * (score as real)
    ensures p < t as real <==> 100 * score < t * maxScore
  {
    ScaleStrict(p, t as real, maxScore as real);
    assert (t * maxScore) as real == (t as real) * (maxScore as real);
  }

  /** Multiplying by a positive factor keeps a strict order. */
  lemma ScaleStrict(a: real, b: real, m: real)
    requires m > 0.0
    ensures a < b <==> a * m < b * m
  {
    if a < b {
      assert (b - a) * m > 0.0;
    } else {
      assert (a - b) * m >= 0.0;
    }
  }

  function GetBandInterpretation(band: Band): (text: string)
    ensures text != ""
  {
    match band
    case Low => "Needs support or not a natural strength"
    case Moderate => "Can perform well with guidance"
    case High => "Natural inclination or strength"
  }

  /** Different bands are explained by different texts. */
  lemma BandInterpretationsDistinct(a: Band, b: Band)
    requires a != b
    ensures GetBandInterpretation(a) != GetBandInterpretation(b)
  {
    var ta, tb := GetBandInterpretation(a), GetBandInterpretation(b);
    assert ta[0] != tb[0] || |ta| != |tb|;
  }

  // ---------------------------------------------------------------------------
  // Question filters
  // ---------------------------------------------------------------------------

  /** The two filter conditions of the source: a whole section, or one subsection of it. */
  datatype Selector = BySection(section: Section) | BySubsection(section: Section, subsection: Subsection)

  predicate Selects(sel: Selector, q: Question) {
    q.section == sel.section && (sel.BySubsection? ==> q.subsection == sel.subsection)
  }

  /** `Array.prototype.filter` with the selector's condition. */
  function Select(qs: seq<Question>, sel: Selector): (r: seq<Question>)
    ensures |r| <= |qs|
  {
    if qs == [] then []
    else (if Selects(sel, qs[0]) then [qs[0]] else []) + Select(qs[1..], sel)
  }

  /** The filter keeps exactly the questions its condition holds for. */
  lemma {:induction false} SelectMembers(qs: seq<Question>, sel: Selector)
    ensures forall q :: q in Select(qs, sel) <==> q in qs && Selects(sel, q)
  {
    if qs != [] {
      SelectMembers(qs[1..], sel);
      assert qs == [qs[0]] + qs[1..];
    }
  }

  function GetQuestionsForSubsection(section: Section, subsection: Subsection): (r: seq<Question>)
    ensures |r| <= |Questions|
  {
    Select(Questions, BySubsection(section, subsection))
  }

  /** The questions of a subsection are the catalogue entries of that section and subsection. */
  lemma SubsectionMembers(section: Section, subsection: Subsection)
    ensures forall q :: q in GetQuestionsForSubsection(section, subsection) <==>
      q in Questions && q.section == section && q.subsection == subsection
  {
    var sel := BySubsection(section, subsection);
    assert forall q :: Selects(sel, q) <==> q.section == section && q.subsection == subsection;
    SelectMembers(Questions, sel);
  }

  function GetQuestionsForSection(section: Section): (r: seq<Question>)
    ensures |r| <= |Questions|
  {
    Select(Questions, BySection(section))
  }

  /** The questions of a section are the catalogue entries of that section. */
  lemma SectionMembers(section: Section)
    ensures forall q :: q in GetQuestionsForSection(section) <==> q in Questions && q.section == section
  {
    SelectMembers(Questions, BySection(section));
  }

  /** `questions.map((q) => q.id)`. */
  function Ids(qs: seq<Question>): (r: seq<int>)
    ensures |r| == |qs| && forall i :: 0 <= i < |qs| ==> r[i] == qs[i].id
  {
    seq(|qs|, i requires 0 <= i < |qs| => qs[i].id)
  }

  /** The ids lo, lo+1, ..., hi-1. */
  function IdRange(lo: int, hi: int): (r: seq<int>)
    ensures |r| == (if lo <= hi then hi - lo else 0)
    ensures forall i :: 0 <= i < |r| ==> r[i] == lo + i
  {
    if lo <= hi then seq(hi - lo, i requires 0 <= i < hi - lo => lo + i) else []
  }

  /** The ids of a range are exactly the integers from lo up to hi - 1. */
  lemma IdRangeMembers(lo: int, hi: int)
    ensures forall id :: id in IdRange(lo, hi) <==> lo <= id < hi
  {
    forall id | lo <= id < hi ensures id in IdRange(lo, hi) {
      assert IdRange(lo, hi)[id - lo] == id;
    }
  }

  lemma IdRangeSplit(lo: int, mid: int, hi: int)
    requires lo <= mid <= hi
    ensures IdRange(lo, hi) == IdRange(lo, mid) + IdRange(mid, hi)
  {
  }

  lemma {:induction false} SelectAppend(a: seq<Question>, b: seq<Question>, sel: Selector)
    ensures Select(a + b, sel) == Select(a, sel) + Select(b, sel)
  {
    if a != [] {
      var h := if Selects(sel, a[0]) then [a[0]] else [];
      assert (a + b)[0] == a[0] && (a + b)[1..] == a[1..] + b;
      assert Select(a + b, sel) == h + Select(a[1..] + b, sel);
      SelectAppend(a[1..], b, sel);
      assert Select(a, sel) == h + Select(a[1..], sel);
    } else {
      assert a + b == b;
    }
  }

  /** A filter whose condition holds exactly on the indices lo..hi-1 keeps that slice. */
  lemma {:induction false} SelectBlock(qs: seq<Question>, sel: Selector, lo: int, hi: int)
    requires 0 <= lo <= hi <= |qs|
    requires forall i :: 0 <= i < |qs| ==> (Selects(sel, qs[i]) <==> lo <= i < hi)
    ensures Select(qs, sel) == qs[lo..hi]
  {
    if qs != [] {
      var rest := qs[1..];
      var lo', hi' := if lo == 0 then 0 else lo - 1, if hi == 0 then 0 else hi - 1;
      forall i | 0 <= i < |rest| ensures Selects(sel, rest[i]) <==> lo' <= i < hi' {
        assert rest[i] == qs[i + 1];
      }
      SelectBlock(rest, sel, lo', hi');
      assert Select(qs, sel) == (if Selects(sel, qs[0]) then [qs[0]] else []) + Select(rest, sel);
      if lo == 0 && hi > 0 {
        assert qs[lo..hi] == [qs[0]] + rest[lo'..hi'];
      } else {
        assert qs[lo..hi] == rest[lo'..hi'];
      }
    }
  }

  /** A filter on one section finds nothing in a part laid out for another. */
  lemma SelectOtherPart(part: seq<Question>, firstId: int, section: Section, sel: Selector)
    requires PartLayout(part, firstId, section) && sel.section != section
    ensures Select(part, sel) == []
  {
    SelectBlock(part, sel, 0, 0);
  }

  lemma SelectWholePart(part: seq<Question>, firstId: int, section: Section)
    requires PartLayout(part, firstId, section)
    ensures Select(part, BySection(section)) == part
  {
    SelectBlock(part, BySection(section), 0, |part|);
  }

  lemma IdsOfPart(part: seq<Question>, firstId: int, section: Section, lo: int, hi: int)
    requires PartLayout(part, firstId, section) && 0 <= lo <= hi <= |part|
    ensures Ids(part[lo..hi]) == IdRange(firstId + lo, firstId + hi)
  {
  }

  lemma SelectSix(
    sel: Selector, p1: seq<Question>, p2: seq<Question>, p3: seq<Question>,
    p4: seq<Question>, p5: seq<Question>, p6: seq<Question>)
    ensures Select(p1 + p2 + p3 + p4 + p5 + p6, sel) ==
      Select(p1, sel) + Select(p2, sel) + Select(p3, sel) + Select(p4, sel) + Select(p5, sel) + Select(p6, sel)
  {
    SelectAppend(p1, p2, sel);
    SelectAppend(p1 + p2, p3, sel);
    SelectAppend(p1 + p2 + p3, p4, sel);
    SelectAppend(p1 + p2 + p3 + p4, p5, sel);
    SelectAppend(p1 + p2 + p3 + p4 + p5, p6, sel);
  }

  /** Every question a selector picks out of the full list lies in its section's block. */
  lemma SelectWithinSection(sel: Selector)
    ensures Select(Questions, sel) == Select(SectionPart(sel.section), sel)
  {
    PartsLayout();
    SelectLaidOut(sel, InterestPart, AptitudePart, PersonalityPart, StudyStylePart, MotivationPart, EnvironmentPart);
  }

  /** Filtering six parts laid out section by section finds only questions in the selector's own part. */
  lemma SelectLaidOut(
    sel: Selector, p1: seq<Question>, p2: seq<Question>, p3: seq<Question>,
    p4: seq<Question>, p5: seq<Question>, p6: seq<Question>)
    requires PartLayout(p1, 1, Interest) && PartLayout(p2, 25, Aptitude) && PartLayout(p3, 43, Personality)
    requires PartLayout(p4, 61, StudyStyle) && PartLayout(p5, 73, Motivation) && PartLayout(p6, 83, Environment)
    ensures Select(p1 + p2 + p3 + p4 + p5 + p6, sel) ==
      match sel.section
      case Interest => Select(p1, sel)
      case Aptitude => Select(p2, sel)
      case Personality => Select(p3, sel)
      case StudyStyle => Select(p4, sel)
      case Motivation => Select(p5, sel)
      case Environment => Select(p6, sel)
  {
    OtherPartEmptyIf(sel, p1, 1, Interest);
    OtherPartEmptyIf(sel, p2, 25, Aptitude);
    OtherPartEmptyIf(sel, p3, 43, Personality);
    OtherPartEmptyIf(sel, p4, 61, StudyStyle);
    OtherPartEmptyIf(sel, p5, 73, Motivation);
    OtherPartEmptyIf(sel, p6, 83, Environment);
    SelectOneSection(sel, p1, p2, p3, p4, p5, p6);
  }

  lemma OtherPartEmptyIf(sel: Selector, part: seq<Question>, firstId: int, section: Section)
    requires PartLayout(part, firstId, section)
    ensures sel.section != section ==> Select(part, sel) == []
  {
    if sel.section != section {
      SelectOtherPart(part, firstId, section, sel);
    }
  }

  /** Filtering six consecutive parts, of which all but the selector's own yield nothing. */
  lemma SelectOneSection(
    sel: Selector, p1: seq<Question>, p2: seq<Question>, p3: seq<Question>,
    p4: seq<Question>, p5: seq<Question>, p6: seq<Question>)
    requires sel.section != Interest ==> Select(p1, sel) == []
    requires sel.section != Aptitude ==> Select(p2, sel) == []
    requires sel.section != Personality ==> Select(p3, sel) == []
    requires sel.section != StudyStyle ==> Select(p4, sel) == []
    requires sel.section != Motivation ==> Select(p5, sel) == []
    requires sel.section != Environment ==> Select(p6, sel) == []
    ensures Select(p1 + p2 + p3 + p4 + p5 + p6, sel) ==
      match sel.section
      case Interest => Select(p1, sel)
      case Aptitude => Select(p2, sel)
      case Personality => Select(p3, sel)
      case StudyStyle => Select(p4, sel)
      case Motivation => Select(p5, sel)
      case Environment => Select(p6, sel)
  {
    SelectSix(sel, p1, p2, p3, p4, p5, p6);
    OneOfSix(Select(p1, sel), Select(p2, sel), Select(p3, sel), Select(p4, sel), Select(p5, sel), Select(p6, sel));
  }

  /** Six lists of which all but one are empty join to that one. */
  lemma OneOfSix(s1: seq<Question>, s2: seq<Question>, s3: seq<Question>, s4: seq<Question>, s5: seq<Question>, s6: seq<Question>)
    ensures s2 == s3 == s4 == s5 == s6 == [] ==> s1 + s2 + s3 + s4 + s5 + s6 == s1
    ensures s1 == s3 == s4 == s5 == s6 == [] ==> s1 + s2 + s3 + s4 + s5 + s6 == s2
    ensures s1 == s2 == s4 == s5 == s6 == [] ==> s1 + s2 + s3 + s4 + s5 + s6 == s3
    ensures s1 == s2 == s3 == s5 == s6 == [] ==> s1 + s2 + s3 + s4 + s5 + s6 == s4
    ensures s1 == s2 == s3 == s4 == s6 == [] ==> s1 + s2 + s3 + s4 + s5 + s6 == s5
    ensures s1 == s2 == s3 == s4 == s5 == [] ==> s1 + s2 + s3 + s4 + s5 + s6 == s6
  {
  }

  /** The ids a filter keeps from a part, when it keeps the slice lo..hi-1 of it. */
  lemma IdsOfSlice(part: seq<Question>, firstId: int, section: Section, sel: Selector, lo: int, hi: int)
    requires PartLayout(part, firstId, section) && 0 <= lo <= hi <= |part|
    requires forall i :: 0 <= i < |part| ==> (Selects(sel, part[i]) <==> lo <= i < hi)
    ensures Ids(Select(part, sel)) == IdRange(firstId + lo, firstId + hi)
  {
    SelectBlock(part, sel, lo, hi);
    IdsOfPart(part, firstId, section, lo, hi);
  }

  lemma InterestBlock(k: int)
    requires 0 <= k < 6
    ensures Ids(Select(InterestPart, BySubsection(Interest, Riasec(InterestAreas[k])))) == IdRange(4 * k + 1, 4 * k + 5)
  {
    InterestLayout();
    InterestBlockOf(InterestPart, k);
  }

  /** The question at index i of the interest part is selected by area k exactly when it lies in block k. */
  lemma InterestMember(i: int, k: int)
    requires 0 <= i < 24 && 0 <= k < 6
    ensures Selects(BySubsection(Interest, Riasec(InterestAreas[k])), Question(i + 1, Interest, Riasec(InterestAreas[i / 4]))) <==>
      4 * k <= i < 4 * k + 4
  {
    DivBlock(i, 4, k);
    AreasDistinct(i / 4, k);
  }

  lemma InterestBlockOf(part: seq<Question>, k: int)
    requires 0 <= k < 6 && |part| == 24
    requires forall i :: 0 <= i < 24 ==> part[i] == Question(i + 1, Interest, Riasec(InterestAreas[i / 4]))
    ensures Ids(Select(part, BySubsection(Interest, Riasec(InterestAreas[k])))) == IdRange(4 * k + 1, 4 * k + 5)
  {
    var sel := BySubsection(Interest, Riasec(InterestAreas[k]));
    forall i | 0 <= i < 24 ensures Selects(sel, part[i]) <==> 4 * k <= i < 4 * k + 4 {
      InterestMember(i, k);
    }
    assert PartLayout(part, 1, Interest);
    IdsOfSlice(part, 1, Interest, sel, 4 * k, 4 * k + 4);
  }

  lemma AptitudeBlock(k: int)
    requires 0 <= k < 6
    ensures Ids(Select(AptitudePart, BySubsection(Aptitude, Ability(AptitudeAreas[k])))) == IdRange(25 + 3 * k, 28 + 3 * k)
  {
    AptitudeLayout();
    AptitudeBlockOf(AptitudePart, k);
  }

  /** The question at index i of the aptitude part is selected by area k exactly when it lies in block k. */
  lemma AptitudeMember(i: int, k: int)
    requires 0 <= i < 18 && 0 <= k < 6
    ensures Selects(BySubsection(Aptitude, Ability(AptitudeAreas[k])), Question(25 + i, Aptitude, Ability(AptitudeAreas[i / 3]))) <==>
      3 * k <= i < 3 * k + 3
  {
    DivBlock(i, 3, k);
    AreasDistinct(i / 3, k);
  }

  lemma AptitudeBlockOf(part: seq<Question>, k: int)
    requires 0 <= k < 6 && |part| == 18
    requires forall i :: 0 <= i < 18 ==> part[i] == Question(25 + i, Aptitude, Ability(AptitudeAreas[i / 3]))
    ensures Ids(Select(part, BySubsection(Aptitude, Ability(AptitudeAreas[k])))) == IdRange(25 + 3 * k, 28 + 3 * k)
  {
    var sel := BySubsection(Aptitude, Ability(AptitudeAreas[k]));
    forall i | 0 <= i < 18 ensures Selects(sel, part[i]) <==> 3 * k <= i < 3 * k + 3 {
      AptitudeMember(i, k);
    }
    assert PartLayout(part, 25, Aptitude);
    IdsOfSlice(part, 25, Aptitude, sel, 3 * k, 3 * k + 3);
  }

  lemma PersonalityBlock(k: int)
    requires 0 <= k < 6
    ensures Ids(Select(PersonalityPart, BySubsection(Personality, Trait(PersonalityDimensions[k])))) ==
      IdRange(43 + 3 * k, 46 + 3 * k)
  {
    PersonalityLayout();
    PersonalityBlockOf(PersonalityPart, k);
  }

  /** The question at index i of the personality part is selected by area k exactly when it lies in block k. */
  lemma PersonalityMember(i: int, k: int)
    requires 0 <= i < 18 && 0 <= k < 6
    ensures Selects(BySubsection(Personality, Trait(PersonalityDimensions[k])), Question(43 + i, Personality, Trait(PersonalityDimensions[i / 3]))) <==>
      3 * k <= i < 3 * k + 3
  {
    DivBlock(i, 3, k);
    AreasDistinct(i / 3, k);
  }

  lemma PersonalityBlockOf(part: seq<Question>, k: int)
    requires 0 <= k < 6 && |part| == 18
    requires forall i :: 0 <= i < 18 ==> part[i] == Question(43 + i, Personality, Trait(PersonalityDimensions[i / 3]))
    ensures Ids(Select(part, BySubsection(Personality, Trait(PersonalityDimensions[k])))) == IdRange(43 + 3 * k, 46 + 3 * k)
  {
    var sel := BySubsection(Personality, Trait(PersonalityDimensions[k]));
    forall i | 0 <= i < 18 ensures Selects(sel, part[i]) <==> 3 * k <= i < 3 * k + 3 {
      PersonalityMember(i, k);
    }
    assert PartLayout(part, 43, Personality);
    IdsOfSlice(part, 43, Personality, sel, 3 * k, 3 * k + 3);
  }

  /** Index i lies in block k of width w exactly when i / w == k. */
  lemma DivBlock(i: int, w: int, k: int)
    requires 0 <= i && 0 < w
    ensures i / w == k <==> w * k <= i < w * k + w
  {
    var q, r := i / w, i % w;
    assert i == w * q + r && 0 <= r < w;
    if q < k {
      assert w * q + w <= w * k by { MulMonotone(w, q + 1, k); }
    } else if q > k {
      assert w * k + w <= w * q by { MulMonotone(w, k + 1, q); }
    }
  }

  lemma MulMonotone(w: int, a: int, b: int)
    requires 0 < w && a <= b
    ensures w * a <= w * b
  {
    assert w * b - w * a == w * (b - a);
  }

  /** The three enumerations list each area once. */
  lemma AreasDistinct(j: int, k: int)
    requires 0 <= j < 6 && 0 <= k < 6
    ensures InterestAreas[j] == InterestAreas[k] <==> j == k
    ensures AptitudeAreas[j] == AptitudeAreas[k] <==> j == k
    ensures PersonalityDimensions[j] == PersonalityDimensions[k] <==> j == k
  {
  }

  /** Interest area k is asked by questions 4k+1..4k+4. */
  lemma InterestSubsectionIds(k: int)
    requires 0 <= k < 6
    ensures Ids(GetQuestionsForSubsection(Interest, Riasec(InterestAreas[k]))) == IdRange(4 * k + 1, 4 * k + 5)
  {
    SelectWithinSection(BySubsection(Interest, Riasec(InterestAreas[k])));
    InterestBlock(k);
  }

  /** Aptitude area k is asked by questions 25+3k..27+3k. */
  lemma AptitudeSubsectionIds(k: int)
    requires 0 <= k < 6
    ensures Ids(GetQuestionsForSubsection(Aptitude, Ability(AptitudeAreas[k]))) == IdRange(25 + 3 * k, 28 + 3 * k)
  {
    SelectWithinSection(BySubsection(Aptitude, Ability(AptitudeAreas[k])));
    AptitudeBlock(k);
  }

  /** Personality dimension k is asked by questions 43+3k..45+3k. */
  lemma PersonalitySubsectionIds(k: int)
    requires 0 <= k < 6
    ensures Ids(GetQuestionsForSubsection(Personality, Trait(PersonalityDimensions[k]))) == IdRange(43 + 3 * k, 46 + 3 * k)
  {
    var sel := BySubsection(Personality, Trait(PersonalityDimensions[k]));
    SelectWithinSection(sel);
    assert GetQuestionsForSubsection(Personality, Trait(PersonalityDimensions[k])) == Select(PersonalityPart, sel);
    PersonalityBlock(k);
  }

  /** The ids of a whole part laid out for one section. */
  lemma IdsOfWholePart(part: seq<Question>, firstId: int, section: Section, endId: int)
    requires PartLayout(part, firstId, section) && endId == firstId + |part| - 1
    ensures Ids(Select(part, BySection(section))) == IdRange(firstId, endId + 1)
  {
    IdsOfSlice(part, firstId, section, BySection(section), 0, |part|);
  }

  /** A section's questions are exactly the ids of its declared range. */
  lemma SectionIds(section: Section)
    ensures Ids(GetQuestionsForSection(section)) ==
      IdRange(SectionInfoOf(section).startQuestion, SectionInfoOf(section).endQuestion + 1)
  {
    var info := SectionInfoOf(section);
    SelectWithinSection(BySection(section));
    SectionPartLayout(section);
    IdsOfWholePart(SectionPart(section), info.startQuestion, section, info.endQuestion);
  }

  // ---------------------------------------------------------------------------
  // Summing answers
  // ---------------------------------------------------------------------------

  /** The value recorded for a question, 0 when it is unanswered. */
  function AnswerOf(answers: Answers, id: int): int {
    if id in answers then answers[id] else 0
  }

  /** The sum of the recorded answers over the ids, left to right. */
  function SumAnswers(ids: seq<int>, answers: Answers): int
    decreases |ids|
  {
    if ids == [] then 0
    else SumAnswers(ids[..|ids| - 1], answers) + AnswerOf(answers, ids[|ids| - 1])
  }

  /**
   * `calculateScore`: adds up the answers present for the given ids; the
   * maximum counts five per id, answered or not.
   */
  method CalculateScore(questionIds: seq<int>, answers: Answers) returns (r: ScoreTally)
    ensures r.score == SumAnswers(questionIds, answers)
    ensures r.maxScore == MaxPerQuestion * |questionIds|
  {
    var score := 0;
    var i := 0;
    while i < |questionIds|
      invariant 0 <= i <= |questionIds|
      invariant score == SumAnswers(questionIds[..i], answers)
    {
      var id := questionIds[i];
      assert questionIds[..i + 1][..i] == questionIds[..i];
      if id in answers {
        score := score + answers[id];
      }
      i := i + 1;
    }
    assert questionIds[..i] == questionIds;
    r := ScoreTally(score, |questionIds| * MaxPerQuestion);
  }

  lemma {:induction false} SumAppend(a: seq<int>, b: seq<int>, answers: Answers)
    ensures SumAnswers(a + b, answers) == SumAnswers(a, answers) + SumAnswers(b, answers)
    decreases |b|
  {
    if b == [] {
      assert a + b == a;
    } else {
      var b' := b[..|b| - 1];
      assert (a + b)[..|a + b| - 1] == a + b';
      SumAppend(a, b', answers);
    }
  }

  /** The two answer maps record the same thing for every id listed. */
  ghost predicate AgreeOn(a: Answers, b: Answers, ids: seq<int>) {
    forall id :: id in ids ==> (id in a <==> id in b) && (id in a ==> a[id] == b[id])
  }

  /** Two answer maps that agree on the ids give the same sum. */
  lemma {:induction false} SumFrame(ids: seq<int>, a: Answers, b: Answers)
    requires AgreeOn(a, b, ids)
    ensures SumAnswers(ids, a) == SumAnswers(ids, b)
    decreases |ids|
  {
    if ids != [] {
      var front := ids[..|ids| - 1];
      assert forall id :: id in front ==> id in ids;
      SumFrame(front, a, b);
      assert ids[|ids| - 1] in ids;
    }
  }

  /** With every recorded value in 1..5 the sum lies between 0 and five per id. */
  lemma {:induction false} SumBounds(ids: seq<int>, answers: Answers)
    requires forall id :: id in answers ==> 1 <= answers[id] <= MaxPerQuestion
    ensures 0 <= SumAnswers(ids, answers) <= MaxPerQuestion * |ids|
    decreases |ids|
  {
    if ids != [] {
      SumBounds(ids[..|ids| - 1], answers);
    }
  }

  /** Every id answered with the same value v gives v per id. */
  lemma {:induction false} SumConstant(ids: seq<int>, answers: Answers, v: int)
    requires forall id :: id in ids ==> id in answers && answers[id] == v
    ensures SumAnswers(ids, answers) == v * |ids|
    decreases |ids|
  {
    if ids != [] {
      var front := ids[..|ids| - 1];
      assert forall id :: id in front ==> id in ids;
      SumConstant(front, answers, v);
      assert ids[|ids| - 1] in ids;
    }
  }

  lemma {:induction false} SumNoAnswers(ids: seq<int>, answers: Answers)
    requires forall id :: id in ids ==> id !in answers
    ensures SumAnswers(ids, answers) == 0
    decreases |ids|
  {
    if ids != [] {
      var front := ids[..|ids| - 1];
      assert forall id :: id in front ==> id in ids;
      SumNoAnswers(front, answers);
      assert ids[|ids| - 1] in ids;
    }
  }

  // ---------------------------------------------------------------------------
  // Per-dimension and per-section scores
  // ---------------------------------------------------------------------------

  /**
   * The record built for one dimension from its question ids: the answers
   * present summed, five points per id as the maximum, the percentage that
   * scales the score to a hundred, and the band of that percentage.
   */
  function ScoreDimension(name: string, ids: seq<int>, answers: Answers): (d: DimensionScore)
    ensures d.name == name && d.score == SumAnswers(ids, answers) && d.maxScore == MaxPerQuestion * |ids|
    ensures ids != [] ==> d.percentage * (d.maxScore as real) == 100.0 * (d.score as real)
    ensures ids == [] ==> d.percentage == 0.0
    ensures d.band == GetScoreBand(d.percentage)
  {
    var score := SumAnswers(ids, answers);
    var maxScore := MaxPerQuestion * |ids|;
    var percentage := Percentage(score, maxScore);
    if ids != [] then
      PercentageScaled(score, maxScore);
      DimensionScore(name, score, maxScore, percentage, GetScoreBand(percentage))
    else
      DimensionScore(name, score, maxScore, percentage, GetScoreBand(percentage))
  }

  function InterestName(area: InterestArea): string {
    match area
    case Realistic => "Realistic (Hands-on)"
    case Investigative => "Investigative (Research)"
    case Artistic => "Artistic (Creative)"
    case Social => "Social (Helping)"
    case Enterprising => "Enterprising (Leadership)"
    case Conventional => "Conventional (Organized)"
  }

  function AptitudeName(area: AptitudeArea): string {
    match area
    case Logical => "Logical Reasoning"
    case Numerical => "Numerical Ability"
    case Verbal => "Verbal Ability"
    case Spatial => "Spatial Reasoning"
    case Memory => "Memory Retention"
    case ProblemSolving => "Problem Solving"
  }

  function PersonalityName(dimension: PersonalityDimension): string {
    match dimension
    case Extroversion => "Extroversion"
    case Adaptability => "Adaptability"
    case EmotionalStability => "Emotional Stability"
    case RiskTaking => "Risk Taking"
    case Independence => "Independence"
    case Conscientiousness => "Conscientiousness"
  }

  /** Six RIASEC scores in enumeration order; area k sums questions 4k+1..4k+4 out of 20. */
  function CalculateInterestScores(answers: Answers): (r: seq<DimensionScore>)
    ensures |r| == 6
    ensures forall k :: 0 <= k < 6 ==>
      r[k] == ScoreDimension(InterestName(InterestAreas[k]), IdRange(4 * k + 1, 4 * k + 5), answers)
    ensures forall k :: 0 <= k < 6 ==> r[k].name == InterestName(InterestAreas[k]) && r[k].maxScore == 20
  {
    forall k | 0 <= k < 6
      ensures Ids(GetQuestionsForSubsection(Interest, Riasec(InterestAreas[k]))) == IdRange(4 * k + 1, 4 * k + 5)
    {
      InterestSubsectionIds(k);
    }
    seq(6, k requires 0 <= k < 6 =>
      ScoreDimension(InterestName(InterestAreas[k]), Ids(GetQuestionsForSubsection(Interest, Riasec(InterestAreas[k]))), answers))
  }

  /** Six aptitude scores in enumeration order; area k sums questions 25+3k..27+3k out of 15. */
  function CalculateAptitudeScores(answers: Answers): (r: seq<DimensionScore>)
    ensures |r| == 6
    ensures forall k :: 0 <= k < 6 ==>
      r[k] == ScoreDimension(AptitudeName(AptitudeAreas[k]), IdRange(25 + 3 * k, 28 + 3 * k), answers)
    ensures forall k :: 0 <= k < 6 ==> r[k].name == AptitudeName(AptitudeAreas[k]) && r[k].maxScore == 15
  {
    forall k | 0 <= k < 6
      ensures Ids(GetQuestionsForSubsection(Aptitude, Ability(AptitudeAreas[k]))) == IdRange(25 + 3 * k, 28 + 3 * k)
    {
      AptitudeSubsectionIds(k);
    }
    seq(6, k requires 0 <= k < 6 =>
      ScoreDimension(AptitudeName(AptitudeAreas[k]), Ids(GetQuestionsForSubsection(Aptitude, Ability(AptitudeAreas[k]))), answers))
  }

  /** Six personality scores in enumeration order; dimension k sums questions 43+3k..45+3k out of 15. */
  function CalculatePersonalityScores(answers: Answers): (r: seq<DimensionScore>)
    ensures |r| == 6
    ensures forall k :: 0 <= k < 6 ==>
      r[k] == ScoreDimension(PersonalityName(PersonalityDimensions[k]), IdRange(43 + 3 * k, 46 + 3 * k), answers)
    ensures forall k :: 0 <= k < 6 ==> r[k].name == PersonalityName(PersonalityDimensions[k]) && r[k].maxScore == 15
  {
    forall k | 0 <= k < 6
      ensures Ids(GetQuestionsForSubsection(Personality, Trait(PersonalityDimensions[k]))) == IdRange(43 + 3 * k, 46 + 3 * k)
    {
      PersonalitySubsectionIds(k);
    }
    seq(6, k requires 0 <= k < 6 =>
      ScoreDimension(PersonalityName(PersonalityDimensions[k]),
        Ids(GetQuestionsForSubsection(Personality, Trait(PersonalityDimensions[k]))), answers))
  }

  /** A section's aggregate over every question of its declared id range. */
  function CalculateSectionScore(section: Section, answers: Answers): (r: SectionAggregate)
    ensures r.score == SumAnswers(IdRange(SectionInfoOf(section).startQuestion, SectionInfoOf(section).endQuestion + 1), answers)
    ensures r.maxScore == MaxPerQuestion * SectionInfoOf(section).questionCount
    ensures r.percentage == Percentage(r.score, r.maxScore)
  {
    SectionIds(section);
    var ids := Ids(GetQuestionsForSection(section));
    var score := SumAnswers(ids, answers);
    var maxScore := MaxPerQuestion * |ids|;
    SectionAggregate(score, maxScore, Percentage(score, maxScore))
  }

  // ---------------------------------------------------------------------------
  // Ranking and filtering dimension scores
  // ---------------------------------------------------------------------------

  ghost predicate Descending(s: seq<DimensionScore>) {
    forall i, j :: 0 <= i < j < |s| ==> s[i].percentage >= s[j].percentage
  }

  /** No entry of s has a percentage above v. */
  ghost predicate AtMost(s: seq<DimensionScore>, v: real) {
    forall i :: 0 <= i < |s| ==> s[i].percentage <= v
  }

  /** Places x before the first entry whose percentage it reaches, so x precedes its ties. */
  function InsertByPercentage(x: DimensionScore, t: seq<DimensionScore>): (r: seq<DimensionScore>)
    ensures |r| == |t| + 1 && multiset(r) == multiset(t) + multiset{x}
  {
    if t == [] then [x]
    else if x.percentage >= t[0].percentage then [x] + t
    else
      assert t == [t[0]] + t[1..];
      [t[0]] + InsertByPercentage(x, t[1..])
  }

  /**
   * `[...s].sort((a, b) => b.percentage - a.percentage)`: a stable sort into
   * descending percentage (section 23.1.3.30 of ECMA-262 makes the sort stable).
   */
  function SortByPercentage(s: seq<DimensionScore>): (r: seq<DimensionScore>)
    ensures |r| == |s| && multiset(r) == multiset(s)
    ensures Descending(r)
  {
    if s == [] then []
    else
      assert s == [s[0]] + s[1..];
      InsertSorted(s[0], SortByPercentage(s[1..]));
      InsertByPercentage(s[0], SortByPercentage(s[1..]))
  }

  lemma ConsDescending(h: DimensionScore, rest: seq<DimensionScore>)
    requires Descending(rest) && AtMost(rest, h.percentage)
    ensures Descending([h] + rest)
  {
    var r := [h] + rest;
    forall i, j | 0 <= i < j < |r| ensures r[i].percentage >= r[j].percentage {
      assert r[j] == rest[j - 1];
      if i > 0 {
        assert r[i] == rest[i - 1];
      }
    }
  }

  lemma {:induction false} InsertBound(x: DimensionScore, t: seq<DimensionScore>, v: real)
    requires AtMost(t, v) && x.percentage <= v
    ensures AtMost(InsertByPercentage(x, t), v)
  {
    if t == [] {
      assert InsertByPercentage(x, t) == [x];
    } else if x.percentage >= t[0].percentage {
      ConsAtMost(x, t, v);
    } else {
      var rest := t[1..];
      assert AtMost(rest, v) by {
        forall i | 0 <= i < |rest| ensures rest[i].percentage <= v {
          assert rest[i] == t[i + 1];
        }
      }
      InsertBound(x, rest, v);
      ConsAtMost(t[0], InsertByPercentage(x, rest), v);
    }
  }

  /** Putting an entry at most v in front of entries at most v. */
  lemma ConsAtMost(h: DimensionScore, rest: seq<DimensionScore>, v: real)
    requires AtMost(rest, v) && h.percentage <= v
    ensures AtMost([h] + rest, v)
  {
    var r := [h] + rest;
    forall i | 0 <= i < |r| ensures r[i].percentage <= v {
      if i > 0 {
        assert r[i] == rest[i - 1];
      }
    }
  }

  /** Inserting into a descending list keeps it descending. */
  lemma {:induction false} InsertSorted(x: DimensionScore, t: seq<DimensionScore>)
    requires Descending(t)
    ensures Descending(InsertByPercentage(x, t))
  {
    if t == [] {
    } else if x.percentage >= t[0].percentage {
      assert AtMost(t, x.percentage) by {
        forall i | 0 <= i < |t| ensures t[i].percentage <= x.percentage {
          if i > 0 {
            assert t[0].percentage >= t[i].percentage;
          }
        }
      }
      ConsDescending(x, t);
    } else {
      var rest := InsertByPercentage(x, t[1..]);
      InsertSorted(x, t[1..]);
      assert AtMost(t[1..], t[0].percentage) by {
        forall i | 0 <= i < |t[1..]| ensures t[1..][i].percentage <= t[0].percentage {
          assert t[1..][i] == t[i + 1];
        }
      }
      InsertBound(x, t[1..], t[0].percentage);
      ConsDescending(t[0], rest);
    }
  }

  /** The entries of s with percentage exactly v, in their order in s. */
  function WithPercentage(s: seq<DimensionScore>, v: real): seq<DimensionScore> {
    if s == [] then []
    else (if s[0].percentage == v then [s[0]] else []) + WithPercentage(s[1..], v)
  }

  /**
   * `slice(0, 2)` of the sorted interests: the two best, non-increasing, taken
   * from the input, the first a maximum and nothing left out above the second;
   * fewer than two entries are all kept.
   */
  function TopInterests(interestScores: seq<DimensionScore>): (r: seq<DimensionScore>)
    ensures |r| == if |interestScores| < TopInterestCount then |interestScores| else TopInterestCount
    ensures Descending(r)
    ensures multiset(r) <= multiset(interestScores)
    ensures |interestScores| < TopInterestCount ==> multiset(r) == multiset(interestScores)
    ensures |interestScores| > 0 ==>
      forall i :: 0 <= i < |interestScores| ==> interestScores[i].percentage <= r[0].percentage
    ensures |interestScores| >= TopInterestCount ==>
      forall e :: e in multiset(interestScores) - multiset(r) ==> e.percentage <= r[1].percentage
  {
    var sorted := SortByPercentage(interestScores);
    if sorted == [] then sorted
    else
      HeadIsMaximum(sorted, interestScores);
      if |sorted| <= TopInterestCount then sorted
      else
        PrefixSplit(sorted, TopInterestCount);
        TailBelowSecond(sorted);
        assert multiset(interestScores) - multiset(sorted[..TopInterestCount]) == multiset(sorted[TopInterestCount..]);
        sorted[..TopInterestCount]
  }

  /** A descending list splits into a descending prefix and the rest. */
  lemma PrefixSplit(sorted: seq<DimensionScore>, n: nat)
    requires Descending(sorted) && n <= |sorted|
    ensures Descending(sorted[..n])
    ensures multiset(sorted) == multiset(sorted[..n]) + multiset(sorted[n..])
  {
    assert sorted == sorted[..n] + sorted[n..];
  }

  /** The head of a descending permutation of s is at least every entry of s. */
  lemma HeadIsMaximum(sorted: seq<DimensionScore>, s: seq<DimensionScore>)
    requires Descending(sorted) && multiset(sorted) == multiset(s) && |s| > 0
    ensures forall i :: 0 <= i < |s| ==> s[i].percentage <= sorted[0].percentage
  {
    forall i | 0 <= i < |s| ensures s[i].percentage <= sorted[0].percentage {
      assert s[i] in multiset(sorted);
      var j :| 0 <= j < |sorted| && sorted[j] == s[i];
    }
  }

  /** In a descending list, nothing after the second entry is above it. */
  lemma TailBelowSecond(sorted: seq<DimensionScore>)
    requires Descending(sorted) && |sorted| >= 2
    ensures forall e :: e in multiset(sorted[2..]) ==> e.percentage <= sorted[1].percentage
  {
    forall e | e in multiset(sorted[2..]) ensures e.percentage <= sorted[1].percentage {
      var j :| 0 <= j < |sorted[2..]| && sorted[2..][j] == e;
      assert sorted[j + 2] == e;
    }
  }

  /** `filter((a) => a.band === "high")`: the high-band entries, in their original order. */
  function HighOnly(s: seq<DimensionScore>): (r: seq<DimensionScore>)
    ensures forall e :: e in r <==> e in s && e.band == High
    ensures forall e :: multiset(r)[e] == if e.band == High then multiset(s)[e] else 0
    ensures multiset(r) <= multiset(s)
    ensures Subsequence(r, s)
  {
    if s == [] then []
    else
      assert s == [s[0]] + s[1..];
      var rest := HighOnly(s[1..]);
      if s[0].band == High then
        assert ([s[0]] + rest)[1..] == rest;
        [s[0]] + rest
      else rest
  }

  /** r is obtained from s by deleting entries. */
  ghost predicate Subsequence(r: seq<DimensionScore>, s: seq<DimensionScore>)
    decreases |s|
  {
    if r == [] then true
    else if s == [] then false
    else (r[0] == s[0] && Subsequence(r[1..], s[1..])) || Subsequence(r, s[1..])
  }

  // ---------------------------------------------------------------------------
  // The full results
  // ---------------------------------------------------------------------------

  /** A section aggregate wrapped as a named dimension score. */
  function SectionDimension(name: string, data: SectionAggregate): (d: DimensionScore)
    ensures d.name == name && d.score == data.score && d.maxScore == data.maxScore
    ensures d.percentage == data.percentage && d.band == GetScoreBand(data.percentage)
  {
    DimensionScore(name, data.score, data.maxScore, data.percentage, GetScoreBand(data.percentage))
  }

  /**
   * One entry of `sections`: the section's id and title, the aggregate over its
   * declared range, and the dimension list the `switch` picks (empty for the
   * three single-score sections).
   */
  function BuildSection(
    info: SectionInfo, answers: Answers,
    interestScores: seq<DimensionScore>, aptitudeScores: seq<DimensionScore>, personalityScores: seq<DimensionScore>
  ): (r: SectionScores)
    ensures r.sectionId == info.id && r.sectionTitle == info.title
    ensures info in Sections ==>
      r.totalScore == SumAnswers(IdRange(info.startQuestion, info.endQuestion + 1), answers) &&
      r.maxScore == MaxPerQuestion * info.questionCount &&
      r.percentage == Percentage(r.totalScore, r.maxScore)
    ensures info.id == Interest ==> r.dimensions == interestScores
    ensures info.id == Aptitude ==> r.dimensions == aptitudeScores
    ensures info.id == Personality ==> r.dimensions == personalityScores
    ensures info.id in {StudyStyle, Motivation, Environment} ==> r.dimensions == []
  {
    var data := CalculateSectionScore(info.id, answers);
    var dimensions :=
      match info.id
      case Interest => interestScores
      case Aptitude => aptitudeScores
      case Personality => personalityScores
      case _ => [];
    if info in Sections then
      SectionInfoOfMember(info);
      SectionScores(info.id, info.title, data.score, data.maxScore, data.percentage, dimensions)
    else
      SectionScores(info.id, info.title, data.score, data.maxScore, data.percentage, dimensions)
  }

  /** `assessmentSections.map(...)`: one record per section, in catalogue order, each over its own range. */
  function BuildSections(
    answers: Answers,
    interestScores: seq<DimensionScore>, aptitudeScores: seq<DimensionScore>, personalityScores: seq<DimensionScore>
  ): (r: seq<SectionScores>)
    ensures |r| == |Sections|
    ensures forall k {:trigger r[k]} :: 0 <= k < |Sections| ==>
      r[k].sectionId == Sections[k].id && r[k].sectionTitle == Sections[k].title &&
      r[k].totalScore == SumAnswers(IdRange(Sections[k].startQuestion, Sections[k].endQuestion + 1), answers) &&
      r[k].maxScore == MaxPerQuestion * Sections[k].questionCount &&
      r[k].percentage == Percentage(r[k].totalScore, r[k].maxScore)
  {
    SectionsAreContiguous();
    var r := seq(|Sections|, k requires 0 <= k < |Sections| =>
      BuildSection(Sections[k], answers, interestScores, aptitudeScores, personalityScores));
    assert forall k :: 0 <= k < |Sections| ==>
      r[k] == BuildSection(Sections[k], answers, interestScores, aptitudeScores, personalityScores);
    r
  }

  /** `calculateAssessmentResults`: the report's scores for one answer map. */
  function CalculateAssessmentResults(answers: Answers): (r: AssessmentResults)
    ensures |r.topInterests| == TopInterestCount && Descending(r.topInterests)
    ensures multiset(r.topInterests) <= multiset(CalculateInterestScores(answers))
    ensures forall e :: e in r.strongAptitudes ==> e.band == High
    ensures |r.sections| == |Sections| && forall k {:trigger r.sections[k]} :: 0 <= k < |Sections| ==>
      r.sections[k].sectionId == Sections[k].id && r.sections[k].sectionTitle == Sections[k].title
  {
    var interestScores := CalculateInterestScores(answers);
    var aptitudeScores := CalculateAptitudeScores(answers);
    var personalityScores := CalculatePersonalityScores(answers);
    AssessmentResults(
      BuildSections(answers, interestScores, aptitudeScores, personalityScores),
      TopInterests(interestScores),
      HighOnly(aptitudeScores),
      personalityScores,
      SectionDimension("Study Style & Discipline", CalculateSectionScore(StudyStyle, answers)),
      SectionDimension("Motivation & Stress Handling", CalculateSectionScore(Motivation, answers)),
      SectionDimension("Environment & Constraints", CalculateSectionScore(Environment, answers)))
  }
}
