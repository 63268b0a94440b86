/**
 * The survey's scoring pipeline: the per-question contribution, the running
 * sum over the catalog (`calculateScore`), the risk classifier
 * (`getRiskLevel`), the recommendation table (`getRecommendations`) and the
 * order in which a submission computes the three.
 */
module Scoring {
  import opened Wrappers
  import opened Questions

  /**
   * A stored answer. Likert buttons store their value, multiple-choice
   * buttons the zero-based option index, the open-ended text area a string.
   * A question with no answer has no key in the map.
   */
  datatype Answer = Num(n: int) | Text(s: string)

  type Answers = map<string, Answer>

  /**
   * What one question adds to the score: a numeric answer adds itself to a
   * likert question and `5 - index` to a multiple-choice question; anything
   * else adds nothing.
   */
  function Contribution(q: Question, answers: Answers): (c: int)
    ensures q.kind == OpenEnded || q.id !in answers || answers[q.id].Text? ==> c == 0
    ensures q.kind == Likert && q.id in answers && ValidAnswer(q, answers[q.id]) ==> 1 <= c <= 5
    ensures q.kind == MultipleChoice && q.id in answers && ValidAnswer(q, answers[q.id]) ==>
      5 - |q.options.value| < c <= 5
  {
    if q.id in answers && answers[q.id].Num? then
      var v := answers[q.id].n;
      if q.kind == Likert then v
      else if q.kind == MultipleChoice then 5 - v
      else 0
    else 0
  }

  /** The score of `answers` over the catalog `qs`: the contributions summed in catalog order. */
  function ScoreOf(qs: seq<Question>, answers: Answers): int
  {
    if qs == [] then 0
    else ScoreOf(qs[..|qs| - 1], answers) + Contribution(qs[|qs| - 1], answers)
  }

  /** The accumulation loop of the survey page: one pass over the catalog. */
  method CalculateScore(qs: seq<Question>, answers: Answers) returns (score: int)
    ensures score == ScoreOf(qs, answers)
  {
    score := 0;
    var i := 0;
    while i < |qs|
      invariant 0 <= i <= |qs|
      invariant score == ScoreOf(qs[..i], answers)
    {
      assert qs[..i + 1][..i] == qs[..i];
      score := score + Contribution(qs[i], answers);
      i := i + 1;
    }
    assert qs[..|qs|] == qs;
  }

  // ---------------------------------------------------------------------------
  // What the sum depends on
  // ---------------------------------------------------------------------------

  /** The score of a concatenated catalog is the sum of the scores of its parts. */
  lemma {:induction false} ScoreAppend(xs: seq<Question>, ys: seq<Question>, answers: Answers)
    ensures ScoreOf(xs + ys, answers) == ScoreOf(xs, answers) + ScoreOf(ys, answers)
  {
    if ys == [] {
      assert xs + ys == xs;
    } else {
      var ys' := ys[..|ys| - 1];
      assert (xs + ys)[..|xs + ys| - 1] == xs + ys';
      ScoreAppend(xs, ys', answers);
    }
  }

  /** Two answer sets that give every question of `qs` the same contribution. */
  predicate SameContributions(qs: seq<Question>, a: Answers, b: Answers)
  {
    forall i :: 0 <= i < |qs| ==> Contribution(qs[i], a) == Contribution(qs[i], b)
  }

  /** The score depends on the answers only through the per-question contributions. */
  lemma {:induction false} ScoreCongruence(qs: seq<Question>, a: Answers, b: Answers)
    requires SameContributions(qs, a, b)
    ensures ScoreOf(qs, a) == ScoreOf(qs, b)
  {
    if qs != [] {
      var init := qs[..|qs| - 1];
      assert forall i :: 0 <= i < |init| ==> init[i] == qs[i];
      ScoreCongruence(init, a, b);
    }
  }

  /** A catalog none of whose questions holds a numeric answer scores zero (the page's initial score). */
  lemma {:induction false} NothingNumericScoresZero(qs: seq<Question>, a: Answers)
    requires forall i :: 0 <= i < |qs| ==> qs[i].kind == OpenEnded || qs[i].id !in a || a[qs[i].id].Text?
    ensures ScoreOf(qs, a) == 0
  {
    if qs != [] {
      var init := qs[..|qs| - 1];
      assert forall i :: 0 <= i < |init| ==> init[i] == qs[i];
      NothingNumericScoresZero(init, a);
    }
  }

  /** No question of `qs` has the id `id`. */
  predicate AbsentId(qs: seq<Question>, id: string)
  {
    forall i :: 0 <= i < |qs| ==> qs[i].id != id
  }

  /**
   * Answers stored under ids that are not in the catalog are ignored: adding
   * them, or dropping them, leaves the score unchanged.
   */
  lemma ForeignAnswersIgnored(qs: seq<Question>, a: Answers, extra: Answers)
    requires forall id :: id in extra ==> AbsentId(qs, id)
    ensures ScoreOf(qs, a + extra) == ScoreOf(qs, a)
    ensures ScoreOf(qs, a - extra.Keys) == ScoreOf(qs, a)
  {
    ScoreCongruence(qs, a + extra, a);
    ScoreCongruence(qs, a - extra.Keys, a);
  }

  /** Every question with id `id` is open-ended. */
  predicate OnlyOpenEnded(qs: seq<Question>, id: string)
  {
    forall i :: 0 <= i < |qs| && qs[i].id == id ==> qs[i].kind == OpenEnded
  }

  /** Adding, changing or removing the answer to an open-ended question never changes the score. */
  lemma OpenEndedAnswerIgnored(qs: seq<Question>, a: Answers, id: string, x: Answer)
    requires OnlyOpenEnded(qs, id)
    ensures ScoreOf(qs, a[id := x]) == ScoreOf(qs, a)
    ensures ScoreOf(qs, a - {id}) == ScoreOf(qs, a)
  {
    ScoreCongruence(qs, a[id := x], a);
    ScoreCongruence(qs, a - {id}, a);
  }

  /** A non-numeric answer scores exactly as a missing one, whatever the question. */
  lemma TextAnswerIgnored(qs: seq<Question>, a: Answers, id: string, s: string)
    ensures ScoreOf(qs, a[id := Text(s)]) == ScoreOf(qs, a - {id})
  {
    ScoreCongruence(qs, a[id := Text(s)], a - {id});
  }

  /**
   * With distinct ids, the score is the score without question `k`'s answer
   * plus that question's own contribution.
   */
  lemma ScoreSplitAt(qs: seq<Question>, a: Answers, k: nat)
    requires DistinctIds(qs) && k < |qs|
    ensures ScoreOf(qs, a) == ScoreOf(qs, a - {qs[k].id}) + Contribution(qs[k], a)
  {
    var id := qs[k].id;
    var before, after := qs[..k], qs[k + 1..];
    assert qs == before + [qs[k]] + after;
    ScoreAppend(before + [qs[k]], after, a);
    ScoreAppend(before, [qs[k]], a);
    ScoreAppend(before + [qs[k]], after, a - {id});
    ScoreAppend(before, [qs[k]], a - {id});
    assert [qs[k]][..0] == [];
    assert ScoreOf([qs[k]], a - {id}) == 0;
    SplitNeighboursUnaffected(qs, a, k);
    ScoreCongruence(before, a, a - {id});
    ScoreCongruence(after, a, a - {id});
  }

  /** With distinct ids, dropping question `k`'s answer changes no other question's contribution. */
  lemma SplitNeighboursUnaffected(qs: seq<Question>, a: Answers, k: nat)
    requires DistinctIds(qs) && k < |qs|
    ensures SameContributions(qs[..k], a, a - {qs[k].id})
    ensures SameContributions(qs[k + 1..], a, a - {qs[k].id})
  {
  }

  /** Answering likert question `k` with the number `v` adds exactly `v` to the score. */
  lemma LikertAddsValue(qs: seq<Question>, a: Answers, k: nat, v: int)
    requires DistinctIds(qs) && k < |qs| && qs[k].kind == Likert
    ensures ScoreOf(qs, a[qs[k].id := Num(v)]) == ScoreOf(qs, a - {qs[k].id}) + v
  {
    var id := qs[k].id;
    ScoreSplitAt(qs, a[id := Num(v)], k);
    assert a[id := Num(v)] - {id} == a - {id};
  }

  /** Answering multiple-choice question `k` with option index `i` adds exactly `5 - i`. */
  lemma ChoiceAddsInverseIndex(qs: seq<Question>, a: Answers, k: nat, i: int)
    requires DistinctIds(qs) && k < |qs| && qs[k].kind == MultipleChoice
    ensures ScoreOf(qs, a[qs[k].id := Num(i)]) == ScoreOf(qs, a - {qs[k].id}) + (5 - i)
  {
    var id := qs[k].id;
    ScoreSplitAt(qs, a[id := Num(i)], k);
    assert a[id := Num(i)] - {id} == a - {id};
  }

  // ---------------------------------------------------------------------------
  // Bounds
  // ---------------------------------------------------------------------------

  /**
   * An answer the page can store for `q`: a likert value 1..5, an index of
   * one of the question's options, or a string for an open-ended question.
   */
  predicate ValidAnswer(q: Question, x: Answer)
  {
    match q.kind
    case Likert => x.Num? && 1 <= x.n <= 5
    case MultipleChoice => x.Num? && q.options.Some? && 0 <= x.n < |q.options.value|
    case OpenEnded => x.Text?
  }

  /** Every answer present for a scored question of `qs` is one the page can store. */
  predicate ScoredAnswersValid(qs: seq<Question>, a: Answers)
  {
    forall i :: 0 <= i < |qs| && qs[i].kind != OpenEnded && qs[i].id in a ==> ValidAnswer(qs[i], a[qs[i].id])
  }

  /**
   * Every scored question of `qs` has an answer, and it is one the page can
   * store; open-ended questions may have any answer or none.
   */
  predicate ScoredComplete(qs: seq<Question>, a: Answers)
  {
    forall i :: 0 <= i < |qs| && qs[i].kind != OpenEnded ==> qs[i].id in a && ValidAnswer(qs[i], a[qs[i].id])
  }

  /** Every multiple-choice question of `qs` offers at most `m` options. */
  predicate OptionsAtMost(qs: seq<Question>, m: nat)
  {
    forall i :: 0 <= i < |qs| && qs[i].kind == MultipleChoice && qs[i].options.Some? ==>
      |qs[i].options.value| <= m
  }

  lemma KindsOfInit(qs: seq<Question>)
    requires qs != []
    ensures KindsOf(qs)[..|qs| - 1] == KindsOf(qs[..|qs| - 1])
    ensures KindsOf(qs)[|qs| - 1] == qs[|qs| - 1].kind
  {
  }

  /**
   * With valid (possibly partial) answers to the scored questions, and at most five options per
   * multiple-choice question, the score is non-negative and at most five
   * points per scored question.
   */
  lemma {:induction false} ScoreUpperBound(qs: seq<Question>, a: Answers)
    requires ScoredAnswersValid(qs, a) && OptionsAtMost(qs, 5)
    ensures 0 <= ScoreOf(qs, a) <= 5 * CountScored(qs)
  {
    if qs != [] {
      var init := qs[..|qs| - 1];
      assert forall i :: 0 <= i < |init| ==> init[i] == qs[i];
      ScoreUpperBound(init, a);
      KindsOfInit(qs);
    }
  }

  /**
   * With every scored question answered validly, and no more than four options per
   * multiple-choice question, each likert question adds at least 1 and each
   * multiple-choice question at least 2.
   */
  lemma {:induction false} ScoreLowerBound(qs: seq<Question>, a: Answers)
    requires ScoredComplete(qs, a) && OptionsAtMost(qs, 4)
    ensures ScoreOf(qs, a) >= CountKind(KindsOf(qs), Likert) + 2 * CountKind(KindsOf(qs), MultipleChoice)
  {
    if qs != [] {
      var init := qs[..|qs| - 1];
      assert forall i :: 0 <= i < |init| ==> init[i] == qs[i];
      ScoreLowerBound(init, a);
      KindsOfInit(qs);
    }
  }

  /**
   * For the catalog (whatever its texts), valid answers to all scored
   * questions score between 13 and 50, whatever the open-ended answers are.
   */
  lemma CatalogScoreRange(wording: seq<string>, labels: seq<string>, a: Answers)
    requires ScoredComplete(Catalog(wording, labels), a)
    ensures 13 <= ScoreOf(Catalog(wording, labels), a) <= 50
  {
    var qs := Catalog(wording, labels);
    CatalogKinds(wording, labels);
    CatalogOptions(wording, labels);
    ScoreUpperBound(qs, a);
    ScoreLowerBound(qs, a);
  }

  /** The answer that makes a question contribute most (`Highest`) or least (`Lowest`). */
  datatype Extreme = Highest | Lowest

  function ExtremeAnswer(q: Question, e: Extreme): Answer
  {
    match q.kind
    case Likert => if e == Highest then Num(5) else Num(1)
    case MultipleChoice =>
      if e == Highest || q.options.None? || |q.options.value| == 0 then Num(0)
      else Num(|q.options.value| - 1)
    case OpenEnded => Text("")
  }

  /** The answer set giving every question of `qs` its extreme answer. */
  function Fill(qs: seq<Question>, e: Extreme): (a: Answers)
    ensures forall i :: 0 <= i < |qs| ==> qs[i].id in a
  {
    if qs == [] then map[]
    else Fill(qs[..|qs| - 1], e)[qs[|qs| - 1].id := ExtremeAnswer(qs[|qs| - 1], e)]
  }

  lemma {:induction false} FillAt(qs: seq<Question>, e: Extreme, k: nat)
    requires DistinctIds(qs) && k < |qs|
    ensures Fill(qs, e)[qs[k].id] == ExtremeAnswer(qs[k], e)
  {
    var init := qs[..|qs| - 1];
    if k < |qs| - 1 {
      FillAt(init, e, k);
    }
  }

  /** All-highest answers reach the upper bound: five points per scored question. */
  lemma AllHighestScore(qs: seq<Question>)
    requires DistinctIds(qs)
    ensures ScoreOf(qs, Fill(qs, Highest)) == 5 * CountScored(qs)
  {
    var a := Fill(qs, Highest);
    forall i | 0 <= i < |qs| ensures a[qs[i].id] == ExtremeAnswer(qs[i], Highest) {
      FillAt(qs, Highest, i);
    }
    AllHighestSum(qs, a);
  }

  lemma {:induction false} AllHighestSum(qs: seq<Question>, a: Answers)
    requires forall i :: 0 <= i < |qs| ==> qs[i].id in a && a[qs[i].id] == ExtremeAnswer(qs[i], Highest)
    ensures ScoreOf(qs, a) == 5 * CountScored(qs)
  {
    if qs != [] {
      var init := qs[..|qs| - 1];
      assert forall i :: 0 <= i < |init| ==> init[i] == qs[i];
      AllHighestSum(init, a);
      KindsOfInit(qs);
    }
  }

  /** All-lowest answers reach the lower bound when every multiple-choice question has four options. */
  lemma AllLowestScore(qs: seq<Question>)
    requires DistinctIds(qs)
    requires forall i :: 0 <= i < |qs| && qs[i].kind == MultipleChoice ==>
      qs[i].options.Some? && |qs[i].options.value| == 4
    ensures ScoreOf(qs, Fill(qs, Lowest))
      == CountKind(KindsOf(qs), Likert) + 2 * CountKind(KindsOf(qs), MultipleChoice)
  {
    var a := Fill(qs, Lowest);
    forall i | 0 <= i < |qs| ensures a[qs[i].id] == ExtremeAnswer(qs[i], Lowest) {
      FillAt(qs, Lowest, i);
    }
    AllLowestSum(qs, a);
  }

  lemma {:induction false} AllLowestSum(qs: seq<Question>, a: Answers)
    requires forall i :: 0 <= i < |qs| ==> qs[i].id in a && a[qs[i].id] == ExtremeAnswer(qs[i], Lowest)
    requires forall i :: 0 <= i < |qs| && qs[i].kind == MultipleChoice ==>
      qs[i].options.Some? && |qs[i].options.value| == 4
    ensures ScoreOf(qs, a) == CountKind(KindsOf(qs), Likert) + 2 * CountKind(KindsOf(qs), MultipleChoice)
  {
    if qs != [] {
      var init := qs[..|qs| - 1];
      assert forall i :: 0 <= i < |init| ==> init[i] == qs[i];
      AllLowestSum(init, a);
      KindsOfInit(qs);
    }
  }

  // ---------------------------------------------------------------------------
  // Risk classification
  // ---------------------------------------------------------------------------

  /** The four risk tiers, in increasing order of risk. */
  datatype RiskLevel = Low | Medium | High | Critical
  {
    /** The string stored in `risk_level` and used as the lookup key downstream. */
    function Name(): string
    {
      match this
      case Low => "low"
      case Medium => "medium"
      case High => "high"
      case Critical => "critical"
    }

    /** Position in the order low < medium < high < critical. */
    function Rank(): nat
    {
      match this
      case Low => 0
      case Medium => 1
      case High => 2
      case Critical => 3
    }
  }

  /** The band of scores each tier stands for: up to 15, 16..30, 31..45, above 45. */
  predicate InBand(score: int, level: RiskLevel)
  {
    match level
    case Low => score <= 15
    case Medium => 15 < score <= 30
    case High => 30 < score <= 45
    case Critical => 45 < score
  }

  /** The classifier: the tier whose band holds the score. */
  function RiskOf(score: int): (r: RiskLevel)
    ensures InBand(score, r)
  {
    if score <= 15 then Low
    else if score <= 30 then Medium
    else if score <= 45 then High
    else Critical
  }

  /** The bands do not overlap, so the tier of a score is unique. */
  lemma BandsDisjoint(score: int, l1: RiskLevel, l2: RiskLevel)
    requires InBand(score, l1) && InBand(score, l2)
    ensures l1 == l2
  {
  }

  /** A higher score never yields a lower tier. */
  lemma RiskMonotone(s1: int, s2: int)
    requires s1 <= s2
    ensures RiskOf(s1).Rank() <= RiskOf(s2).Rank()
  {
  }

  /** The boundary values of the classifier. */
  lemma RiskThresholds()
    ensures RiskOf(15) == Low && RiskOf(16) == Medium
    ensures RiskOf(30) == Medium && RiskOf(31) == High
    ensures RiskOf(45) == High && RiskOf(46) == Critical
  {
  }

  /** The tier names are distinct, so a stored name identifies its tier. */
  lemma NamesDistinct(l1: RiskLevel, l2: RiskLevel)
    requires l1.Name() == l2.Name()
    ensures l1 == l2
  {
  }

  // ---------------------------------------------------------------------------
  // Recommendations
  // ---------------------------------------------------------------------------

  /**
   * The advice items of the static table, one constructor per item; `Text`
   * is the sentence shown to the student and stored with the result.
   */
  datatype Advice =
    | KeepThinkingIndependently | ShareYourExperience
    | DecideMoreIndependently | PractiseSayingNo | LearnYourValues
    | UnderGroupPressure | ReflectOnWhatMatters | SeekFamilyOrTeacherSupport | PractiseAssertiveness
    | HighHerdRisk | TalkToTrustedAdultNow | JoinLifeSkillsActivities | ConsultPsychologist
  {
    /** The tier whose advice list holds the item. */
    function Tier(): RiskLevel
    {
      match this
      case KeepThinkingIndependently | ShareYourExperience => Low
      case DecideMoreIndependently | PractiseSayingNo | LearnYourValues => Medium
      case UnderGroupPressure | ReflectOnWhatMatters | SeekFamilyOrTeacherSupport | PractiseAssertiveness => High
      case HighHerdRisk | TalkToTrustedAdultNow | JoinLifeSkillsActivities | ConsultPsychologist => Critical
    }

    function Text(): string
    {
      match this
      case KeepThinkingIndependently => "Bạn có khả năng tư duy độc lập tốt! Hãy tiếp tục phát huy."
      case ShareYourExperience => "Chia sẻ kinh nghiệm của bạn với bạn bè để giúp họ tự tin hơn."
      case DecideMoreIndependently => "Bạn cần chú ý đến việc đưa ra quyết định độc lập nhiều hơn."
      case PractiseSayingNo => "Thử thách bản thân bằng cách nói \"không\" khi không đồng ý với nhóm."
      case LearnYourValues => "Tìm hiểu thêm về giá trị cá nhân của bạn."
      case UnderGroupPressure => "Bạn đang bị ảnh hưởng nhiều bởi áp lực nhóm."
      case ReflectOnWhatMatters => "Hãy dành thời gian suy nghĩ về những gì thực sự quan trọng với bạn."
      case SeekFamilyOrTeacherSupport => "Tìm kiếm sự hỗ trợ từ gia đình hoặc thầy cô."
      case PractiseAssertiveness => "Luyện tập kỹ năng tự khẳng định bản thân."
      case HighHerdRisk => "Bạn đang ở mức độ rủi ro cao về hành vi bầy đàn."
      case TalkToTrustedAdultNow => "Cần trao đổi với người lớn đáng tin cậy ngay lập tức."
      case JoinLifeSkillsActivities => "Tham gia các hoạt động phát triển kỹ năng sống."
      case ConsultPsychologist => "Xem xét tham khảo ý kiến chuyên gia tâm lý."
    }
  }

  /** The static advice table, keyed by tier name. */
  function RecommendationTable(): (table: map<string, seq<Advice>>)
    ensures table.Keys == {"low", "medium", "high", "critical"}
    ensures forall k, a :: k in table && a in table[k] ==> a.Tier().Name() == k
  {
    map[
      "low" := [KeepThinkingIndependently, ShareYourExperience],
      "medium" := [DecideMoreIndependently, PractiseSayingNo, LearnYourValues],
      "high" := [UnderGroupPressure, ReflectOnWhatMatters, SeekFamilyOrTeacherSupport, PractiseAssertiveness],
      "critical" := [HighHerdRisk, TalkToTrustedAdultNow, JoinLifeSkillsActivities, ConsultPsychologist]]
  }

  /**
   * The advice for a tier name: two items for low, three for medium, four
   * for high and critical, and none at all for any other string; an item is
   * in the list exactly when it belongs to the named tier.
   */
  function Recommendations(level: string): (r: seq<Advice>)
    ensures level == "low" ==> |r| == 2
    ensures level == "medium" ==> |r| == 3
    ensures level == "high" || level == "critical" ==> |r| == 4
    ensures level !in {"low", "medium", "high", "critical"} ==> r == []
    ensures forall a: Advice :: a in r <==> a.Tier().Name() == level
  {
    var table := RecommendationTable();
    if level in table then table[level] else []
  }

  /** A classified score always finds advice: the empty fallback is never reached from a score. */
  lemma AdviceForEveryScore(score: int)
    ensures 2 <= |Recommendations(RiskOf(score).Name())| <= 4
    ensures |Recommendations(RiskOf(score).Name())| == 2 <==> score <= 15
  {
    match RiskOf(score)
    case Low =>
    case Medium =>
    case High =>
    case Critical =>
  }

  // ---------------------------------------------------------------------------
  // Submission
  // ---------------------------------------------------------------------------

  /** The derived part of the persisted `survey_results` row. */
  datatype Evaluation = Evaluation(totalScore: int, riskLevel: string, recommendations: seq<Advice>)

  /** What a submission stores: the score, the tier derived from it, the advice derived from the tier. */
  function EvaluationOf(qs: seq<Question>, answers: Answers): Evaluation
  {
    var score := ScoreOf(qs, answers);
    var level := RiskOf(score).Name();
    Evaluation(score, level, Recommendations(level))
  }

  /**
   * The computation inside the submission: score first, then the tier, then
   * the advice, each exactly once.
   */
  method Evaluate(qs: seq<Question>, answers: Answers) returns (e: Evaluation)
    ensures e == EvaluationOf(qs, answers)
  {
    var score := CalculateScore(qs, answers);
    var level := RiskOf(score);
    var advice := Recommendations(level.Name());
    e := Evaluation(score, level.Name(), advice);
  }

  /**
   * What a submission stores is consistent: the tier's band holds the score,
   * the stored name is that tier's, and there are two to four advice items.
   */
  lemma EvaluationConsistent(qs: seq<Question>, answers: Answers)
    ensures var e := EvaluationOf(qs, answers);
      && e.totalScore == ScoreOf(qs, answers)
      && InBand(e.totalScore, RiskOf(e.totalScore))
      && e.riskLevel == RiskOf(e.totalScore).Name()
      && 2 <= |e.recommendations| <= 4
  {
    AdviceForEveryScore(ScoreOf(qs, answers));
  }

  /**
   * For the catalog (whatever its texts), all-highest answers give 50, which
   * is critical, and all-lowest answers give 13, which is low.
   */
  lemma CatalogExtremes(wording: seq<string>, labels: seq<string>)
    ensures var qs := Catalog(wording, labels); ScoreOf(qs, Fill(qs, Highest)) == 50
    ensures RiskOf(50) == Critical
    ensures var qs := Catalog(wording, labels); ScoreOf(qs, Fill(qs, Lowest)) == 13
    ensures RiskOf(13) == Low
  {
    var qs := Catalog(wording, labels);
    CatalogIds(wording, labels);
    CatalogKinds(wording, labels);
    CatalogOptions(wording, labels);
    ExtremesOfCounts(qs);
  }

  /** The extremes of any catalog with distinct ids, seven likert and three four-option choice questions. */
  lemma ExtremesOfCounts(qs: seq<Question>)
    requires DistinctIds(qs)
    requires CountKind(KindsOf(qs), Likert) == 7 && CountKind(KindsOf(qs), MultipleChoice) == 3
    requires forall i :: 0 <= i < |qs| && qs[i].kind == MultipleChoice ==>
      qs[i].options.Some? && |qs[i].options.value| == 4
    ensures ScoreOf(qs, Fill(qs, Highest)) == 50 && ScoreOf(qs, Fill(qs, Lowest)) == 13
  {
    AllHighestScore(qs);
    AllLowestScore(qs);
  }

  /** An empty catalog scores 0, which is classified low. */
  lemma EmptyCatalog(a: Answers)
    ensures ScoreOf([], a) == 0 && RiskOf(ScoreOf([], a)) == Low
  {
  }

  /** One likert question answered 5 and one three-option question answered with its first option: 10, low. */
  lemma SmallCatalogExample()
    ensures var qs := [Question("a", Likert, "", None, ""),
                       Question("b", MultipleChoice, "", Some(["x", "y", "z"]), "")];
      ScoreOf(qs, map["a" := Num(5), "b" := Num(0)]) == 10
      && RiskOf(ScoreOf(qs, map["a" := Num(5), "b" := Num(0)])) == Low
  {
    var qs := [Question("a", Likert, "", None, ""),
               Question("b", MultipleChoice, "", Some(["x", "y", "z"]), "")];
    assert qs[..1][..0] == [];
  }
}
