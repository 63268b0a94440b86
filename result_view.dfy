/**
 * The result page: it loads the stored `survey_results` row of a survey and
 * shows the tier's display configuration, a score bar, the tier's analysis
 * paragraph, the numbered advice and, for the critical tier only, a warning.
 * The stored tier is read back as a plain string, so every lookup here is
 * total over strings.
 */
module ResultView {
  import opened Wrappers
  import opened Questions
  import opened Scoring

  /** The icon drawn at the top of the page. */
  datatype Icon = CheckCircle | Shield | AlertTriangle

  /** The display configuration of a tier: icon, colour name, texts and style classes. */
  datatype RiskConfig = RiskConfig(
    icon: Icon,
    color: string,
    title: string,
    description: string,
    bgGradient: string,
    iconBg: string,
    iconColor: string,
    borderColor: string)

  /**
   * The configuration shipped for each tier. Its colour name gives the tier
   * back, so no two tiers share a configuration, and the warning triangle is
   * drawn for the high and critical tiers only.
   */
  function ConfigOf(level: RiskLevel): (c: RiskConfig)
    ensures LevelOfColor(c.color) == Some(level)
    ensures c.icon == AlertTriangle <==> level.Rank() >= 2
  {
    match level
    case Low => RiskConfig(CheckCircle, "green", "Mức Độ Thấp", "Bạn có khả năng tư duy độc lập tốt!",
      "from-green-50 to-emerald-50", "bg-green-100", "text-green-500", "border-green-500")
    case Medium => RiskConfig(Shield, "yellow", "Mức Độ Trung Bình", "Bạn cần chú ý hơn đến quyết định của bản thân.",
      "from-yellow-50 to-orange-50", "bg-yellow-100", "text-yellow-600", "border-yellow-500")
    case High => RiskConfig(AlertTriangle, "orange", "Mức Độ Cao", "Bạn đang bị ảnh hưởng nhiều bởi áp lực nhóm.",
      "from-orange-50 to-red-50", "bg-orange-100", "text-orange-500", "border-orange-500")
    case Critical => RiskConfig(AlertTriangle, "red", "Mức Độ Rất Cao", "Bạn cần sự hỗ trợ ngay lập tức!",
      "from-red-50 to-rose-50", "bg-red-100", "text-red-500", "border-red-500")
  }

  /** The tier whose configuration has colour name `color`, if any. */
  function LevelOfColor(color: string): Option<RiskLevel>
  {
    if color == "green" then Some(Low)
    else if color == "yellow" then Some(Medium)
    else if color == "orange" then Some(High)
    else if color == "red" then Some(Critical)
    else None
  }

  /** `getRiskConfig`: the configuration keyed by the stored tier name, medium's for any other string. */
  function RiskConfigFor(level: string): (c: RiskConfig)
    ensures forall l: RiskLevel :: level == l.Name() ==> c == ConfigOf(l)
    ensures level !in {"low", "medium", "high", "critical"} ==> c == ConfigOf(Medium)
  {
    var configs := map[
      "low" := ConfigOf(Low), "medium" := ConfigOf(Medium),
      "high" := ConfigOf(High), "critical" := ConfigOf(Critical)];
    if level in configs then configs[level] else configs["medium"]
  }

  /** The page's configuration shows a non-medium tier only when that tier's name is stored. */
  lemma ConfigFallbackOnlyMedium(level: string, l: RiskLevel)
    requires RiskConfigFor(level) == ConfigOf(l) && l != Medium
    ensures level == l.Name()
  {
  }

  /**
   * The detailed-analysis paragraph of each tier. Data only: the page shows
   * the paragraphs of `AnalysisBlocks`, and the properties are stated of that
   * list of tiers.
   */
  function AnalysisText(level: RiskLevel): string
  {
    match level
    case Low =>
      "Bạn thể hiện khả năng tư duy độc lập tốt và ít bị ảnh hưởng bởi áp lực từ bạn bè. "
      + "Bạn có xu hướng đưa ra quyết định dựa trên suy nghĩ của riêng mình và không sợ bày tỏ ý kiến khác biệt."
    case Medium =>
      "Bạn đôi khi bị ảnh hưởng bởi ý kiến của nhóm, đặc biệt trong các tình huống xã hội. "
      + "Bạn cần rèn luyện thêm kỹ năng tự tin và khẳng định bản thân để không bị cuốn theo dòng chảy một cách thụ động."
    case High =>
      "Bạn đang chịu ảnh hưởng đáng kể từ hành vi bầy đàn. Áp lực từ bạn bè và mong muốn được chấp nhận "
      + "đang khiến bạn dễ dàng thay đổi quan điểm và hành vi. Điều này có thể dẫn đến việc bạn tham gia "
      + "vào các hoạt động không phù hợp với giá trị của mình."
    case Critical =>
      "Bạn đang ở mức độ rủi ro rất cao! Bạn rất dễ bị ảnh hưởng bởi nhóm và có thể tham gia vào các "
      + "hành vi tiêu cực. Hãy nói chuyện với người lớn đáng tin cậy ngay lập tức để được hỗ trợ và hướng dẫn."
  }

  /**
   * The analysis paragraphs shown for a stored tier name: the page tests the
   * name against each of the four tiers in turn and shows the paragraph of
   * every test that holds.
   */
  function AnalysisBlocks(level: string): (blocks: seq<RiskLevel>)
    ensures |blocks| <= 1
    ensures |blocks| == 1 <==> level in {"low", "medium", "high", "critical"}
    ensures forall l: RiskLevel :: level == l.Name() ==> blocks == [l]
  {
    (if level == "low" then [Low] else [])
    + (if level == "medium" then [Medium] else [])
    + (if level == "high" then [High] else [])
    + (if level == "critical" then [Critical] else [])
  }

  /**
   * The warning box appears exactly for the critical tier: exactly when the
   * critical paragraph is the one shown, and then under critical's configuration.
   */
  predicate ShowsCriticalWarning(level: string): (shown: bool)
    ensures shown <==> AnalysisBlocks(level) == [Critical]
    ensures shown ==> RiskConfigFor(level) == ConfigOf(Critical)
  {
    level == "critical"
  }

  /** A line of the advice list: its number and its text. */
  datatype NumberedItem = NumberedItem(number: int, text: string)

  /** The advice list as rendered: the stored items in stored order, numbered from 1. */
  function Numbered(recs: seq<string>): (items: seq<NumberedItem>)
    ensures |items| == |recs|
    ensures forall i :: 0 <= i < |items| ==> items[i].number == i + 1 && items[i].text == recs[i]
  {
    seq(|recs|, i requires 0 <= i < |recs| => NumberedItem(i + 1, recs[i]))
  }

  /** The texts of a rendered list, in order. */
  function TextsOf(items: seq<NumberedItem>): (texts: seq<string>)
    ensures |texts| == |items|
    ensures forall i :: 0 <= i < |items| ==> texts[i] == items[i].text
  {
    seq(|items|, i requires 0 <= i < |items| => items[i].text)
  }

  /** Numbering keeps every stored item, in order, and the numbers strictly increase by one. */
  lemma NumberedRoundTrip(recs: seq<string>)
    ensures TextsOf(Numbered(recs)) == recs
    ensures forall i, j :: 0 <= i < j < |recs| ==> Numbered(recs)[j].number - Numbered(recs)[i].number == j - i
  {
  }

  /** The filled part of the score bar, in percent: the score over 60, capped at 100. */
  function ScoreBarWidth(score: int): (w: real)
    ensures w <= 100.0
    ensures w == 100.0 <==> score >= 60
    ensures score >= 0 ==> w >= 0.0
  {
    var ratio := score as real / 60.0 * 100.0;
    if ratio < 100.0 then ratio else 100.0
  }

  /** A higher score never fills less of the bar. */
  lemma ScoreBarMonotone(s1: int, s2: int)
    requires s1 <= s2
    ensures ScoreBarWidth(s1) <= ScoreBarWidth(s2)
  {
  }

  /** The stored row the page reads: score, tier name and advice texts. */
  datatype StoredResult = StoredResult(totalScore: int, riskLevel: string, recommendations: seq<string>)

  /** The texts of advice items, in order. */
  function AdviceTexts(advice: seq<Advice>): (texts: seq<string>)
    ensures |texts| == |advice|
    ensures forall i :: 0 <= i < |advice| ==> texts[i] == advice[i].Text()
  {
    seq(|advice|, i requires 0 <= i < |advice| => advice[i].Text())
  }

  /** The row a submission stores for an evaluation. */
  function Stored(e: Evaluation): StoredResult
  {
    StoredResult(e.totalScore, e.riskLevel, AdviceTexts(e.recommendations))
  }

  /** Everything the page derives from a loaded row. */
  datatype ResultPage = ResultPage(
    config: RiskConfig,
    barWidth: real,
    score: int,
    analysis: seq<RiskLevel>,
    recommendations: seq<NumberedItem>,
    criticalWarning: bool)

  /** The screens of the page: the spinner while loading, "not found" without a row, else the result. */
  datatype ResultScreen = Loading | NotFound | Shown(page: ResultPage)

  /**
   * The page for a loaded row. It shows the stored score and as many advice
   * lines as are stored; the configuration agrees with the analysis
   * paragraph shown, and is medium's when none is; the warning comes with the
   * critical paragraph.
   */
  function PageOf(r: StoredResult): (p: ResultPage)
    ensures p.score == r.totalScore && |p.recommendations| == |r.recommendations|
    ensures |p.analysis| <= 1
    ensures forall l: RiskLevel :: p.analysis == [l] ==> p.config == ConfigOf(l)
    ensures p.analysis == [] ==> p.config == ConfigOf(Medium) && !p.criticalWarning
    ensures p.criticalWarning <==> p.analysis == [Critical]
  {
    ResultPage(
      RiskConfigFor(r.riskLevel),
      ScoreBarWidth(r.totalScore),
      r.totalScore,
      AnalysisBlocks(r.riskLevel),
      Numbered(r.recommendations),
      ShowsCriticalWarning(r.riskLevel))
  }

  /** The screen while `loading`, and once loading ended with or without a row. */
  function ScreenOf(loading: bool, result: Option<StoredResult>): (sc: ResultScreen)
    ensures sc.Loading? <==> loading
    ensures sc.NotFound? <==> !loading && result.None?
    ensures sc.Shown? ==> result.Some? && sc.page == PageOf(result.value)
  {
    if loading then Loading
    else if result.None? then NotFound
    else Shown(PageOf(result.value))
  }

  /**
   * The page for a row of an arbitrary stored tier name: the configuration
   * falls back to medium's, exactly one analysis paragraph appears for a known
   * name and none otherwise, and the warning appears for "critical" only.
   */
  lemma PageOfAnyRow(r: StoredResult)
    ensures r.riskLevel in {"low", "medium", "high", "critical"} <==> |PageOf(r).analysis| == 1
    ensures r.riskLevel !in {"low", "medium", "high", "critical"} ==>
      PageOf(r).config == ConfigOf(Medium) && PageOf(r).analysis == []
    ensures PageOf(r).criticalWarning <==> r.riskLevel == "critical"
    ensures TextsOf(PageOf(r).recommendations) == r.recommendations
  {
    NumberedRoundTrip(r.recommendations);
  }

  /**
   * The page for the row a submission stores: the configuration and the
   * analysis paragraph are those of the score's own tier (the fallback is
   * never reached), the warning appears exactly above 45 points, and two to
   * four numbered advice lines are shown in the order they were chosen.
   */
  lemma PageOfEvaluation(qs: seq<Question>, answers: Answers)
    ensures var score := ScoreOf(qs, answers);
      var page := PageOf(Stored(EvaluationOf(qs, answers)));
      && page.config == ConfigOf(RiskOf(score))
      && page.analysis == [RiskOf(score)]
      && (page.criticalWarning <==> score > 45)
      && 2 <= |page.recommendations| <= 4
      && TextsOf(page.recommendations) == AdviceTexts(Recommendations(RiskOf(score).Name()))
  {
    var e := EvaluationOf(qs, answers);
    EvaluationConsistent(qs, answers);
    NumberedRoundTrip(Stored(e).recommendations);
  }

  /**
   * For the catalog (whatever its texts) and a complete valid answer set the
   * score bar is never full: the score is at most 50 of the 60 the bar is
   * scaled to.
   */
  lemma CatalogBarNeverFull(wording: seq<string>, labels: seq<string>, a: Answers)
    requires ScoredComplete(Catalog(wording, labels), a)
    ensures 0.0 < ScoreBarWidth(ScoreOf(Catalog(wording, labels), a)) < 100.0
  {
    CatalogScoreRange(wording, labels, a);
  }
}
