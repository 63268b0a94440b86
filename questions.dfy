/**
 * The question catalog of the survey: the `Question` record and the constant
 * `surveyQuestions` list, with the static facts about it that the scoring
 * bounds rely on.
 */
module Questions {
  import opened Wrappers

  /** The three kinds of question; only likert and multiple-choice are scored. */
  datatype QuestionType = Likert | MultipleChoice | OpenEnded

  /** A catalog entry. `options` is the TypeScript optional `options?: string[]`. */
  datatype Question = Question(
    id: string,
    kind: QuestionType,
    text: string,
    options: Option<seq<string>>,
    category: string)

  /**
   * The catalog's entries in their defined order. The question texts are
   * taken from `wording` (one per question, in order) and the option labels
   * of q6, q7 and q10 from `labels` (four per question, in order); ids, kinds,
   * the number of options and categories are fixed here.
   */
  function Catalog(wording: seq<string>, labels: seq<string>): (qs: seq<Question>)
    ensures |qs| == 13
    ensures forall i :: 0 <= i < 13 ==> qs[i].text == TextAt(wording, i)
  {
    [ Question("q1", Likert, TextAt(wording, 0), None, "conformity"),
      Question("q2", Likert, TextAt(wording, 1), None, "conformity"),
      Question("q3", Likert, TextAt(wording, 2), None, "fear_of_exclusion"),
      Question("q4", Likert, TextAt(wording, 3), None, "conformity"),
      Question("q5", Likert, TextAt(wording, 4), None, "peer_pressure"),
      Question("q6", MultipleChoice, TextAt(wording, 5),
        Some([ TextAt(labels, 0), TextAt(labels, 1), TextAt(labels, 2), TextAt(labels, 3) ]),
        "trend_following"),
      Question("q7", MultipleChoice, TextAt(wording, 6),
        Some([ TextAt(labels, 4), TextAt(labels, 5), TextAt(labels, 6), TextAt(labels, 7) ]),
        "peer_pressure"),
      Question("q8", Likert, TextAt(wording, 7), None, "social_comparison"),
      Question("q9", Likert, TextAt(wording, 8), None, "fear_of_exclusion"),
      Question("q10", MultipleChoice, TextAt(wording, 9),
        Some([ TextAt(labels, 8), TextAt(labels, 9), TextAt(labels, 10), TextAt(labels, 11) ]),
        "decision_making"),
      Question("q11", OpenEnded, TextAt(wording, 10), None, "peer_pressure"),
      Question("q12", OpenEnded, TextAt(wording, 11), None, "awareness"),
      Question("q13", OpenEnded, TextAt(wording, 12), None, "awareness") ]
  }

  /** The `i`-th of `texts`, or the empty text past its end. */
  function TextAt(texts: seq<string>, i: nat): (t: string)
    ensures i < |texts| ==> t == texts[i]
  {
    if i < |texts| then texts[i] else ""
  }

  /**
   * The wording of q1 .. q13, in order, as shipped. Data only: every property
   * of the catalog is proved of `Catalog` for arbitrary texts, so no proof
   * has to unfold these literals.
   */
  function Wording(): seq<string>
  {
    [ "Bạn có thường xuyên làm theo những gì bạn bè của bạn làm không?",
      "Bạn có cảm thấy áp lực phải mặc đồ giống như bạn bè của bạn không?",
      "Bạn có sợ bị cô lập nếu không làm theo nhóm không?",
      "Bạn có thường thay đổi ý kiến của mình để phù hợp với đa số không?",
      "Bạn có cảm thấy khó khăn khi nói \"không\" với bạn bè không?",
      "Khi có một xu hướng mới ở trường, bạn thường làm gì?",
      "Nếu nhóm bạn của bạn quyết định làm điều gì đó sai trái, bạn sẽ:",
      "Bạn có thường xuyên so sánh bản thân với người khác trên mạng xã hội không?",
      "Bạn có cảm thấy lo lắng khi không được mời vào các nhóm chat của bạn bè không?",
      "Khi đưa ra quyết định quan trọng, yếu tố nào ảnh hưởng đến bạn nhiều nhất?",
      "Hãy kể về một lần bạn cảm thấy áp lực phải làm theo nhóm. Bạn đã phản ứng như thế nào?",
      "Theo bạn, điều gì khiến học sinh dễ bị ảnh hưởng bởi hành vi bầy đàn?",
      "Theo bạn, điều gì khiến học sinh dễ bị ảnh hưởng bởi hành vi bầy đàn?" ]
  }

  /** The option labels of q6, q7 and q10, four each, in order, as shipped. Data only, like `Wording`. */
  function OptionLabels(): seq<string>
  {
    [ "Tham gia ngay lập tức",
      "Đợi xem phản ứng của mọi người trước",
      "Chỉ tham gia nếu bạn thực sự thích",
      "Không quan tâm đến xu hướng",
      "Tham gia vì không muốn bị xa lánh",
      "Im lặng nhưng không tham gia",
      "Nói rõ ý kiến và từ chối",
      "Cố gắng thuyết phục họ không làm",
      "Ý kiến của bạn bè",
      "Ý kiến của gia đình",
      "Suy nghĩ của chính bạn",
      "Những gì phổ biến trên mạng xã hội" ]
  }

  /**
   * The shipped catalog (`surveyQuestions`): the entries of `Catalog` with
   * the shipped texts. Every lemma about `Catalog` holds of it with
   * `wording := Wording()` and `labels := OptionLabels()`.
   */
  function SurveyQuestions(): seq<Question>
  {
    Catalog(Wording(), OptionLabels())
  }

  /** A question is well formed when it carries options exactly if it is multiple choice. */
  predicate WellFormed(q: Question)
  {
    q.options.Some? <==> q.kind == MultipleChoice
  }

  /** No two questions of `qs` share an id (the answer map is keyed by id). */
  predicate DistinctIds(qs: seq<Question>)
  {
    forall i, j :: 0 <= i < j < |qs| ==> qs[i].id != qs[j].id
  }

  /** The kinds of `qs`, position by position. */
  function KindsOf(qs: seq<Question>): (ks: seq<QuestionType>)
    ensures |ks| == |qs| && forall i :: 0 <= i < |qs| ==> ks[i] == qs[i].kind
  {
    seq(|qs|, i requires 0 <= i < |qs| => qs[i].kind)
  }

  /** How many entries of `ks` equal `kind`. */
  function CountKind(ks: seq<QuestionType>, kind: QuestionType): (n: nat)
    ensures n <= |ks|
  {
    if ks == [] then 0
    else CountKind(ks[..|ks| - 1], kind) + (if ks[|ks| - 1] == kind then 1 else 0)
  }

  /** Extending a prefix of `ks` by one entry adds one to the count of that entry's kind only. */
  lemma CountKindStep(ks: seq<QuestionType>, k: nat)
    requires k < |ks|
    ensures CountKind(ks[..k + 1], Likert) == CountKind(ks[..k], Likert) + (if ks[k] == Likert then 1 else 0)
    ensures CountKind(ks[..k + 1], MultipleChoice)
      == CountKind(ks[..k], MultipleChoice) + (if ks[k] == MultipleChoice then 1 else 0)
    ensures CountKind(ks[..k + 1], OpenEnded) == CountKind(ks[..k], OpenEnded) + (if ks[k] == OpenEnded then 1 else 0)
  {
    assert ks[..k + 1][..k] == ks[..k];
  }

  /** The number of questions of `qs` that are scored (likert or multiple choice). */
  function CountScored(qs: seq<Question>): nat
  {
    CountKind(KindsOf(qs), Likert) + CountKind(KindsOf(qs), MultipleChoice)
  }

  /** A decimal digit character. */
  predicate IsDigit(c: char)
  {
    '0' <= c <= '9'
  }

  /**
   * The number of an id written as 'q' followed by a one- or two-digit
   * number without a leading zero, such as "q7" or "q12"; -1 for any other
   * string. Such an id is determined by its number.
   */
  function IdNumber(id: string): (n: int)
    ensures n >= 0 ==> 2 <= |id| <= 3 && id[0] == 'q' && forall k :: 1 <= k < |id| ==> IsDigit(id[k])
  {
    if |id| == 2 && id[0] == 'q' && IsDigit(id[1]) then id[1] as int - '0' as int
    else if |id| == 3 && id[0] == 'q' && IsDigit(id[1]) && id[1] != '0' && IsDigit(id[2]) then
      10 * (id[1] as int - '0' as int) + (id[2] as int - '0' as int)
    else -1
  }

  /** Two ids of that form with the same number are the same string. */
  lemma IdNumberInjective(id1: string, id2: string)
    requires IdNumber(id1) >= 0 && IdNumber(id1) == IdNumber(id2)
    ensures id1 == id2
  {
    assert |id1| == |id2|;
    assert forall k :: 0 <= k < |id1| ==> id1[k] == id2[k];
  }

  /** The kinds of the shipped catalog, in order. */
  function ShippedKinds(): seq<QuestionType>
  {
    [Likert, Likert, Likert, Likert, Likert, MultipleChoice, MultipleChoice,
     Likert, Likert, MultipleChoice, OpenEnded, OpenEnded, OpenEnded]
  }

  /** q1-q5, q8 and q9 are likert; q6, q7 and q10 multiple choice; q11-q13 open-ended. */
  lemma CatalogKindAt(wording: seq<string>, labels: seq<string>)
    ensures KindsOf(Catalog(wording, labels)) == ShippedKinds()
  {
  }

  lemma ShippedKindCounts()
    ensures CountKind(ShippedKinds(), Likert) == 7
    ensures CountKind(ShippedKinds(), MultipleChoice) == 3
    ensures CountKind(ShippedKinds(), OpenEnded) == 3
  {
    var ks := ShippedKinds();
    assert ks[..0] == [];
    CountKindStep(ks, 0); CountKindStep(ks, 1); CountKindStep(ks, 2); CountKindStep(ks, 3);
    CountKindStep(ks, 4); CountKindStep(ks, 5); CountKindStep(ks, 6); CountKindStep(ks, 7);
    CountKindStep(ks, 8); CountKindStep(ks, 9); CountKindStep(ks, 10); CountKindStep(ks, 11);
    CountKindStep(ks, 12);
    assert ks[..13] == ks;
  }

  /** The ids of the catalog are "q1" .. "q13", in order, and hence pairwise distinct. */
  lemma CatalogIds(wording: seq<string>, labels: seq<string>)
    ensures forall i :: 0 <= i < 13 ==> IdNumber(Catalog(wording, labels)[i].id) == i + 1
    ensures DistinctIds(Catalog(wording, labels))
  {
    var qs := Catalog(wording, labels);
    assert forall i :: 0 <= i < |qs| ==> IdNumber(qs[i].id) == i + 1;
  }

  /**
   * Exactly q6, q7 and q10 are multiple choice, they and only they carry
   * options, and each has exactly four.
   */
  lemma CatalogOptions(wording: seq<string>, labels: seq<string>)
    ensures forall i :: 0 <= i < 13 ==> WellFormed(Catalog(wording, labels)[i])
    ensures forall i :: 0 <= i < 13 ==> (Catalog(wording, labels)[i].kind == MultipleChoice <==> i in {5, 6, 9})
    ensures forall i :: 0 <= i < 13 && Catalog(wording, labels)[i].options.Some? ==> |Catalog(wording, labels)[i].options.value| == 4
  {
  }

  /** Seven likert questions, three multiple-choice and three open-ended; ten are scored. */
  lemma CatalogKinds(wording: seq<string>, labels: seq<string>)
    ensures CountKind(KindsOf(Catalog(wording, labels)), Likert) == 7
    ensures CountKind(KindsOf(Catalog(wording, labels)), MultipleChoice) == 3
    ensures CountKind(KindsOf(Catalog(wording, labels)), OpenEnded) == 3
    ensures CountScored(Catalog(wording, labels)) == 10
  {
    CatalogKindAt(wording, labels);
    ShippedKindCounts();
  }
}
