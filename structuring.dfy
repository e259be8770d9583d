/** The structuring step shared by both paths: per question, the total of
    its counters, its answers with their shares in tenths of a percent
    sorted by count (ties in counter order), the question type, and the
    cut of questions below the response threshold. */
module Structuring {
  import opened Collections
  import opened Strings
  import opened SurveyModel
  import opened LabelResolver
  import opened Aggregation

  /** `((count / total) * 100).toFixed(1)` in tenths of a percent, rounded
      half up; 0 when the total is 0. */
  function PercentTenths(count: nat, total: nat): nat {
    if total > 0 then (2000 * count + total) / (2 * total) else 0
  }

  /** The stored share is the exact share `1000 * count / total` rounded to
      the nearest tenth: at most half a tenth below and less than half a
      tenth above, i.e. `|total * p - 1000 * count| <= total / 2`. */
  lemma PercentRounding(count: nat, total: nat)
    requires total > 0
    ensures var p := PercentTenths(count, total);
      -(total as int) < 2 * total * p - 2000 * count <= total
  {
    var n: int, d: int := 2000 * count + total, 2 * total;
    var p: int, r: int := n / d, n % d;
    assert d * p + r == n && 0 <= r < d;
    assert 2 * total * p == d * p;
  }

  /** A count no larger than the total never shows more than 100.0%. */
  lemma PercentAtMostHundred(count: nat, total: nat)
    requires count <= total
    ensures PercentTenths(count, total) <= 1000
  {
    if total > 0 {
      PercentRounding(count, total);
      var p := PercentTenths(count, total);
      assert (2001 - 2 * p) * total >= 0;
      NonNegFactor(2001 - 2 * p, total);
    }
  }

  lemma NonNegFactor(a: int, t: int)
    requires t > 0 && a * t >= 0
    ensures a >= 0
  {
  }

  /** The display label of an answer key: `label || 'Unknown Answer'`. */
  function DisplayLabel(key: string): (d: string)
    ensures d != ""
    ensures key != "" ==> d == key
  {
    if key != "" then key else "Unknown Answer"
  }

  /** `Object.entries(answersObj).map(...)`: one answer per counter, in
      counter order. */
  function AnswerList(counts: Counts, total: nat): (answers: seq<AggregatedAnswer>)
    ensures |answers| == |counts|
    ensures forall i :: 0 <= i < |counts| ==> answers[i].count == counts[i].1 && answers[i].answerLabel != ""
  {
    if counts == [] then []
    else [AggregatedAnswer(DisplayLabel(counts[0].0), counts[0].1, PercentTenths(counts[0].1, total))]
         + AnswerList(counts[1..], total)
  }

  function ByCount(a: AggregatedAnswer): int {
    a.count
  }

  function Count(a: AggregatedAnswer): int {
    a.count
  }

  function Percent(a: AggregatedAnswer): int {
    a.percentTenths
  }

  /** `.sort((a, b) => b.count - a.count)`, stable. */
  function SortedAnswers(counts: Counts): seq<AggregatedAnswer> {
    SortDesc(AnswerList(counts, SumCounts(counts)), ByCount)
  }

  /** The answer counts add up to the counters' sum. */
  lemma {:induction false} AnswerListSum(counts: Counts, total: nat)
    ensures SumBy(AnswerList(counts, total), Count) == SumCounts(counts)
  {
    if counts != [] {
      AnswerListSum(counts[1..], total);
      var head := [AggregatedAnswer(DisplayLabel(counts[0].0), counts[0].1, PercentTenths(counts[0].1, total))];
      SumByAppend(head, AnswerList(counts[1..], total), Count);
      assert SumBy(head, Count) == counts[0].1;
    }
  }

  /** Each displayed share is within half a tenth of the exact one, so the
      shares of a question with `n` answers add up to 100.0% within `n / 2`
      tenths: with `total` the sum of the counts, `-n * total < 2 * total *
      (sum - 1000) <= n * total`. */
  lemma {:induction false} PercentSum(counts: Counts, total: nat)
    requires total > 0 && counts != []
    ensures -(|counts| * total) < 2 * total * SumBy(AnswerList(counts, total), Percent) - 2000 * SumCounts(counts)
    ensures 2 * total * SumBy(AnswerList(counts, total), Percent) - 2000 * SumCounts(counts) <= |counts| * total
    decreases |counts|
  {
    var rest := counts[1..];
    var p := PercentTenths(counts[0].1, total);
    PercentRounding(counts[0].1, total);
    var head := [AggregatedAnswer(DisplayLabel(counts[0].0), counts[0].1, p)];
    SumByAppend(head, AnswerList(rest, total), Percent);
    var s' := SumBy(AnswerList(rest, total), Percent);
    assert SumBy(AnswerList(counts, total), Percent) == p + s';
    assert 2 * total * (p + s') == 2 * total * p + 2 * total * s';
    if rest == [] {
      assert s' == 0;
    } else {
      PercentSum(rest, total);
      assert |counts| * total == total + |rest| * total;
    }
  }

  /** The answers of one question are sorted by count, are exactly the
      counters (as a multiset), keep counter order among equal counts and
      add up to the counters' sum. */
  lemma SortedAnswersFacts(counts: Counts, c: int)
    ensures var answers := SortedAnswers(counts);
      && SortedDesc(answers, ByCount)
      && multiset(answers) == multiset(AnswerList(counts, SumCounts(counts)))
      && WithKey(answers, ByCount, c) == WithKey(AnswerList(counts, SumCounts(counts)), ByCount, c)
      && SumBy(answers, Count) == SumCounts(counts)
  {
    var list := AnswerList(counts, SumCounts(counts));
    SortDescSorted(list, ByCount);
    SortDescStable(list, ByCount, c);
    SortDescSum(list, ByCount, Count);
    AnswerListSum(counts, SumCounts(counts));
  }

  // ----- the question type -----

  /** The resolver entry matches a question text by its text or by its
      `Question n` name. */
  predicate Matches(info: QuestionInfo, text: string) {
    info.text == text || QuestionLabel(info.number) == text
  }

  /** `Object.keys(questionMapping).find(...)` as an index. */
  function FindIndex(mapping: QuestionMapping, text: string): (r: Option<nat>)
    ensures r.Some? ==> r.value < |mapping| && Matches(mapping[r.value].1, text)
    ensures r.Some? ==> forall j :: 0 <= j < r.value ==> !Matches(mapping[j].1, text)
    ensures r.None? ==> forall j :: 0 <= j < |mapping| ==> !Matches(mapping[j].1, text)
  {
    if mapping == [] then None
    else if Matches(mapping[0].1, text) then Some(0)
    else match FindIndex(mapping[1..], text)
      case None => None
      case Some(i) => Some(i + 1)
  }

  /** The id of the first matching entry. */
  function FindQuestionId(mapping: QuestionMapping, text: string): Option<string> {
    match FindIndex(mapping, text)
    case None => None
    case Some(i) => Some(mapping[i].0)
  }

  /** `questionId ? questionTypes[questionId] : 'single_choice'`; `None`
      when the id was found but no response question carried it. */
  function PrimaryType(mapping: QuestionMapping, questionTypes: map<string, string>, text: string): Option<string> {
    match FindQuestionId(mapping, text)
    case Some(id) =>
      if id == "" then Some(DefaultFamily)
      else if id in questionTypes then Some(questionTypes[id])
      else None
    case None => Some(DefaultFamily)
  }

  /** The type is the default when no entry matches, and the recorded type
      of the first matching (non-empty) id otherwise. */
  lemma PrimaryTypeCases(mapping: QuestionMapping, questionTypes: map<string, string>, text: string)
    ensures (forall j :: 0 <= j < |mapping| ==> !Matches(mapping[j].1, text))
            ==> PrimaryType(mapping, questionTypes, text) == Some(DefaultFamily)
    ensures forall i ::
      (0 <= i < |mapping| && Matches(mapping[i].1, text) && mapping[i].0 != "" && mapping[i].0 in questionTypes
       && (forall j :: 0 <= j < i ==> !Matches(mapping[j].1, text)))
      ==> PrimaryType(mapping, questionTypes, text) == Some(questionTypes[mapping[i].0])
  {
    forall i | 0 <= i < |mapping| && Matches(mapping[i].1, text) && mapping[i].0 != ""
               && mapping[i].0 in questionTypes
               && (forall j :: 0 <= j < i ==> !Matches(mapping[j].1, text))
      ensures PrimaryType(mapping, questionTypes, text) == Some(questionTypes[mapping[i].0])
    {
      var r := FindIndex(mapping, text);
      assert r.Some? && r.value == i;
    }
  }

  // ----- whole result -----

  /** One question of the result. */
  function StructureQuestion(text: string, counts: Counts, questionType: Option<string>): (q: AggregatedQuestion)
    ensures q.totalResponses == SumCounts(counts)
    ensures q.question != "" && (text != "" ==> q.question == text)
  {
    AggregatedQuestion(if text != "" then text else "Untitled Question", SortedAnswers(counts), SumCounts(counts), questionType)
  }

  /** `Object.entries(questionMap).map(...)` on the primary path, in
      first-seen order. */
  function StructureAll(questionMap: QuestionMap, mapping: QuestionMapping, questionTypes: map<string, string>): (r: seq<AggregatedQuestion>)
    ensures |r| == |questionMap|
    ensures forall i :: 0 <= i < |questionMap| ==>
      r[i] == StructureQuestion(questionMap[i].0, questionMap[i].1, PrimaryType(mapping, questionTypes, questionMap[i].0))
  {
    if questionMap == [] then []
    else [StructureQuestion(questionMap[0].0, questionMap[0].1, PrimaryType(mapping, questionTypes, questionMap[0].0))]
         + StructureAll(questionMap[1..], mapping, questionTypes)
  }

  predicate MeetsThreshold(q: AggregatedQuestion, threshold: nat) {
    q.totalResponses >= threshold
  }

  /** `.filter(q => q.totalResponses >= responseThreshold)`. */
  function Cut(questions: seq<AggregatedQuestion>, threshold: nat): seq<AggregatedQuestion> {
    Filter(questions, q => MeetsThreshold(q, threshold))
  }

  function StructurePrimary(questionMap: QuestionMap, mapping: QuestionMapping, questionTypes: map<string, string>, threshold: nat): seq<AggregatedQuestion> {
    Cut(StructureAll(questionMap, mapping, questionTypes), threshold)
  }

  /** A question survives the cut exactly when its total reaches the
      threshold; survivors keep their order. */
  lemma CutMembers(questions: seq<AggregatedQuestion>, threshold: nat, q: AggregatedQuestion)
    ensures q in Cut(questions, threshold) <==> q in questions && q.totalResponses >= threshold
  {
    FilterMembers(questions, x => MeetsThreshold(x, threshold), q);
  }

  lemma CutOrder(a: seq<AggregatedQuestion>, b: seq<AggregatedQuestion>, threshold: nat)
    ensures Cut(a + b, threshold) == Cut(a, threshold) + Cut(b, threshold)
  {
    FilterAppend(a, b, x => MeetsThreshold(x, threshold));
  }

  /** Raising the threshold only removes questions. */
  lemma CutMonotone(questions: seq<AggregatedQuestion>, low: nat, high: nat)
    requires low <= high
    ensures Cut(questions, high) == Cut(Cut(questions, low), high)
    ensures |Cut(questions, high)| <= |Cut(questions, low)|
  {
    FilterNarrow(questions, x => MeetsThreshold(x, low), x => MeetsThreshold(x, high));
  }

  /** A threshold of 0 keeps every question. */
  lemma CutZero(questions: seq<AggregatedQuestion>)
    ensures Cut(questions, 0) == questions
  {
    FilterIdentity(questions, x => MeetsThreshold(x, 0));
  }
}
