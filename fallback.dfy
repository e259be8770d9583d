/** The lower-fidelity fallback path of `fetchSurveyData`: without the
    survey structure, question texts come from each response question's own
    first heading, headless questions are numbered once per first-seen id,
    and answers get the narrower fallback label. */
module Fallback {
  import opened Collections
  import opened Strings
  import opened SurveyModel
  import opened AnswerLabels
  import opened LabelResolver
  import opened Aggregation
  import opened Structuring

  /** `questionMap[text]` of the fallback: `{ questionId, ...counts }`, the
      id of the question that created the entry and the label counters. */
  datatype Group = Group(questionId: string, counts: Counts)

  type GroupMap = seq<(string, Group)>

  /** The accumulators: `questionMap`, `questionTypes`, `seenQuestions`
      and `questionCounter`. */
  datatype FallbackTally = FallbackTally(questionMap: GroupMap, questionTypes: map<string, string>, seen: set<string>, counter: nat)

  /** `!questionText || questionText.trim() === ''` for the first heading. */
  predicate Headless(q: ResponseQuestion) {
    IsBlank(FirstHeading(q.headings))
  }

  /** The position of the first entry created by question id `id`. */
  function FindGroupIndex(questionMap: GroupMap, id: string): (r: Option<nat>)
    ensures r.Some? ==> r.value < |questionMap| && questionMap[r.value].1.questionId == id
    ensures r.Some? ==> forall j :: 0 <= j < r.value ==> questionMap[j].1.questionId != id
    ensures r.None? ==> forall j :: 0 <= j < |questionMap| ==> questionMap[j].1.questionId != id
  {
    if questionMap == [] then None
    else if questionMap[0].1.questionId == id then Some(0)
    else match FindGroupIndex(questionMap[1..], id)
      case None => None
      case Some(i) => Some(i + 1)
  }

  /** The display text of a response question on the fallback path. */
  function FallbackText(t: FallbackTally, q: ResponseQuestion): string {
    if !Headless(q) then FirstHeading(q.headings)
    else if q.id !in t.seen then QuestionLabel(t.counter)
    else match FindGroupIndex(t.questionMap, q.id)
      case Some(i) => if t.questionMap[i].0 != "" then t.questionMap[i].0 else QuestionLabel(t.counter)
      case None => QuestionLabel(t.counter)
  }

  /** The counts after the answers `answers`, by the fallback label. */
  function FallbackCounts(counts: Counts, answers: seq<Answer>): Counts {
    if answers == [] then counts
    else Increment(FallbackCounts(counts, answers[..|answers| - 1]), FallbackLabel(answers[|answers| - 1]))
  }

  /** The group stored under `text`, or a new one for question `id`. */
  function GroupUnder(questionMap: GroupMap, text: string, id: string): Group {
    match Get(questionMap, text)
    case Some(g) => g
    case None => Group(id, [])
  }

  /** One response question on the fallback path. */
  function FallbackStep(t: FallbackTally, q: ResponseQuestion): FallbackTally {
    var text := FallbackText(t, q);
    var isNew := Headless(q) && q.id !in t.seen;
    var g := GroupUnder(t.questionMap, text, q.id);
    FallbackTally(
      Put(t.questionMap, text, Group(g.questionId, FallbackCounts(g.counts, q.answers))),
      t.questionTypes[q.id := FamilyOrDefault(q.family)],
      if isNew then t.seen + {q.id} else t.seen,
      if isNew then t.counter + 1 else t.counter)
  }

  /** The accumulators after visiting the response questions `qs`; the
      counter starts at 1. */
  function FallbackTallyOf(qs: seq<ResponseQuestion>): FallbackTally {
    if qs == [] then FallbackTally([], map[], {}, 1)
    else FallbackStep(FallbackTallyOf(qs[..|qs| - 1]), qs[|qs| - 1])
  }

  lemma FallbackTallyOfSnoc(qs: seq<ResponseQuestion>, q: ResponseQuestion)
    ensures FallbackTallyOf(qs + [q]) == FallbackStep(FallbackTallyOf(qs), q)
  {
    assert (qs + [q])[..|qs|] == qs;
  }

  // ----- the loops -----

  /** The loop over responses of the fallback path. */
  method TallyFallback(responses: seq<Response>) returns (t: FallbackTally)
    ensures t == FallbackTallyOf(ResponseQuestions(responses))
  {
    t := FallbackTally([], map[], {}, 1);
    var i := 0;
    while i < |responses|
      invariant 0 <= i <= |responses|
      invariant t == FallbackTallyOf(ResponseQuestions(responses[..i]))
    {
      assert responses[..i + 1][..i] == responses[..i];
      t := TallyFallbackResponse(t, ResponseQuestions(responses[..i]), responses[i]);
      i := i + 1;
    }
    assert responses[..i] == responses;
  }

  /** The loop over the pages of one response. */
  method TallyFallbackResponse(t: FallbackTally, ghost visited: seq<ResponseQuestion>, response: Response)
    returns (t': FallbackTally)
    requires t == FallbackTallyOf(visited)
    ensures t' == FallbackTallyOf(visited + PageQuestions(response.pages))
  {
    t' := t;
    var pages := response.pages;
    var j := 0;
    assert visited + PageQuestions(pages[..0]) == visited;
    while j < |pages|
      invariant 0 <= j <= |pages|
      invariant t' == FallbackTallyOf(visited + PageQuestions(pages[..j]))
    {
      ghost var prev := visited + PageQuestions(pages[..j]);
      assert visited + PageQuestions(pages[..j + 1]) == prev + pages[j].questions by {
        assert pages[..j + 1][..j] == pages[..j];
        assert PageQuestions(pages[..j + 1]) == PageQuestions(pages[..j]) + pages[j].questions;
        ConcatAssoc(visited, PageQuestions(pages[..j]), pages[j].questions);
      }
      t' := TallyFallbackPage(t', prev, pages[j]);
      j := j + 1;
    }
    assert pages[..j] == pages;
  }

  /** The loop over the questions of one page, with `seenQuestions` and
      `questionCounter` updated in place. */
  method TallyFallbackPage(t: FallbackTally, ghost visited: seq<ResponseQuestion>, page: ResponsePage)
    returns (t': FallbackTally)
    requires t == FallbackTallyOf(visited)
    ensures t' == FallbackTallyOf(visited + page.questions)
  {
    var questionMap, questionTypes, seenQuestions, questionCounter := t.questionMap, t.questionTypes, t.seen, t.counter;
    var questions := page.questions;
    var k := 0;
    assert visited + questions[..0] == visited;
    while k < |questions|
      invariant 0 <= k <= |questions|
      invariant FallbackTally(questionMap, questionTypes, seenQuestions, questionCounter)
             == FallbackTallyOf(visited + questions[..k])
    {
      var q := questions[k];
      PrefixSnoc(visited, questions, k);
      FallbackTallyOfSnoc(visited + questions[..k], q);
      var questionText := FallbackText(FallbackTally(questionMap, questionTypes, seenQuestions, questionCounter), q);
      if Headless(q) && q.id !in seenQuestions {
        seenQuestions := seenQuestions + {q.id};
        questionCounter := questionCounter + 1;
      }
      questionTypes := questionTypes[q.id := FamilyOrDefault(q.family)];
      var g := GroupUnder(questionMap, questionText, q.id);
      var counts := CountFallbackInto(g.counts, q.answers);
      questionMap := Put(questionMap, questionText, Group(g.questionId, counts));
      k := k + 1;
    }
    assert questions[..k] == questions;
    t' := FallbackTally(questionMap, questionTypes, seenQuestions, questionCounter);
  }

  /** The loop over the answers of one question. */
  method CountFallbackInto(counts: Counts, answers: seq<Answer>) returns (counts': Counts)
    ensures counts' == FallbackCounts(counts, answers)
  {
    counts' := counts;
    var m := 0;
    while m < |answers|
      invariant 0 <= m <= |answers|
      invariant counts' == FallbackCounts(counts, answers[..m])
    {
      assert answers[..m + 1][..m] == answers[..m];
      counts' := Increment(counts', FallbackLabel(answers[m]));
      m := m + 1;
    }
    assert answers[..m] == answers;
  }

  // ----- properties -----

  /** The ids of the headless questions among `qs`. */
  function HeadlessIds(qs: seq<ResponseQuestion>): set<string> {
    if qs == [] then {}
    else HeadlessIds(qs[..|qs| - 1]) + if Headless(qs[|qs| - 1]) then {qs[|qs| - 1].id} else {}
  }

  /** `seenQuestions` holds exactly the ids of the headless questions seen
      so far, and the counter is one more than their number: only headless
      questions consume numbers, once per distinct id. */
  lemma {:induction false} SeenAndCounter(qs: seq<ResponseQuestion>)
    ensures FallbackTallyOf(qs).seen == HeadlessIds(qs)
    ensures FallbackTallyOf(qs).counter == |HeadlessIds(qs)| + 1
  {
    if qs != [] {
      SeenAndCounter(qs[..|qs| - 1]);
    }
  }

  /** A question with a heading is shown under that heading. */
  lemma HeadedText(t: FallbackTally, q: ResponseQuestion)
    requires !Headless(q)
    ensures FallbackText(t, q) == FirstHeading(q.headings)
  {
  }

  /** The first headless question with a new id is named after the number
      of distinct headless ids seen before it, plus one. */
  lemma FirstSeenName(qs: seq<ResponseQuestion>, q: ResponseQuestion)
    requires Headless(q) && q.id !in HeadlessIds(qs)
    ensures FallbackText(FallbackTallyOf(qs), q) == QuestionLabel(|HeadlessIds(qs)| + 1)
  {
    SeenAndCounter(qs);
  }

  /** A later headless question with a seen id joins the entry that id
      created first. */
  lemma SeenIdRejoins(t: FallbackTally, q: ResponseQuestion, i: nat)
    requires Headless(q) && q.id in t.seen
    requires i < |t.questionMap| && t.questionMap[i].1.questionId == q.id && t.questionMap[i].0 != ""
    requires forall j :: 0 <= j < i ==> t.questionMap[j].1.questionId != q.id
    ensures FallbackText(t, q) == t.questionMap[i].0
  {
    var r := FindGroupIndex(t.questionMap, q.id);
    assert r.Some? && r.value == i;
  }

  /** One step: the text's entry keeps the id that created it, or is created
      for this question's id, and its counters advance by the answers. */
  lemma FallbackStepEffect(t: FallbackTally, q: ResponseQuestion, x: string)
    ensures var text := FallbackText(t, q);
      var t' := FallbackStep(t, q);
      && Keys(t'.questionMap) == (if text in Keys(t.questionMap) then Keys(t.questionMap) else Keys(t.questionMap) + [text])
      && Get(t'.questionMap, x)
         == if x == text
            then Some(Group(GroupUnder(t.questionMap, text, q.id).questionId,
                            FallbackCounts(GroupUnder(t.questionMap, text, q.id).counts, q.answers)))
            else Get(t.questionMap, x)
  {
    var text := FallbackText(t, q);
    var g := GroupUnder(t.questionMap, text, q.id);
    var v := Group(g.questionId, FallbackCounts(g.counts, q.answers));
    PutKeys(t.questionMap, text, v);
    PutGet(t.questionMap, text, v, x);
  }

  /** Each answer adds exactly one to the sum of its question's counters. */
  lemma {:induction false} FallbackCountsSum(counts: Counts, answers: seq<Answer>)
    ensures SumCounts(FallbackCounts(counts, answers)) == SumCounts(counts) + |answers|
  {
    if answers != [] {
      var init := answers[..|answers| - 1];
      FallbackCountsSum(counts, init);
      SumCountsIncrement(FallbackCounts(counts, init), FallbackLabel(answers[|answers| - 1]));
    }
  }

  // ----- structuring -----

  /** `questionTypes[questionId] || 'single_choice'`. */
  function FallbackType(questionTypes: map<string, string>, id: string): (f: string)
    ensures f != ""
  {
    if id in questionTypes && questionTypes[id] != "" then questionTypes[id] else DefaultFamily
  }

  /** `Object.entries(questionMap).map(...)` of the fallback path; the
      `questionId` field is set aside before counting. */
  function StructureAllFallback(questionMap: GroupMap, questionTypes: map<string, string>): (r: seq<AggregatedQuestion>)
    ensures |r| == |questionMap|
    ensures forall i :: 0 <= i < |questionMap| ==>
      r[i] == StructureQuestion(questionMap[i].0, questionMap[i].1.counts,
                                Some(FallbackType(questionTypes, questionMap[i].1.questionId)))
  {
    if questionMap == [] then []
    else [StructureQuestion(questionMap[0].0, questionMap[0].1.counts, Some(FallbackType(questionTypes, questionMap[0].1.questionId)))]
         + StructureAllFallback(questionMap[1..], questionTypes)
  }

  function StructureFallback(questionMap: GroupMap, questionTypes: map<string, string>, threshold: nat): seq<AggregatedQuestion> {
    Cut(StructureAllFallback(questionMap, questionTypes), threshold)
  }

  /** Every fallback question has a type, never `undefined`. */
  lemma FallbackTypesPresent(questionMap: GroupMap, questionTypes: map<string, string>, threshold: nat, q: AggregatedQuestion)
    requires q in StructureFallback(questionMap, questionTypes, threshold)
    ensures q.questionType.Some? && q.questionType.value != ""
  {
    CutMembers(StructureAllFallback(questionMap, questionTypes), threshold, q);
  }
}
