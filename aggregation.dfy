/** The counting pass of the primary path: every answer of every question
    of every (time-filtered) response increments one counter, keyed first
    by the question's display text and then by the answer's label; the
    answer family of each question id is recorded on the way. */
module Aggregation {
  import opened Collections
  import opened Strings
  import opened SurveyModel
  import opened AnswerLabels
  import opened LabelResolver

  /** One question's `{label: count}` object. */
  type Counts = seq<(string, nat)>

  /** `questionMap`: display text to that question's counts. */
  type QuestionMap = seq<(string, Counts)>

  /** The two accumulators, `questionMap` and `questionTypes`. */
  datatype Tally = Tally(questionMap: QuestionMap, questionTypes: map<string, string>)

  /** The questions of a list of response pages, in visiting order. */
  function PageQuestions(pages: seq<ResponsePage>): seq<ResponseQuestion> {
    if pages == [] then [] else PageQuestions(pages[..|pages| - 1]) + pages[|pages| - 1].questions
  }

  /** The questions of all responses, in the order of the nested `forEach`. */
  function ResponseQuestions(responses: seq<Response>): seq<ResponseQuestion> {
    if responses == [] then []
    else ResponseQuestions(responses[..|responses| - 1]) + PageQuestions(responses[|responses| - 1].pages)
  }

  /** The counts stored under `text`, or the empty object. */
  function CountsUnder(questionMap: QuestionMap, text: string): Counts {
    match Get(questionMap, text)
    case Some(c) => c
    case None => []
  }

  /** The display text of a response question: the resolver's text for a
      known id, else `Question n` with `n` one more than the number of
      texts seen so far. */
  function QuestionTextFor(mapping: QuestionMapping, id: string, questionMap: QuestionMap): string {
    match Get(mapping, id)
    case Some(info) => info.text
    case None => QuestionLabel(|questionMap| + 1)
  }

  /** `questionInfo?.family || q.family || 'single_choice'`. */
  function QuestionTypeFor(mapping: QuestionMapping, q: ResponseQuestion): string {
    match Get(mapping, q.id)
    case Some(info) => if info.family != "" then info.family else FamilyOrDefault(q.family)
    case None => FamilyOrDefault(q.family)
  }

  /** The counts after the answers `answers`, each incrementing its label. */
  function CountAnswers(counts: Counts, answers: seq<Answer>, choiceMapping: map<string, string>): Counts {
    if answers == [] then counts
    else Increment(CountAnswers(counts, answers[..|answers| - 1], choiceMapping),
                   PrimaryLabel(answers[|answers| - 1], choiceMapping))
  }

  /** The number of answers with label `l`. */
  function Occurrences(answers: seq<Answer>, choiceMapping: map<string, string>, l: string): nat {
    if answers == [] then 0
    else
      var here := if PrimaryLabel(answers[|answers| - 1], choiceMapping) == l then 1 else 0;
      Occurrences(answers[..|answers| - 1], choiceMapping, l) + here
  }

  /** One response question: resolve its text, record its type, make sure
      its text has an entry, and count its answers there. */
  function StepQuestion(t: Tally, q: ResponseQuestion, mapping: QuestionMapping, choiceMapping: map<string, string>): Tally {
    var text := QuestionTextFor(mapping, q.id, t.questionMap);
    var counts := CountsUnder(t.questionMap, text);
    Tally(Put(t.questionMap, text, CountAnswers(counts, q.answers, choiceMapping)),
          t.questionTypes[q.id := QuestionTypeFor(mapping, q)])
  }

  /** The accumulators after visiting the response questions `qs`. */
  function TallyOf(qs: seq<ResponseQuestion>, mapping: QuestionMapping, choiceMapping: map<string, string>): Tally {
    if qs == [] then Tally([], map[])
    else StepQuestion(TallyOf(qs[..|qs| - 1], mapping, choiceMapping), qs[|qs| - 1], mapping, choiceMapping)
  }

  lemma TallyOfSnoc(qs: seq<ResponseQuestion>, q: ResponseQuestion, mapping: QuestionMapping, choiceMapping: map<string, string>)
    ensures TallyOf(qs + [q], mapping, choiceMapping) == StepQuestion(TallyOf(qs, mapping, choiceMapping), q, mapping, choiceMapping)
  {
    assert (qs + [q])[..|qs|] == qs;
  }

  // ----- the loops -----

  /** The loop over responses. */
  method TallyResponses(responses: seq<Response>, mapping: QuestionMapping, choiceMapping: map<string, string>)
    returns (questionMap: QuestionMap, questionTypes: map<string, string>)
    ensures Tally(questionMap, questionTypes) == TallyOf(ResponseQuestions(responses), mapping, choiceMapping)
  {
    var t := Tally([], map[]);
    var i := 0;
    while i < |responses|
      invariant 0 <= i <= |responses|
      invariant t == TallyOf(ResponseQuestions(responses[..i]), mapping, choiceMapping)
    {
      assert responses[..i + 1][..i] == responses[..i];
      t := TallyResponse(t, ResponseQuestions(responses[..i]), responses[i], mapping, choiceMapping);
      i := i + 1;
    }
    assert responses[..i] == responses;
    questionMap, questionTypes := t.questionMap, t.questionTypes;
  }

  /** The loop over the pages of one response. */
  method TallyResponse(t: Tally, ghost visited: seq<ResponseQuestion>, response: Response,
                       mapping: QuestionMapping, choiceMapping: map<string, string>)
    returns (t': Tally)
    requires t == TallyOf(visited, mapping, choiceMapping)
    ensures t' == TallyOf(visited + PageQuestions(response.pages), mapping, choiceMapping)
  {
    t' := t;
    var pages := response.pages;
    var j := 0;
    assert visited + PageQuestions(pages[..0]) == visited;
    while j < |pages|
      invariant 0 <= j <= |pages|
      invariant t' == TallyOf(visited + PageQuestions(pages[..j]), mapping, choiceMapping)
    {
      ghost var prev := visited + PageQuestions(pages[..j]);
      assert visited + PageQuestions(pages[..j + 1]) == prev + pages[j].questions by {
        assert pages[..j + 1][..j] == pages[..j];
        assert PageQuestions(pages[..j + 1]) == PageQuestions(pages[..j]) + pages[j].questions;
        ConcatAssoc(visited, PageQuestions(pages[..j]), pages[j].questions);
      }
      t' := TallyPage(t', prev, pages[j], mapping, choiceMapping);
      j := j + 1;
    }
    assert pages[..j] == pages;
  }

  /** The loop over the questions of one response page. */
  method TallyPage(t: Tally, ghost visited: seq<ResponseQuestion>, page: ResponsePage,
                   mapping: QuestionMapping, choiceMapping: map<string, string>)
    returns (t': Tally)
    requires t == TallyOf(visited, mapping, choiceMapping)
    ensures t' == TallyOf(visited + page.questions, mapping, choiceMapping)
  {
    t' := t;
    var questions := page.questions;
    var k := 0;
    assert visited + questions[..0] == visited;
    while k < |questions|
      invariant 0 <= k <= |questions|
      invariant t' == TallyOf(visited + questions[..k], mapping, choiceMapping)
    {
      var q := questions[k];
      PrefixSnoc(visited, questions, k);
      TallyOfSnoc(visited + questions[..k], q, mapping, choiceMapping);
      var text := QuestionTextFor(mapping, q.id, t'.questionMap);
      var counts := CountsUnder(t'.questionMap, text);
      counts := CountInto(counts, q.answers, choiceMapping);
      t' := Tally(Put(t'.questionMap, text, counts), t'.questionTypes[q.id := QuestionTypeFor(mapping, q)]);
      k := k + 1;
    }
    assert questions[..k] == questions;
  }

  /** The loop over the answers of one question. */
  method CountInto(counts: Counts, answers: seq<Answer>, choiceMapping: map<string, string>) returns (counts': Counts)
    ensures counts' == CountAnswers(counts, answers, choiceMapping)
  {
    counts' := counts;
    var m := 0;
    while m < |answers|
      invariant 0 <= m <= |answers|
      invariant counts' == CountAnswers(counts, answers[..m], choiceMapping)
    {
      assert answers[..m + 1][..m] == answers[..m];
      counts' := Increment(counts', PrimaryLabel(answers[m], choiceMapping));
      m := m + 1;
    }
    assert answers[..m] == answers;
  }

  // ----- properties -----

  /** Counting the answers of a question adds to each label's counter
      exactly the number of answers with that label. */
  lemma {:induction false} CountAnswersCounts(counts: Counts, answers: seq<Answer>, choiceMapping: map<string, string>, l: string)
    ensures CountOf(CountAnswers(counts, answers, choiceMapping), l) == CountOf(counts, l) + Occurrences(answers, choiceMapping, l)
  {
    if answers != [] {
      var init := answers[..|answers| - 1];
      CountAnswersCounts(counts, init, choiceMapping, l);
      IncrementCounts(CountAnswers(counts, init, choiceMapping), PrimaryLabel(answers[|answers| - 1], choiceMapping), l);
    }
  }

  /** Each answer adds exactly one to the sum of the counters. */
  lemma {:induction false} CountAnswersSum(counts: Counts, answers: seq<Answer>, choiceMapping: map<string, string>)
    ensures SumCounts(CountAnswers(counts, answers, choiceMapping)) == SumCounts(counts) + |answers|
  {
    if answers != [] {
      var init := answers[..|answers| - 1];
      CountAnswersSum(counts, init, choiceMapping);
      SumCountsIncrement(CountAnswers(counts, init, choiceMapping), PrimaryLabel(answers[|answers| - 1], choiceMapping));
    }
  }

  /** One question step: its text gets an entry (appended when new), its
      answers are counted under that text, and every other text keeps its
      counts. */
  lemma StepQuestionEffect(t: Tally, q: ResponseQuestion, mapping: QuestionMapping, choiceMapping: map<string, string>, x: string)
    ensures var text := QuestionTextFor(mapping, q.id, t.questionMap);
      var t' := StepQuestion(t, q, mapping, choiceMapping);
      && Keys(t'.questionMap) == (if text in Keys(t.questionMap) then Keys(t.questionMap) else Keys(t.questionMap) + [text])
      && CountsUnder(t'.questionMap, x)
         == if x == text then CountAnswers(CountsUnder(t.questionMap, text), q.answers, choiceMapping) else CountsUnder(t.questionMap, x)
  {
    var text := QuestionTextFor(mapping, q.id, t.questionMap);
    var v := CountAnswers(CountsUnder(t.questionMap, text), q.answers, choiceMapping);
    PutKeys(t.questionMap, text, v);
    PutGet(t.questionMap, text, v, x);
  }

  /** So across one step, label `l` of text `x` goes up by the number of
      the question's answers with that label when `x` is the question's
      text, and by nothing otherwise. */
  lemma StepQuestionCounts(t: Tally, q: ResponseQuestion, mapping: QuestionMapping, choiceMapping: map<string, string>, x: string, l: string)
    ensures CountOf(CountsUnder(StepQuestion(t, q, mapping, choiceMapping).questionMap, x), l)
         == CountOf(CountsUnder(t.questionMap, x), l)
            + if x == QuestionTextFor(mapping, q.id, t.questionMap) then Occurrences(q.answers, choiceMapping, l) else 0
  {
    StepQuestionEffect(t, q, mapping, choiceMapping, x);
    CountAnswersCounts(CountsUnder(t.questionMap, x), q.answers, choiceMapping, l);
  }

  /** Question texts are stored once each, so `|questionMap|` is the number
      of distinct texts seen so far. */
  lemma {:induction false} TallyKeysDistinct(qs: seq<ResponseQuestion>, mapping: QuestionMapping, choiceMapping: map<string, string>)
    ensures Distinct(Keys(TallyOf(qs, mapping, choiceMapping).questionMap))
  {
    if qs != [] {
      var t := TallyOf(qs[..|qs| - 1], mapping, choiceMapping);
      TallyKeysDistinct(qs[..|qs| - 1], mapping, choiceMapping);
      var q := qs[|qs| - 1];
      var text := QuestionTextFor(mapping, q.id, t.questionMap);
      PutKeepsDistinct(t.questionMap, text, CountAnswers(CountsUnder(t.questionMap, text), q.answers, choiceMapping));
    }
  }

  /** A question whose id the resolver does not know is named after the
      number of distinct texts seen before it, plus one. */
  lemma UnknownIdName(qs: seq<ResponseQuestion>, q: ResponseQuestion, mapping: QuestionMapping, choiceMapping: map<string, string>)
    requires Get(mapping, q.id).None?
    ensures var qm := TallyOf(qs, mapping, choiceMapping).questionMap;
      Distinct(Keys(qm)) && QuestionTextFor(mapping, q.id, qm) == QuestionLabel(|Keys(qm)| + 1)
  {
    TallyKeysDistinct(qs, mapping, choiceMapping);
  }

  /** The sum of all counters of all questions. */
  function GrandTotal(questionMap: QuestionMap): nat {
    if questionMap == [] then 0 else SumCounts(questionMap[0].1) + GrandTotal(questionMap[1..])
  }

  /** Replacing the first entry of a key changes the grand total by the
      difference of the two sums of counts. */
  lemma {:induction false} GrandTotalPut(questionMap: QuestionMap, text: string, counts: Counts)
    ensures GrandTotal(Put(questionMap, text, counts)) + SumCounts(CountsUnder(questionMap, text))
         == GrandTotal(questionMap) + SumCounts(counts)
  {
    if questionMap != [] && questionMap[0].0 != text {
      GrandTotalPut(questionMap[1..], text, counts);
      var rest := Put(questionMap[1..], text, counts);
      assert ([questionMap[0]] + rest)[1..] == rest;
    } else if questionMap != [] {
      assert ([(text, counts)] + questionMap[1..])[1..] == questionMap[1..];
    }
  }

  /** The number of answers of the questions `qs`. */
  function AnswerCount(qs: seq<ResponseQuestion>): nat {
    if qs == [] then 0 else AnswerCount(qs[..|qs| - 1]) + |qs[|qs| - 1].answers|
  }

  /** Every answer is counted exactly once: the counters of all questions
      add up to the number of answers visited. */
  lemma {:induction false} TallyTotal(qs: seq<ResponseQuestion>, mapping: QuestionMapping, choiceMapping: map<string, string>)
    ensures GrandTotal(TallyOf(qs, mapping, choiceMapping).questionMap) == AnswerCount(qs)
  {
    if qs != [] {
      var init := qs[..|qs| - 1];
      TallyTotal(init, mapping, choiceMapping);
      var t := TallyOf(init, mapping, choiceMapping);
      var q := qs[|qs| - 1];
      var text := QuestionTextFor(mapping, q.id, t.questionMap);
      var before := CountsUnder(t.questionMap, text);
      CountAnswersSum(before, q.answers, choiceMapping);
      GrandTotalPut(t.questionMap, text, CountAnswers(before, q.answers, choiceMapping));
    }
  }

  /** `questionTypes[id]` holds the type written by the last question
      visited with that id. */
  lemma {:induction false} TypeLastWrite(qs: seq<ResponseQuestion>, j: nat, mapping: QuestionMapping, choiceMapping: map<string, string>)
    requires j < |qs|
    requires forall j' :: j < j' < |qs| ==> qs[j'].id != qs[j].id
    ensures var types := TallyOf(qs, mapping, choiceMapping).questionTypes;
      qs[j].id in types && types[qs[j].id] == QuestionTypeFor(mapping, qs[j])
  {
    if j < |qs| - 1 {
      var init := qs[..|qs| - 1];
      assert init[j] == qs[j];
      TypeLastWrite(init, j, mapping, choiceMapping);
    }
  }
}
