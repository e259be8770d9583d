/** The label resolver of the primary path: one pass over the survey
    structure that numbers every question, records its display text and
    answer family under its id, and records the text of every choice
    under the choice's id. */
module LabelResolver {
  import opened Collections
  import opened Strings
  import opened SurveyModel

  /** `questionMapping[id]`: display text, running number, answer family. */
  datatype QuestionInfo = QuestionInfo(text: string, number: nat, family: string)

  /** An insertion-ordered `questionMapping` object. */
  type QuestionMapping = seq<(string, QuestionInfo)>

  /** `Question ${n}`. */
  function QuestionLabel(n: nat): string {
    "Question " + NatToString(n)
  }

  /** The entry of a question numbered `n`: its first heading when that is
      non-empty, else `Question n`; its family or the default. */
  function InfoFor(q: Question, n: nat): (info: QuestionInfo)
    ensures info.text != "" && info.family != "" && info.number == n
    ensures FirstHeading(q.headings) != "" ==> info.text == FirstHeading(q.headings)
    ensures FirstHeading(q.headings) == "" ==> info.text == QuestionLabel(n)
  {
    var h := FirstHeading(q.headings);
    QuestionInfo(if h != "" then h else QuestionLabel(n), n, FamilyOrDefault(q.family))
  }

  /** The questions of all pages, page by page, in the order the nested
      `forEach` visits them. */
  function QuestionsOf(pages: seq<Page>): seq<Question> {
    if pages == [] then [] else QuestionsOf(pages[..|pages| - 1]) + pages[|pages| - 1].questions
  }

  /** The question ids in visiting order. */
  function IdsOf(qs: seq<Question>): seq<string> {
    if qs == [] then [] else IdsOf(qs[..|qs| - 1]) + [qs[|qs| - 1].id]
  }

  /** The mapping after visiting `qs`: the question at position `j` (from
      0) is written with number `j + 1`. */
  function MappingOf(qs: seq<Question>): QuestionMapping {
    if qs == [] then []
    else Put(MappingOf(qs[..|qs| - 1]), qs[|qs| - 1].id, InfoFor(qs[|qs| - 1], |qs|))
  }

  /** The choices of all questions in visiting order. */
  function ChoicesOf(qs: seq<Question>): seq<Choice> {
    if qs == [] then [] else ChoicesOf(qs[..|qs| - 1]) + qs[|qs| - 1].choices
  }

  /** `choiceMapping` after writing the choices `cs` in order. */
  function ChoiceMapOf(cs: seq<Choice>): map<string, string> {
    if cs == [] then map[] else ChoiceMapOf(cs[..|cs| - 1])[cs[|cs| - 1].id := cs[|cs| - 1].text]
  }

  /** The loops over pages and their questions, with the shared
      `questionCounter` starting at 1. */
  method BuildMappings(survey: SurveyStructure) returns (questionMapping: QuestionMapping, choiceMapping: map<string, string>)
    ensures questionMapping == MappingOf(QuestionsOf(survey.pages))
    ensures choiceMapping == ChoiceMapOf(ChoicesOf(QuestionsOf(survey.pages)))
  {
    questionMapping, choiceMapping := [], map[];
    var questionCounter: nat := 1;
    var pages := survey.pages;
    var i := 0;
    while i < |pages|
      invariant 0 <= i <= |pages|
      invariant questionCounter == |QuestionsOf(pages[..i])| + 1
      invariant questionMapping == MappingOf(QuestionsOf(pages[..i]))
      invariant choiceMapping == ChoiceMapOf(ChoicesOf(QuestionsOf(pages[..i])))
    {
      questionMapping, choiceMapping, questionCounter :=
        MapPage(questionMapping, choiceMapping, questionCounter, QuestionsOf(pages[..i]), pages[i]);
      assert pages[..i + 1][..i] == pages[..i];
      i := i + 1;
    }
    assert pages[..i] == pages;
  }

  /** The loop over the questions of one page, continuing from the state
      left by the questions `visited` before it. */
  method MapPage(questionMapping: QuestionMapping, choiceMapping: map<string, string>, questionCounter: nat,
                 ghost visited: seq<Question>, page: Page)
    returns (questionMapping': QuestionMapping, choiceMapping': map<string, string>, questionCounter': nat)
    requires questionCounter == |visited| + 1
    requires questionMapping == MappingOf(visited)
    requires choiceMapping == ChoiceMapOf(ChoicesOf(visited))
    ensures questionCounter' == |visited + page.questions| + 1
    ensures questionMapping' == MappingOf(visited + page.questions)
    ensures choiceMapping' == ChoiceMapOf(ChoicesOf(visited + page.questions))
  {
    questionMapping', choiceMapping', questionCounter' := questionMapping, choiceMapping, questionCounter;
    var questions := page.questions;
    var j := 0;
    assert visited + questions[..0] == visited;
    while j < |questions|
      invariant 0 <= j <= |questions|
      invariant questionCounter' == |visited + questions[..j]| + 1
      invariant questionMapping' == MappingOf(visited + questions[..j])
      invariant choiceMapping' == ChoiceMapOf(ChoicesOf(visited + questions[..j]))
    {
      var question := questions[j];
      ghost var prev := visited + questions[..j];
      PrefixSnoc(visited, questions, j);
      VisitStep(prev, question);
      questionMapping' := Put(questionMapping', question.id, InfoFor(question, questionCounter'));
      choiceMapping' := MapChoices(choiceMapping', ChoicesOf(prev), question.choices);
      questionCounter' := questionCounter' + 1;
      j := j + 1;
    }
    assert questions[..j] == questions;
  }

  /** Visiting one more question writes its entry with the next number
      and appends its choices. */
  lemma VisitStep(prev: seq<Question>, question: Question)
    ensures MappingOf(prev + [question]) == Put(MappingOf(prev), question.id, InfoFor(question, |prev| + 1))
    ensures ChoicesOf(prev + [question]) == ChoicesOf(prev) + question.choices
  {
    var next := prev + [question];
    assert next[..|next| - 1] == prev && next[|next| - 1] == question;
  }

  /** The innermost loop: `choiceMapping[choice.id] = choice.text` for
      each choice of one question. */
  method MapChoices(choiceMapping: map<string, string>, ghost written: seq<Choice>, choices: seq<Choice>)
    returns (choiceMapping': map<string, string>)
    requires choiceMapping == ChoiceMapOf(written)
    ensures choiceMapping' == ChoiceMapOf(written + choices)
  {
    choiceMapping' := choiceMapping;
    var k := 0;
    assert written + choices[..0] == written;
    while k < |choices|
      invariant 0 <= k <= |choices|
      invariant choiceMapping' == ChoiceMapOf(written + choices[..k])
    {
      var seen := written + choices[..k + 1];
      assert seen[..|seen| - 1] == written + choices[..k];
      choiceMapping' := choiceMapping'[choices[k].id := choices[k].text];
      k := k + 1;
    }
    assert choices[..k] == choices;
  }

  /** Questions are visited page after page: question `k` of page `i`
      comes right after all questions of the earlier pages, so the shared
      counter gives it the number `|QuestionsOf(pages[..i])| + k + 1`. */
  lemma {:induction false} QuestionPosition(pages: seq<Page>, i: nat, k: nat)
    requires i < |pages| && k < |pages[i].questions|
    ensures |QuestionsOf(pages[..i])| + k < |QuestionsOf(pages)|
    ensures QuestionsOf(pages)[|QuestionsOf(pages[..i])| + k] == pages[i].questions[k]
    decreases |pages|
  {
    if i == |pages| - 1 {
      assert pages[..|pages| - 1] == pages[..i];
    } else {
      var init := pages[..|pages| - 1];
      assert init[..i] == pages[..i];
      QuestionPosition(init, i, k);
    }
  }

  /** Keys of the mapping are the question ids, each once, in order of
      first appearance. */
  lemma {:induction false} MappingKeys(qs: seq<Question>)
    ensures Keys(MappingOf(qs)) == Dedup(IdsOf(qs))
  {
    if qs != [] {
      var init := qs[..|qs| - 1];
      MappingKeys(init);
      var ids := IdsOf(qs);
      assert ids[..|ids| - 1] == IdsOf(init);
      PutKeys(MappingOf(init), qs[|qs| - 1].id, InfoFor(qs[|qs| - 1], |qs|));
    }
  }

  /** A repeated id keeps the entry of its last occurrence, numbered by
      that occurrence's position. */
  lemma {:induction false} MappingLastWrite(qs: seq<Question>, j: nat)
    requires j < |qs|
    requires forall j' :: j < j' < |qs| ==> qs[j'].id != qs[j].id
    ensures Get(MappingOf(qs), qs[j].id) == Some(InfoFor(qs[j], j + 1))
  {
    var init := qs[..|qs| - 1];
    PutGet(MappingOf(init), qs[|qs| - 1].id, InfoFor(qs[|qs| - 1], |qs|), qs[j].id);
    if j < |qs| - 1 {
      assert init[j] == qs[j];
      MappingLastWrite(init, j);
    }
  }

  /** An id no question carries has no entry. */
  lemma {:induction false} MappingAbsent(qs: seq<Question>, id: string)
    requires forall j :: 0 <= j < |qs| ==> qs[j].id != id
    ensures Get(MappingOf(qs), id) == None
  {
    if qs != [] {
      var init := qs[..|qs| - 1];
      PutGet(MappingOf(init), qs[|qs| - 1].id, InfoFor(qs[|qs| - 1], |qs|), id);
      MappingAbsent(init, id);
    }
  }

  /** A choice id written more than once keeps the text of its last write. */
  lemma {:induction false} ChoiceLastWrite(cs: seq<Choice>, j: nat)
    requires j < |cs|
    requires forall j' :: j < j' < |cs| ==> cs[j'].id != cs[j].id
    ensures cs[j].id in ChoiceMapOf(cs) && ChoiceMapOf(cs)[cs[j].id] == cs[j].text
  {
    if j < |cs| - 1 {
      var init := cs[..|cs| - 1];
      assert init[j] == cs[j];
      ChoiceLastWrite(init, j);
    }
  }

  /** A choice id that no choice carries is not mapped. */
  lemma {:induction false} ChoiceAbsent(cs: seq<Choice>, id: string)
    requires forall j :: 0 <= j < |cs| ==> cs[j].id != id
    ensures id !in ChoiceMapOf(cs)
  {
    if cs != [] {
      ChoiceAbsent(cs[..|cs| - 1], id);
    }
  }
}
