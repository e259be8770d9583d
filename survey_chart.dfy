/** The pie chart of one question's raw answers: a histogram of answer
    labels in first-seen order, read out as parallel `labels` and `data`
    arrays, or the "No chart data available." message. */
module SurveyChart {
  import opened Collections
  import opened SurveyModel

  /** The `question` prop: its `answers` may be absent. */
  datatype ChartQuestion = ChartQuestion(answers: Option<seq<Answer>>)

  datatype Chart = NoChartData | PieChart(labels: seq<string>, data: seq<nat>)

  /** `answer.text || answer.choice_id || 'Unknown'`: the first non-empty
      of the text and the choice id, else 'Unknown'. */
  function ChartLabel(a: Answer): (name: string)
    ensures name != ""
    ensures name == a.text || name == a.choiceId || name == "Unknown"
    ensures a.text != "" ==> name == a.text
    ensures a.text == "" && a.choiceId != "" ==> name == a.choiceId
  {
    if a.text != "" then a.text else if a.choiceId != "" then a.choiceId else "Unknown"
  }

  /** The `answerCounts` object after the first answers have been counted. */
  function AnswerCounts(answers: seq<Answer>): seq<(string, nat)> {
    if answers == [] then []
    else Increment(AnswerCounts(answers[..|answers| - 1]), ChartLabel(answers[|answers| - 1]))
  }

  /** The number of answers whose label is `name`. */
  function LabelCount(answers: seq<Answer>, name: string): nat {
    if answers == [] then 0
    else LabelCount(answers[..|answers| - 1], name) + if ChartLabel(answers[|answers| - 1]) == name then 1 else 0
  }

  function Sum(xs: seq<nat>): nat {
    if xs == [] then 0 else xs[0] + Sum(xs[1..])
  }

  /** The chart the component renders for `question`. */
  function ChartOf(question: Option<ChartQuestion>): Chart {
    if question.None? || question.value.answers.None? || question.value.answers.value == [] then NoChartData
    else
      var counts := AnswerCounts(question.value.answers.value);
      PieChart(Keys(counts), Values(counts))
  }

  /** The histogram holds every label once, counts each label's answers
      exactly, has a key exactly for the labels that occur, and its counts
      add up to the number of answers. */
  lemma {:induction false} AnswerCountsFacts(answers: seq<Answer>)
    ensures var counts := AnswerCounts(answers);
      Distinct(Keys(counts)) && SumCounts(counts) == |answers|
      && forall name :: CountOf(counts, name) == LabelCount(answers, name)
                         && (name in Keys(counts) <==> LabelCount(answers, name) > 0)
  {
    if answers != [] {
      var init := answers[..|answers| - 1];
      var name := ChartLabel(answers[|answers| - 1]);
      AnswerCountsFacts(init);
      var counts := AnswerCounts(init);
      var n: nat := CountOf(counts, name) + 1;
      PutKeepsDistinct(counts, name, n);
      SumCountsIncrement(counts, name);
      forall other ensures CountOf(Increment(counts, name), other) == LabelCount(answers, other)
                           && (other in Keys(Increment(counts, name)) <==> LabelCount(answers, other) > 0)
      {
        IncrementCounts(counts, name, other);
      }
    }
  }

  lemma {:induction false} SumValues(l: seq<(string, nat)>)
    ensures Sum(Values(l)) == SumCounts(l)
  {
    if l != [] {
      SumValues(l[1..]);
      assert Values(l)[1..] == Values(l[1..]);
    }
  }

  /** A missing question, missing answers or no answers give the message;
      otherwise `labels` and `data` are parallel, `labels` has no
      duplicates and holds exactly the labels that occur, `data[i]` counts
      the answers labelled `labels[i]`, and the counts add up to the
      number of answers. */
  lemma ChartFacts(question: Option<ChartQuestion>)
    ensures ChartOf(question).NoChartData? <==>
      question.None? || question.value.answers.None? || question.value.answers.value == []
    ensures ChartOf(question).PieChart? ==>
      var answers := question.value.answers.value;
      var c := ChartOf(question);
      |c.labels| == |c.data| && Distinct(c.labels)
      && (forall i :: 0 <= i < |c.labels| ==> c.data[i] == LabelCount(answers, c.labels[i]))
      && (forall name :: name in c.labels <==> LabelCount(answers, name) > 0)
      && Sum(c.data) == |answers|
  {
    if ChartOf(question).PieChart? {
      var answers := question.value.answers.value;
      var counts := AnswerCounts(answers);
      AnswerCountsFacts(answers);
      SumValues(counts);
      forall i | 0 <= i < |counts| ensures Values(counts)[i] == LabelCount(answers, Keys(counts)[i]) {
        GetAt(counts, i);
      }
    }
  }

  /** The component's counting loop. */
  method RenderChart(question: Option<ChartQuestion>) returns (chart: Chart)
    ensures chart == ChartOf(question)
  {
    if question.None? || question.value.answers.None? || question.value.answers.value == [] {
      return NoChartData;
    }
    var answers := question.value.answers.value;
    var answerCounts: seq<(string, nat)> := [];
    var i := 0;
    while i < |answers|
      invariant 0 <= i <= |answers|
      invariant answerCounts == AnswerCounts(answers[..i])
    {
      var name := ChartLabel(answers[i]);
      assert answers[..i + 1][..i] == answers[..i];
      answerCounts := Increment(answerCounts, name);
      i := i + 1;
    }
    assert answers[..i] == answers;
    chart := PieChart(Keys(answerCounts), Values(answerCounts));
  }
}
