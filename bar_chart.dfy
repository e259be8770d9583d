/** The recharts bar chart of one aggregated question: the bars leave out
    answers labelled 'No question text', and long category labels on the
    axis are cut to thirty characters followed by an ellipsis. */
module BarChart {
  import opened Collections
  import opened SurveyModel

  const NoQuestionText := "No question text"

  /** The longest axis label shown unchanged. */
  const TickLimit := 30

  predicate Shown(a: AggregatedAnswer) {
    a.answerLabel != NoQuestionText
  }

  /** The `data` prop of the chart. */
  function BarData(q: AggregatedQuestion): (bars: seq<AggregatedAnswer>)
    ensures |bars| <= |q.answers|
    ensures forall i :: 0 <= i < |bars| ==> bars[i].answerLabel != NoQuestionText
  {
    FilterAllPass(q.answers, Shown);
    Filter(q.answers, Shown)
  }

  /** The chart renders only for the 'Bar' chart type. */
  function RenderedBars(chartType: string, q: AggregatedQuestion): (r: Option<seq<AggregatedAnswer>>)
    ensures r.Some? <==> chartType == "Bar"
    ensures r.Some? ==> r.value == BarData(q)
  {
    if chartType == "Bar" then Some(BarData(q)) else None
  }

  /** Every answer with another label is drawn... */
  lemma BarDataKeepsOthers(q: AggregatedQuestion, a: AggregatedAnswer)
    ensures a in BarData(q) <==> a in q.answers && a.answerLabel != NoQuestionText
  {
    FilterMembers(q.answers, Shown, a);
  }

  /** ...in the order of the question's answers: dropping the excluded
      label commutes with splitting the answer list. */
  lemma BarDataKeepsOrder(q: AggregatedQuestion, k: nat)
    requires k <= |q.answers|
    ensures BarData(q) == Filter(q.answers[..k], Shown) + Filter(q.answers[k..], Shown)
  {
    assert q.answers == q.answers[..k] + q.answers[k..];
    FilterAppend(q.answers[..k], q.answers[k..], Shown);
  }

  /** A question without the excluded label is drawn whole. */
  lemma BarDataWhole(q: AggregatedQuestion)
    requires forall i :: 0 <= i < |q.answers| ==> q.answers[i].answerLabel != NoQuestionText
    ensures BarData(q) == q.answers
  {
    FilterIdentity(q.answers, Shown);
  }

  /** The `tickFormatter`: labels of at most thirty characters unchanged,
      longer ones as their first thirty characters and `...`. */
  function TickLabel(name: string): (t: string)
    ensures |name| <= TickLimit ==> t == name
    ensures |name| > TickLimit ==> |t| == TickLimit + 3 && t[..TickLimit] == name[..TickLimit] && t[TickLimit..] == "..."
  {
    if |name| > TickLimit then name[..TickLimit] + "..." else name
  }

  /** Formatting a formatted label changes nothing, and no tick label is
      longer than thirty-three characters. */
  lemma TickLabelIdempotent(name: string)
    ensures TickLabel(TickLabel(name)) == TickLabel(name)
    ensures |TickLabel(name)| <= TickLimit + 3
  {
    if |name| > TickLimit {
      var t := TickLabel(name);
      assert t == t[..TickLimit] + t[TickLimit..];
    }
  }
}
