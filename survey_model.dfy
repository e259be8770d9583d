/** The records the survey-details view works on: the survey structure
    returned by the details endpoint, the raw responses of the bulk
    endpoint, and the aggregated per-question statistics it derives.
    A JSON field that is absent, `null` or empty is the empty string or
    the empty sequence here; JavaScript tests such fields for truthiness,
    and for strings only the empty string is falsy. */
module SurveyModel {
  import opened Collections

  // ----- survey structure (`GET /surveys/{id}/details`) -----

  /** `answers.choices[]` of a question: a choice id and its text. */
  datatype Choice = Choice(id: string, text: string)

  /** `pages[].questions[]`, with the `heading` of each `headings[]` entry. */
  datatype Question = Question(id: string, headings: seq<string>, family: string, choices: seq<Choice>)

  datatype Page = Page(questions: seq<Question>)

  datatype SurveyStructure = SurveyStructure(title: string, pages: seq<Page>)

  // ----- responses (`GET /surveys/{id}/responses/bulk`) -----

  /** One answer of a response; each field may be absent (""). */
  datatype Answer = Answer(text: string, otherText: string, choiceId: string, choiceText: string, rowId: string)

  datatype ResponseQuestion = ResponseQuestion(id: string, headings: seq<string>, family: string, answers: seq<Answer>)

  datatype ResponsePage = ResponsePage(questions: seq<ResponseQuestion>)

  /** A response; its timestamps are milliseconds since the epoch. */
  datatype Response = Response(
    id: string,
    dateCreated: Option<int>,
    dateModified: Option<int>,
    responseStatus: string,
    pages: seq<ResponsePage>)

  // ----- aggregated statistics -----

  /** One answer label of a question with its count and its share of the
      question's total in tenths of a percent (`percent` shows it with one
      decimal). */
  datatype AggregatedAnswer = AggregatedAnswer(answerLabel: string, count: nat, percentTenths: nat)

  /** One question of the result. `questionType` is `None` where the
      source reads an `undefined` type. */
  datatype AggregatedQuestion = AggregatedQuestion(
    question: string,
    answers: seq<AggregatedAnswer>,
    totalResponses: nat,
    questionType: Option<string>)

  /** `question.headings?.[0]?.heading`: only the first heading is read. */
  function FirstHeading(headings: seq<string>): string {
    if headings == [] then "" else headings[0]
  }

  /** The answer family used when none is given. */
  const DefaultFamily: string := "single_choice"

  /** `family || 'single_choice'`. */
  function FamilyOrDefault(family: string): (f: string)
    ensures f != ""
    ensures family != "" ==> f == family
  {
    if family != "" then family else DefaultFamily
  }
}
