/** The survey-details view: `fetchSurveyData` with its cache, primary and
    fallback paths and status machine, `refreshData`, and the rows of the
    CSV export. The clock, local storage and the results of the two pairs
    of HTTP requests are inputs. */
module SurveyDetails {
  import opened Collections
  import opened Strings
  import opened SurveyModel
  import opened TimeFilter
  import opened LabelResolver
  import opened Aggregation
  import opened Structuring
  import opened Fallback
  import opened Cache

  /** The values of `cacheStatus`; `FellBack` is 'fallback' and `Failed` 'error'. */
  datatype CacheStatus = Idle | Loading | Cached | Fresh | FellBack | Failed

  /** The endpoints the view calls: the details and the basic survey
      endpoints, and the bulk responses endpoint. */
  datatype Request = Details | Basic | Bulk

  /** The settled result of one pair of requests issued together. */
  datatype Fetch<T> = Succeeded(value: T) | FetchFailed

  /** What the primary pair returns: the survey structure (with its title)
      and `responseRes.data.data`, absent read as empty. */
  datatype DetailsPayload = DetailsPayload(survey: SurveyStructure, responses: seq<Response>)

  /** What the fallback pair returns: the survey title and the responses. */
  datatype BasicPayload = BasicPayload(title: string, responses: seq<Response>)

  const LoadError: string := "Failed to load survey details."

  /** Everything one call of `fetchSurveyData` decides. A `None` field is a
      state whose setter the call never reached, so the view keeps its
      value; `requests` lists the endpoints called, in order. */
  datatype Outcome = Outcome(
    status: CacheStatus,
    title: Option<string>,
    rawResponses: Option<seq<Response>>,
    questionData: Option<seq<AggregatedQuestion>>,
    error: Option<string>,
    storage: Storage,
    requests: seq<Request>)

  /** The statistics of the primary path for the already filtered responses. */
  function PrimaryResult(survey: SurveyStructure, responses: seq<Response>, threshold: nat): seq<AggregatedQuestion> {
    var qs := QuestionsOf(survey.pages);
    var mapping := MappingOf(qs);
    var t := TallyOf(ResponseQuestions(responses), mapping, ChoiceMapOf(ChoicesOf(qs)));
    StructurePrimary(t.questionMap, mapping, t.questionTypes, threshold)
  }

  /** The statistics of the fallback path for the already filtered responses. */
  function FallbackResult(responses: seq<Response>, threshold: nat): seq<AggregatedQuestion> {
    var t := FallbackTallyOf(ResponseQuestions(responses));
    StructureFallback(t.questionMap, t.questionTypes, threshold)
  }

  /** The `catch` block, entered with what the `try` block had already set. */
  function FallbackOutcome(reached: Outcome, fallback: Fetch<BasicPayload>, threshold: nat, timeRange: string, now: int): Outcome {
    var requests := reached.requests + [Basic, Bulk];
    match fallback
    case Succeeded(b) =>
      var kept := FilterByTimeRange(b.responses, timeRange, now);
      Outcome(FellBack, Some(b.title), Some(kept), Some(FallbackResult(kept, threshold)), None, reached.storage, requests)
    case FetchFailed =>
      reached.(status := Failed, error := Some(LoadError), requests := requests)
  }

  /** One call of `fetchSurveyData` for survey `id` with the given settings.
      `writeFits` says whether `localStorage.setItem` accepts the entry;
      when it throws, control reaches the fallback. */
  function FetchOutcome(id: string, threshold: nat, timeRange: string, storage: Storage, now: int,
                        primary: Fetch<DetailsPayload>, fallback: Fetch<BasicPayload>, writeFits: bool): Outcome
  {
    var key := CacheKey(id, threshold, timeRange);
    var nothing := Outcome(Loading, None, None, None, None, storage, []);
    match Read(storage, key, now)
    case Hit(e) => Outcome(Cached, Some(e.title), Some(e.rawResponses), Some(e.data), None, storage, [])
    case Corrupt => FallbackOutcome(nothing, fallback, threshold, timeRange, now)
    case Miss =>
      match primary
      case FetchFailed => FallbackOutcome(nothing.(requests := [Details, Bulk]), fallback, threshold, timeRange, now)
      case Succeeded(p) =>
        var kept := FilterByTimeRange(p.responses, timeRange, now);
        var data := PrimaryResult(p.survey, kept, threshold);
        var reached := Outcome(Loading, Some(p.survey.title), Some(kept), Some(data), None, storage, [Details, Bulk]);
        if writeFits then
          reached.(status := Fresh, storage := storage[key := Record(CacheEntry(data, p.survey.title, kept, now))])
        else
          FallbackOutcome(reached, fallback, threshold, timeRange, now)
  }

  predicate Settled(s: CacheStatus) {
    s == Cached || s == Fresh || s == FellBack || s == Failed
  }

  /** Every call ends in one of `cached`, `fresh`, `fallback` or `error`,
      and sets an error exactly when it ends in `error`, with the fixed
      message. */
  lemma OutcomeSettles(id: string, threshold: nat, timeRange: string, storage: Storage, now: int,
                       primary: Fetch<DetailsPayload>, fallback: Fetch<BasicPayload>, writeFits: bool)
    ensures var o := FetchOutcome(id, threshold, timeRange, storage, now, primary, fallback, writeFits);
      Settled(o.status) && (o.error.Some? <==> o.status == Failed) && (o.error.Some? ==> o.error.value == LoadError)
  {
  }

  /** A fresh entry is served as it is: status `cached`, no request, the
      stored data, title and responses, and storage untouched (a stale
      entry under another setting stays where it is). */
  lemma HitServesEntry(id: string, threshold: nat, timeRange: string, storage: Storage, now: int,
                       primary: Fetch<DetailsPayload>, fallback: Fetch<BasicPayload>, writeFits: bool, e: CacheEntry)
    requires CacheKey(id, threshold, timeRange) in storage && storage[CacheKey(id, threshold, timeRange)] == Record(e)
    requires now - e.timestamp < 1_800_000
    ensures FetchOutcome(id, threshold, timeRange, storage, now, primary, fallback, writeFits)
         == Outcome(Cached, Some(e.title), Some(e.rawResponses), Some(e.data), None, storage, [])
  {
    FreshWindow(now, e.timestamp);
  }

  /** An entry 30 minutes old or older is not served: the primary endpoints
      are called. */
  lemma StaleEntryRefetches(id: string, threshold: nat, timeRange: string, storage: Storage, now: int,
                            primary: Fetch<DetailsPayload>, fallback: Fetch<BasicPayload>, writeFits: bool, e: CacheEntry)
    requires CacheKey(id, threshold, timeRange) in storage && storage[CacheKey(id, threshold, timeRange)] == Record(e)
    requires now - e.timestamp >= 1_800_000
    ensures var o := FetchOutcome(id, threshold, timeRange, storage, now, primary, fallback, writeFits);
      o.status != Cached && |o.requests| >= 2 && o.requests[..2] == [Details, Bulk]
  {
    FreshWindow(now, e.timestamp);
  }

  /** Only the fresh path writes, and it writes exactly one entry: the
      structured data, the title and the filtered responses, stamped `now`. */
  lemma OnlyFreshWrites(id: string, threshold: nat, timeRange: string, storage: Storage, now: int,
                        primary: Fetch<DetailsPayload>, fallback: Fetch<BasicPayload>, writeFits: bool)
    ensures var o := FetchOutcome(id, threshold, timeRange, storage, now, primary, fallback, writeFits);
      if o.status == Fresh then
        o.requests == [Details, Bulk]
        && o.storage == storage[CacheKey(id, threshold, timeRange) := Record(CacheEntry(o.questionData.value, o.title.value, o.rawResponses.value, now))]
      else o.storage == storage
  {
  }

  /** Round trip: what the fresh path writes is what a later call with the
      same settings reads back, for the next 30 minutes. */
  lemma FreshThenCached(id: string, threshold: nat, timeRange: string, storage: Storage, now: int, later: int,
                        primary: Fetch<DetailsPayload>, fallback: Fetch<BasicPayload>, writeFits: bool,
                        primary': Fetch<DetailsPayload>, fallback': Fetch<BasicPayload>, writeFits': bool)
    requires FetchOutcome(id, threshold, timeRange, storage, now, primary, fallback, writeFits).status == Fresh
    requires later - now < 1_800_000
    ensures var o := FetchOutcome(id, threshold, timeRange, storage, now, primary, fallback, writeFits);
      var o' := FetchOutcome(id, threshold, timeRange, o.storage, later, primary', fallback', writeFits');
      o'.status == Cached && o'.requests == [] && o'.questionData == o.questionData
      && o'.title == o.title && o'.rawResponses == o.rawResponses
  {
    var o := FetchOutcome(id, threshold, timeRange, storage, now, primary, fallback, writeFits);
    OnlyFreshWrites(id, threshold, timeRange, storage, now, primary, fallback, writeFits);
    HitServesEntry(id, threshold, timeRange, o.storage, later, primary', fallback', writeFits',
                   CacheEntry(o.questionData.value, o.title.value, o.rawResponses.value, now));
  }

  /** An entry that cannot be parsed sends the call straight to the
      fallback: the details endpoint is never called. */
  lemma CorruptSkipsPrimary(id: string, threshold: nat, timeRange: string, storage: Storage, now: int,
                            primary: Fetch<DetailsPayload>, fallback: Fetch<BasicPayload>, writeFits: bool)
    requires CacheKey(id, threshold, timeRange) in storage && storage[CacheKey(id, threshold, timeRange)].Unparseable?
    ensures var o := FetchOutcome(id, threshold, timeRange, storage, now, primary, fallback, writeFits);
      o.requests == [Basic, Bulk] && (o.status == FellBack || o.status == Failed)
  {
  }

  /** When the cache misses, the view ends in `fresh` exactly when the
      primary requests succeed and the write fits, in `fallback` exactly
      when that fails and the fallback requests succeed, and in `error`
      otherwise; the primary's data survives the error only if the primary
      itself succeeded. */
  lemma MissPaths(id: string, threshold: nat, timeRange: string, storage: Storage, now: int,
                  primary: Fetch<DetailsPayload>, fallback: Fetch<BasicPayload>, writeFits: bool)
    requires Read(storage, CacheKey(id, threshold, timeRange), now) == Miss
    ensures var o := FetchOutcome(id, threshold, timeRange, storage, now, primary, fallback, writeFits);
      (o.status == Fresh <==> primary.Succeeded? && writeFits)
      && (o.status == FellBack <==> !(primary.Succeeded? && writeFits) && fallback.Succeeded?)
      && (o.status == Failed <==> !(primary.Succeeded? && writeFits) && fallback.FetchFailed?)
      && (o.status == Failed ==> (o.questionData.Some? <==> primary.Succeeded?))
      && (o.status == FellBack ==> o.requests == [Details, Bulk, Basic, Bulk])
  {
  }

  // ----- the error state -----

  /** `error` after a call, as written: the call sets it on failure and
      never clears it. */
  function ErrorAfter(previous: Option<string>, o: Outcome): Option<string> {
    if o.error.Some? then o.error else previous
  }

  /** `error` after a call that starts with `setError(null)`. */
  function ErrorAfterCleared(o: Outcome): Option<string> {
    o.error
  }

  /** What the view renders first: the skeleton while loading, then the
      error screen with its "Try Again" button, then the empty state, then
      the statistics. */
  datatype Screen = Skeleton | ErrorScreen(message: string) | NoData | Statistics

  function ScreenFor(loading: bool, error: Option<string>, questionData: seq<AggregatedQuestion>): (s: Screen)
    ensures s == Skeleton <==> loading
    ensures s.ErrorScreen? <==> !loading && error.Some?
    ensures s == Statistics <==> !loading && error.None? && questionData != []
  {
    if loading then Skeleton
    else if error.Some? then ErrorScreen(error.value)
    else if questionData == [] then NoData
    else Statistics
  }

  /** As written, the error screen outlives every retry: once a call has
      failed, "Try Again" may reach data, but the view keeps showing the
      error. */
  lemma ErrorOutlivesRetry(id: string, threshold: nat, timeRange: string, storage: Storage, now: int,
                           primary: Fetch<DetailsPayload>, fallback: Fetch<BasicPayload>, writeFits: bool)
    requires primary.Succeeded? && writeFits
    ensures var o := FetchOutcome(id, threshold, timeRange, Purge(storage, SurveyPrefix(id)), now, primary, fallback, writeFits);
      o.status == Fresh && ScreenFor(false, ErrorAfter(Some(LoadError), o), o.questionData.value) == ErrorScreen(LoadError)
  {
    PurgedReadsMiss(storage, id, threshold, timeRange, now);
  }

  /** With the error cleared at the start of each call, the view shows the
      error screen after a call exactly when that call failed. */
  lemma ClearedErrorFollowsOutcome(id: string, threshold: nat, timeRange: string, storage: Storage, now: int,
                                   primary: Fetch<DetailsPayload>, fallback: Fetch<BasicPayload>, writeFits: bool)
    ensures var o := FetchOutcome(id, threshold, timeRange, storage, now, primary, fallback, writeFits);
      var data := if o.questionData.Some? then o.questionData.value else [];
      ScreenFor(false, ErrorAfterCleared(o), data).ErrorScreen? <==> o.status == Failed
  {
    OutcomeSettles(id, threshold, timeRange, storage, now, primary, fallback, writeFits);
  }

  // ----- CSV export -----

  const CsvHeader: string := "Question,Answer,Count,Percent,Total Responses"

  /** A percentage in tenths with one decimal, as `toFixed(1)` shows it. */
  function PercentText(tenths: nat): string {
    NatToString(tenths / 10) + "." + [DigitChar(tenths % 10)]
  }

  /** Different percentages are shown differently. */
  lemma PercentTextInjective(p: nat, q: nat)
    requires PercentText(p) == PercentText(q)
    ensures p == q
  {
    var sp, sq := PercentText(p), PercentText(q);
    assert sp[|sp| - 1] == DigitChar(p % 10);
    assert sq[|sq| - 1] == DigitChar(q % 10);
    assert sp[..|sp| - 2] == NatToString(p / 10);
    assert sq[..|sq| - 2] == NatToString(q / 10);
    NatToStringInjective(p / 10, q / 10);
  }

  /** `"question","label",count,percent%,total` (fields are not escaped). */
  function CsvRow(q: AggregatedQuestion, a: AggregatedAnswer): string {
    "\"" + q.question + "\",\"" + a.answerLabel + "\"," + NatToString(a.count) + ","
      + PercentText(a.percentTenths) + "%," + NatToString(q.totalResponses)
  }

  function AnswerRows(q: AggregatedQuestion, answers: seq<AggregatedAnswer>): seq<string> {
    if answers == [] then [] else AnswerRows(q, answers[..|answers| - 1]) + [CsvRow(q, answers[|answers| - 1])]
  }

  function CsvBody(questions: seq<AggregatedQuestion>): seq<string> {
    if questions == [] then []
    else
      var last := questions[|questions| - 1];
      CsvBody(questions[..|questions| - 1]) + AnswerRows(last, last.answers)
  }

  /** The lines of the exported file. */
  function CsvRows(questions: seq<AggregatedQuestion>): seq<string> {
    [CsvHeader] + CsvBody(questions)
  }

  /** The number of answers over all questions. */
  function AnswerTotal(questions: seq<AggregatedQuestion>): nat {
    if questions == [] then 0
    else AnswerTotal(questions[..|questions| - 1]) + |questions[|questions| - 1].answers|
  }

  lemma {:induction false} AnswerRowsFacts(q: AggregatedQuestion, answers: seq<AggregatedAnswer>)
    ensures |AnswerRows(q, answers)| == |answers|
    ensures forall k :: 0 <= k < |answers| ==> AnswerRows(q, answers)[k] == CsvRow(q, answers[k])
  {
    if answers != [] {
      AnswerRowsFacts(q, answers[..|answers| - 1]);
    }
  }

  lemma {:induction false} CsvBodyLength(questions: seq<AggregatedQuestion>)
    ensures |CsvBody(questions)| == AnswerTotal(questions)
  {
    if questions != [] {
      var last := questions[|questions| - 1];
      CsvBodyLength(questions[..|questions| - 1]);
      AnswerRowsFacts(last, last.answers);
    }
  }

  /** The header is followed by one row per answer: `1 + total answers` lines. */
  lemma CsvRowCount(questions: seq<AggregatedQuestion>)
    ensures |CsvRows(questions)| == 1 + AnswerTotal(questions)
    ensures CsvRows(questions)[0] == CsvHeader
  {
    CsvBodyLength(questions);
  }

  /** Rows come in question order, then answer order: answer `k` of question
      `j` is on line `1 + (answers of the questions before j) + k`. */
  lemma {:induction false} CsvRowPosition(questions: seq<AggregatedQuestion>, j: nat, k: nat)
    requires j < |questions| && k < |questions[j].answers|
    ensures 1 + AnswerTotal(questions[..j]) + k < |CsvRows(questions)|
    ensures CsvRows(questions)[1 + AnswerTotal(questions[..j]) + k] == CsvRow(questions[j], questions[j].answers[k])
  {
    var init := questions[..|questions| - 1];
    var last := questions[|questions| - 1];
    CsvBodyLength(init);
    AnswerRowsFacts(last, last.answers);
    if j == |questions| - 1 {
      assert questions[..j] == init;
    } else {
      assert init[..j] == questions[..j];
      CsvRowPosition(init, j, k);
    }
  }

  /** The rows for the answers of one question, appended to `rows`. */
  method AppendAnswerRows(rows: seq<string>, q: AggregatedQuestion) returns (rows': seq<string>)
    ensures rows' == rows + AnswerRows(q, q.answers)
  {
    rows' := rows;
    var k := 0;
    while k < |q.answers|
      invariant 0 <= k <= |q.answers|
      invariant rows' == rows + AnswerRows(q, q.answers[..k])
    {
      assert q.answers[..k + 1][..k] == q.answers[..k];
      rows' := rows' + [CsvRow(q, q.answers[k])];
      k := k + 1;
    }
    assert q.answers[..k] == q.answers;
  }

  /** The mapping, aggregation and structuring of the primary path. */
  method ProcessPrimary(survey: SurveyStructure, responses: seq<Response>, threshold: nat)
    returns (structured: seq<AggregatedQuestion>)
    ensures structured == PrimaryResult(survey, responses, threshold)
  {
    var questionMapping, choiceMapping := BuildMappings(survey);
    var questionMap, questionTypes := TallyResponses(responses, questionMapping, choiceMapping);
    structured := StructurePrimary(questionMap, questionMapping, questionTypes, threshold);
  }

  /** The aggregation and structuring of the fallback path. */
  method ProcessFallback(responses: seq<Response>, threshold: nat) returns (structured: seq<AggregatedQuestion>)
    ensures structured == FallbackResult(responses, threshold)
  {
    var t := TallyFallback(responses);
    structured := StructureFallback(t.questionMap, t.questionTypes, threshold);
  }

  /** The loop of `refreshData` over the storage keys, removing those that
      start with `prefix`. */
  method PurgeKeys(storage: Storage, prefix: string) returns (storage': Storage)
    ensures storage' == Purge(storage, prefix)
  {
    storage' := storage;
    var keys := storage.Keys;
    while keys != {}
      invariant keys <= storage.Keys
      invariant forall k :: k in storage' <==> k in storage && (k in keys || !StartsWith(k, prefix))
      invariant forall k :: k in storage' ==> storage'[k] == storage[k]
      decreases |keys|
    {
      var key :| key in keys;
      if StartsWith(key, prefix) {
        storage' := storage' - {key};
      }
      keys := keys - {key};
    }
    assert storage' == Purge(storage, prefix);
  }

  // ----- the view -----

  /** The state of the view for survey `surveyId`, with the browser's
      storage. */
  class SurveyDetailsView {
    const surveyId: string
    var title: string
    var loading: bool
    var error: Option<string>
    var questionData: seq<AggregatedQuestion>
    var rawResponses: seq<Response>
    var responseThreshold: nat
    var chartType: string
    var timeRange: string
    var cacheStatus: CacheStatus
    var storage: Storage

    /** The initial state of the component. */
    constructor(id: string, initialStorage: Storage)
      ensures surveyId == id && storage == initialStorage
      ensures title == "" && loading && error == None && questionData == [] && rawResponses == []
      ensures responseThreshold == 0 && chartType == "Table" && timeRange == "7d" && cacheStatus == Idle
    {
      surveyId := id;
      storage := initialStorage;
      title := "";
      loading := true;
      error := None;
      questionData := [];
      rawResponses := [];
      responseThreshold := 0;
      chartType := "Table";
      timeRange := "7d";
      cacheStatus := Idle;
    }

    function Screen(): Screen
      reads this
    {
      ScreenFor(loading, error, questionData)
    }

    /** The view shows outcome `o` of a call that started from the shown
        values `title0`, `raw0` and `data0`: every state the call set has its
        new value, every other keeps the old one, and the error is the
        call's own (the corrected behaviour, see `ErrorAfterCleared`). */
    predicate Reflects(o: Outcome, title0: string, raw0: seq<Response>, data0: seq<AggregatedQuestion>)
      reads this`title, this`rawResponses, this`questionData, this`error, this`cacheStatus, this`storage
    {
      cacheStatus == o.status && storage == o.storage
      && title == (if o.title.Some? then o.title.value else title0)
      && rawResponses == (if o.rawResponses.Some? then o.rawResponses.value else raw0)
      && questionData == (if o.questionData.Some? then o.questionData.value else data0)
      && error == ErrorAfterCleared(o)
    }

    /** `fetchSurveyData`, with the error cleared as the call starts;
        returns the endpoints it called. */
    method FetchSurveyData(now: int, primary: Fetch<DetailsPayload>, fallback: Fetch<BasicPayload>, writeFits: bool)
      returns (requests: seq<Request>)
      modifies this`title, this`rawResponses, this`questionData, this`error, this`cacheStatus, this`storage, this`loading
      ensures var o := FetchOutcome(surveyId, old(responseThreshold), old(timeRange), old(storage), now, primary, fallback, writeFits);
        requests == o.requests && Reflects(o, old(title), old(rawResponses), old(questionData))
      ensures !loading && (Screen().ErrorScreen? <==> cacheStatus == Failed)
    {
      OutcomeSettles(surveyId, responseThreshold, timeRange, storage, now, primary, fallback, writeFits);
      var threshold, range := responseThreshold, timeRange;
      error := None;
      cacheStatus := Loading;
      requests := [];
      var key := CacheKey(surveyId, threshold, range);
      var lookup := Read(storage, key, now);
      if lookup.Hit? {
        questionData := lookup.entry.data;
        title := lookup.entry.title;
        rawResponses := lookup.entry.rawResponses;
        loading := false;
        cacheStatus := Cached;
        return;
      }
      requests := FetchUncached(now, primary, fallback, writeFits, threshold, range);
      loading := false;
    }

    /** `fetchSurveyData` once the cache has not served the call. */
    method FetchUncached(now: int, primary: Fetch<DetailsPayload>, fallback: Fetch<BasicPayload>, writeFits: bool,
                         threshold: nat, range: string)
      returns (requests: seq<Request>)
      requires !Read(storage, CacheKey(surveyId, threshold, range), now).Hit? && error == None
      modifies this`title, this`rawResponses, this`questionData, this`error, this`cacheStatus, this`storage
      ensures var o := FetchOutcome(surveyId, threshold, range, old(storage), now, primary, fallback, writeFits);
        requests == o.requests && Reflects(o, old(title), old(rawResponses), old(questionData))
    {
      var key := CacheKey(surveyId, threshold, range);
      if Read(storage, key, now).Corrupt? {
        requests := RecoverWithFallback(now, fallback, [], threshold, range);
      } else if primary.FetchFailed? {
        requests := RecoverWithFallback(now, fallback, [Details, Bulk], threshold, range);
      } else {
        requests := RunPrimary(now, primary.value, fallback, writeFits, key, threshold, range);
      }
    }

    /** The `try` block of `fetchSurveyData` after a cache miss, once both
        primary requests have succeeded. */
    method RunPrimary(now: int, p: DetailsPayload, fallback: Fetch<BasicPayload>, writeFits: bool,
                      key: string, threshold: nat, range: string)
      returns (requests: seq<Request>)
      requires error == None
      modifies this`title, this`rawResponses, this`questionData, this`error, this`cacheStatus, this`storage
      ensures var kept := FilterByTimeRange(p.responses, range, now);
        var data := PrimaryResult(p.survey, kept, threshold);
        var reached := Outcome(Loading, Some(p.survey.title), Some(kept), Some(data), None, old(storage), [Details, Bulk]);
        var o := if writeFits then reached.(status := Fresh, storage := old(storage)[key := Record(CacheEntry(data, p.survey.title, kept, now))])
                 else FallbackOutcome(reached, fallback, threshold, range, now);
        requests == o.requests && Reflects(o, old(title), old(rawResponses), old(questionData))
    {
      ghost var title0, raw0, data0, storage0 := title, rawResponses, questionData, storage;
      title := p.survey.title;
      var kept := FilterByTimeRange(p.responses, range, now);
      rawResponses := kept;
      var structured := ProcessPrimary(p.survey, kept, threshold);
      questionData := structured;
      ghost var reached := Outcome(Loading, Some(p.survey.title), Some(kept), Some(structured), None, storage0, [Details, Bulk]);
      if writeFits {
        storage := storage[key := Record(CacheEntry(structured, p.survey.title, kept, now))];
        cacheStatus := Fresh;
        requests := [Details, Bulk];
        assert Reflects(reached.(status := Fresh, storage := storage0[key := Record(CacheEntry(structured, p.survey.title, kept, now))]),
                        title0, raw0, data0);
      } else {
        requests := RecoverWithFallback(now, fallback, [Details, Bulk], threshold, range);
        assert requests == FallbackOutcome(reached, fallback, threshold, range, now).requests
            && Reflects(FallbackOutcome(reached, fallback, threshold, range, now), title0, raw0, data0);
      }
    }

    /** The `catch` block of `fetchSurveyData`, after the endpoints in
        `requested` were called. */
    method RecoverWithFallback(now: int, fallback: Fetch<BasicPayload>, requested: seq<Request>, threshold: nat, range: string)
      returns (requests: seq<Request>)
      requires error == None
      modifies this`title, this`rawResponses, this`questionData, this`error, this`cacheStatus
      ensures var o := FallbackOutcome(Outcome(Loading, None, None, None, None, storage, requested), fallback, threshold, range, now);
        requests == o.requests && Reflects(o, old(title), old(rawResponses), old(questionData))
    {
      requests := requested + [Basic, Bulk];
      if fallback.Succeeded? {
        var b := fallback.value;
        title := b.title;
        var kept := FilterByTimeRange(b.responses, range, now);
        rawResponses := kept;
        questionData := ProcessFallback(kept, threshold);
        cacheStatus := FellBack;
      } else {
        error := Some(LoadError);
        cacheStatus := Failed;
      }
    }

    /** `refreshData`: removes every entry of this survey, shows the
        skeleton and fetches again. */
    method RefreshData(now: int, primary: Fetch<DetailsPayload>, fallback: Fetch<BasicPayload>, writeFits: bool)
      returns (requests: seq<Request>)
      modifies this`title, this`rawResponses, this`questionData, this`error, this`cacheStatus, this`storage, this`loading
      ensures var o := FetchOutcome(surveyId, old(responseThreshold), old(timeRange), Purge(old(storage), SurveyPrefix(surveyId)),
                                    now, primary, fallback, writeFits);
        requests == o.requests && Reflects(o, old(title), old(rawResponses), old(questionData))
      ensures !loading && (Screen().ErrorScreen? <==> cacheStatus == Failed)
    {
      ghost var o := FetchOutcome(surveyId, responseThreshold, timeRange, Purge(storage, SurveyPrefix(surveyId)),
                                  now, primary, fallback, writeFits);
      ghost var title0, raw0, data0 := title, rawResponses, questionData;
      storage := PurgeKeys(storage, SurveyPrefix(surveyId));
      cacheStatus := Loading;
      loading := true;
      requests := FetchSurveyData(now, primary, fallback, writeFits);
      assert requests == o.requests && Reflects(o, title0, raw0, data0);
    }

    /** The lines of `exportToCSV`, in order. */
    method ExportToCsv() returns (rows: seq<string>)
      ensures rows == CsvRows(questionData)
    {
      rows := [CsvHeader];
      var i := 0;
      while i < |questionData|
        invariant 0 <= i <= |questionData|
        invariant rows == [CsvHeader] + CsvBody(questionData[..i])
      {
        assert questionData[..i + 1][..i] == questionData[..i];
        rows := AppendAnswerRows(rows, questionData[i]);
        i := i + 1;
      }
      assert questionData[..i] == questionData;
    }

    /** `handleResponseThresholdChange`; the changed setting makes the
        component call `FetchSurveyData` again. */
    method SetResponseThreshold(value: nat)
      modifies this`responseThreshold
      ensures responseThreshold == value
    {
      responseThreshold := value;
    }

    /** `handleTimeRangeChange`; it too triggers a new fetch. */
    method SetTimeRange(value: string)
      modifies this`timeRange
      ensures timeRange == value
    {
      timeRange := value;
    }

    /** `handleChartTypeChange`: only the rendering changes. */
    method SetChartType(value: string)
      modifies this`chartType
      ensures chartType == value
    {
      chartType := value;
    }

    /** `clearFilters`: back to the initial settings. */
    method ClearFilters()
      modifies this`responseThreshold, this`timeRange
      ensures responseThreshold == 0 && timeRange == "7d"
    {
      responseThreshold := 0;
      timeRange := "7d";
    }
  }

  /** After a refresh, the call never serves from the cache: the primary
      endpoints are always called first. */
  lemma RefreshRefetches(id: string, threshold: nat, timeRange: string, storage: Storage, now: int,
                         primary: Fetch<DetailsPayload>, fallback: Fetch<BasicPayload>, writeFits: bool)
    ensures var o := FetchOutcome(id, threshold, timeRange, Purge(storage, SurveyPrefix(id)), now, primary, fallback, writeFits);
      o.status != Cached && |o.requests| >= 2 && o.requests[..2] == [Details, Bulk]
  {
    PurgedReadsMiss(storage, id, threshold, timeRange, now);
  }
}
