# Survey response aggregation — a Dafny model

This project models the part of the survey dashboard front end that turns
raw survey responses into the statistics it shows. The front end is a React
application over a SurveyMonkey-style API. It works in two views.

**Survey details view** (`SurveyDetails.js`):

- It reads a browser-storage cache entry keyed by survey, response
  threshold and time range.
- On a miss it fetches the survey structure and the responses, and filters
  the responses by time range.
- It resolves question and choice texts, and gives every answer a label by
  a prioritised rule.
- It counts answers per question and label, and computes totals and
  percentages (one decimal).
- It sorts the answers by count, drops questions below the response
  threshold, and writes the result back to the cache.
- When anything fails, it falls back to a second endpoint with simpler
  numbering and labelling. When that fails too, it shows an error.
- "Refresh" purges the survey's cache entries and fetches again.
- The current result exports as CSV.

**Dashboard** (`Dashboard.js`):

- lists surveys and filters them by title (ignoring case) and by status;
- builds search suggestions from the matching surveys, the search history
  and the popular searches;
- keeps the last ten searches, most recent first, and a popular-search
  table sorted by count and cut to five, both in local storage;
- computes the pagination bounds.

**Two chart components:**

- `SurveyChart.js` builds a pie chart of one question's raw answers, as a
  histogram of answer labels.
- `BarChartComponent.js` builds a bar chart of the aggregated answers,
  without the "No question text" label and with long axis labels truncated.

## How the model is built

- Pure computations are functions. Each is tied by lemmas to what it
  means: exact membership, order kept, sums preserved, round trips, the
  priority of the label rules.
- Every loop of the source is a method with its loop invariants. It is
  proved to compute the specifying function: responses → pages →
  questions → answers, the resolver's pages → questions → choices, the
  chart's `forEach`, the purge over storage keys and the CSV rows.
- The two views are classes whose fields are the React state. Setting a
  state variable is a field update, and each method's `modifies` clause
  lists exactly the state that handler sets.
- `fetchSurveyData` is specified by one outcome function, `FetchOutcome`.
  It covers cache hit, miss, stale entry, unparsable entry, primary
  success, failed cache write, fallback success and total failure. The
  method `FetchSurveyData` is proved to produce that outcome. The lemmas
  about the outcome state which endpoints are called, which path is taken,
  what is written to the cache and what is shown afterwards.

What the model treats as inputs:

- The network is modelled by parameters: `Fetch<T>` is either a payload or
  a failure.
- The clock is a `now` parameter in milliseconds. One reading serves the freshness test, the time-filter cutoff and the write timestamp; the source reads the clock separately for each, the last after the requests return.
- Whether `localStorage.setItem` succeeds is a `writeFits` parameter.
- The storage is a `map` field.

Some behaviour of the source that a reader might not expect, and that the
model keeps:

- The primary path's default label is the literal `'No answer'`. Only a
  label that cleans to nothing (or to `undefined`/`null`) becomes
  `'No answer provided'`.
- The question's display text is the first heading only
  (`headings?.[0]?.heading`), not the first non-empty heading.
- The resolver's counter advances for every question. An untitled question
  is therefore named after its position, not after its rank among untitled
  questions.
- On total failure the view keeps whatever question data the primary path
  had already set. The error screen hides that data; the data is not
  cleared.

## Model

| member | source | states |
|---|---|---|
| SurveyModel.FamilyOrDefault | frontend/src/components/SurveyDetails/SurveyDetails.js:362 | the answer family is never empty and is the question's own family whenever it has one |
| Strings.Trim | frontend/src/components/SurveyDetails/SurveyDetails.js:400-407 | the result is the input with only a blank start and a blank end cut off; it is empty exactly for blank strings, and a non-empty result neither starts nor ends with whitespace |
| Strings.TrimIdempotent | frontend/src/components/SurveyDetails/SurveyDetails.js:417 | trimming an already trimmed label changes nothing |
| Strings.NatToStringInjective | frontend/src/components/SurveyDetails/SurveyDetails.js:314 | distinct thresholds render as distinct decimal strings inside the cache key |
| TimeFilter.WindowLength | frontend/src/components/SurveyDetails/SurveyDetails.js:286-301 | a window exists exactly for '1d', '7d', '30d' and '1y', and it is positive |
| TimeFilter.FilterByTimeRange | frontend/src/components/SurveyDetails/SurveyDetails.js:280-307 | the filter never adds responses |
| TimeFilter.UnknownRangeIsIdentity | frontend/src/components/SurveyDetails/SurveyDetails.js:281-301 | any other time range returns the responses unchanged |
| TimeFilter.KeptExactlyWhenRecent | frontend/src/components/SurveyDetails/SurveyDetails.js:303-306 | for a known range, a response is kept if and only if it is one of the input and its modified-or-created date is strictly after the cutoff |
| TimeFilter.KeepsOrder | frontend/src/components/SurveyDetails/SurveyDetails.js:303-306 | the filter works response by response, so it keeps their order (filtering a concatenation is concatenating the filtered parts) |
| TimeFilter.ShorterWindowKeepsLess | frontend/src/components/SurveyDetails/SurveyDetails.js:286-306 | a shorter window keeps exactly what the longer one keeps, filtered again, and never more |
| LabelResolver.InfoFor | frontend/src/components/SurveyDetails/SurveyDetails.js:356-363 | a mapping entry carries the first heading, or `Question n` when it is empty, the running number n and a non-empty family |
| LabelResolver.BuildMappings | frontend/src/components/SurveyDetails/SurveyDetails.js:349-372 | the nested loops build exactly the question mapping and choice mapping of all questions in page order |
| LabelResolver.MapPage | frontend/src/components/SurveyDetails/SurveyDetails.js:355-371 | one page's loop continues the mapping, the choice map and the counter (one more than the questions visited) |
| LabelResolver.MapChoices | frontend/src/components/SurveyDetails/SurveyDetails.js:366-368 | the choice loop writes every choice id to its text in order |
| LabelResolver.VisitStep | frontend/src/components/SurveyDetails/SurveyDetails.js:356-370 | visiting one question writes its entry under its id with the next number and adds its choices |
| LabelResolver.QuestionPosition | frontend/src/components/SurveyDetails/SurveyDetails.js:354-355 | question k of page i is visited after all questions of earlier pages |
| LabelResolver.MappingKeys | frontend/src/components/SurveyDetails/SurveyDetails.js:359 | the mapping's keys are the question ids, each once, in first-visit order |
| LabelResolver.MappingLastWrite | frontend/src/components/SurveyDetails/SurveyDetails.js:359-363 | a repeated id keeps the entry of its last occurrence, numbered by that occurrence's position |
| LabelResolver.MappingAbsent | frontend/src/components/SurveyDetails/SurveyDetails.js:384 | an id no question carries has no mapping entry |
| LabelResolver.ChoiceLastWrite | frontend/src/components/SurveyDetails/SurveyDetails.js:367 | a choice id written more than once maps to its last text |
| LabelResolver.ChoiceAbsent | frontend/src/components/SurveyDetails/SurveyDetails.js:404 | an id no choice carries is not in the choice map |
| AnswerLabels.CleanLabelIsClean | frontend/src/components/SurveyDetails/SurveyDetails.js:416-420 | after clean-up a label is non-empty, trimmed, and neither 'undefined' nor 'null' |
| AnswerLabels.PrimaryLabelIsClean | frontend/src/components/SurveyDetails/SurveyDetails.js:397-420 | every label of the primary path is clean in that sense |
| AnswerLabels.CleanLabelKeeps | frontend/src/components/SurveyDetails/SurveyDetails.js:416-420 | clean-up leaves a trimmed label without a 'Choice' prefix untouched |
| AnswerLabels.TextFirst | frontend/src/components/SurveyDetails/SurveyDetails.js:400-401 | non-blank text decides the label whatever the other fields and the choice map are |
| AnswerLabels.OtherTextSecond | frontend/src/components/SurveyDetails/SurveyDetails.js:402-403 | with blank text, non-blank other text decides the label |
| AnswerLabels.MappedChoiceThird | frontend/src/components/SurveyDetails/SurveyDetails.js:404-405 | next, a choice id known to the survey structure gives that choice's text |
| AnswerLabels.RowAndUnmappedChoice | frontend/src/components/SurveyDetails/SurveyDetails.js:408-411 | a matrix cell with an unknown choice is labelled from the row text (or `Row id`) and `Option id` |
| AnswerLabels.ChoiceTextFourth | frontend/src/components/SurveyDetails/SurveyDetails.js:406-407 | with blank text and other text and no resolvable choice id, non-blank choice text decides the label, whatever the row holds |
| AnswerLabels.OptionIdSixth | frontend/src/components/SurveyDetails/SurveyDetails.js:412-413 | a choice id with no text, no resolvable choice, no choice text and no row shows as `Option id` |
| AnswerLabels.EmptyAnswerIsNoAnswer | frontend/src/components/SurveyDetails/SurveyDetails.js:396-420 | every answer whose text, other text and choice text are blank and which names no choice is labelled 'No answer', on the primary path and on the fallback path alike |
| AnswerLabels.StripChoicePrefix | frontend/src/components/SurveyDetails/SurveyDetails.js:416 | the result is a suffix of the label; when the label changes, what was dropped is `choice` in some letter case followed by a non-empty run of whitespace, and the rest does not start with whitespace |
| AnswerLabels.ChoicePrefixRemoved | frontend/src/components/SurveyDetails/SurveyDetails.js:416-419 | for every label made of `choice` in any letter case, a non-empty whitespace run and a rest not starting with whitespace, the word and the run are removed and the clean-up works on the rest alone |
| AnswerLabels.FallbackLabelNonEmpty | frontend/src/components/SurveyDetails/SurveyDetails.js:522-535 | a fallback label is never empty |
| AnswerLabels.NumberedChoiceMatches | frontend/src/components/SurveyDetails/SurveyDetails.js:534 | every `Choice`, non-empty whitespace run, non-empty digit run matches the numbered-choice pattern |
| AnswerLabels.NumberedChoiceSplits | frontend/src/components/SurveyDetails/SurveyDetails.js:534 | every match of the pattern splits into `Choice`, a non-empty whitespace run and a non-empty digit run |
| AnswerLabels.NumberedChoiceCollapses | frontend/src/components/SurveyDetails/SurveyDetails.js:522-535 | whatever field it comes from, a fallback label `Choice`, whitespace, digits collapses to 'Option' |
| AnswerLabels.FallbackOrder | frontend/src/components/SurveyDetails/SurveyDetails.js:525-532 | fallback priority: text, then other text, then choice text, then choice id; each decides once the earlier fields are blank, whatever the later fields and the row hold |
| AnswerLabels.FallbackIsPrimaryWithoutMap | frontend/src/components/SurveyDetails/SurveyDetails.js:399-413 | outside matrix cells the fallback rule is the primary rule with a survey structure that resolves nothing |
| AnswerLabels.FallbackIgnoresChoiceMap | frontend/src/components/SurveyDetails/SurveyDetails.js:522-535 | the fallback rule never consults the choice map: the same answer is 'Red' on the primary path and 'Option c1' on the fallback path |
| Aggregation.TallyResponses | frontend/src/components/SurveyDetails/SurveyDetails.js:378-426 | the response loop computes exactly the question map and type map of all response questions in visiting order |
| Aggregation.TallyResponse | frontend/src/components/SurveyDetails/SurveyDetails.js:379-425 | the page loop of one response continues that computation |
| Aggregation.TallyPage | frontend/src/components/SurveyDetails/SurveyDetails.js:380-424 | the question loop of one page continues that computation |
| Aggregation.CountInto | frontend/src/components/SurveyDetails/SurveyDetails.js:396-423 | the answer loop increments each answer's label once |
| Aggregation.TallyOfSnoc | frontend/src/components/SurveyDetails/SurveyDetails.js:380-423 | the accumulators after one more question are one step from the previous ones |
| Aggregation.CountAnswersCounts | frontend/src/components/SurveyDetails/SurveyDetails.js:422 | each label's counter goes up by exactly the number of answers with that label |
| Aggregation.CountAnswersSum | frontend/src/components/SurveyDetails/SurveyDetails.js:422 | each answer adds exactly one to the question's total |
| Aggregation.StepQuestionEffect | frontend/src/components/SurveyDetails/SurveyDetails.js:381-394 | one question creates its text's entry when new (appended), adds its answers there and leaves every other entry alone |
| Aggregation.StepQuestionCounts | frontend/src/components/SurveyDetails/SurveyDetails.js:394-423 | across one question, a label of a text goes up by that question's answers with the label only when the text is the question's |
| Aggregation.TallyKeysDistinct | frontend/src/components/SurveyDetails/SurveyDetails.js:394 | every question text is stored once |
| Aggregation.UnknownIdName | frontend/src/components/SurveyDetails/SurveyDetails.js:384-389 | a question the resolver does not know is named `Question n` with n one more than the number of texts seen so far |
| Aggregation.TallyTotal | frontend/src/components/SurveyDetails/SurveyDetails.js:378-426 | every answer is counted exactly once: all counters add up to the number of answers |
| Aggregation.TypeLastWrite | frontend/src/components/SurveyDetails/SurveyDetails.js:392 | the type of an id is the one written by its last question |
| Structuring.PercentRounding | frontend/src/components/SurveyDetails/SurveyDetails.js:435 | the shown share, in tenths of a percent, is the exact share rounded to the nearest tenth |
| Structuring.PercentAtMostHundred | frontend/src/components/SurveyDetails/SurveyDetails.js:435 | no answer shows more than 100.0% |
| Structuring.DisplayLabel | frontend/src/components/SurveyDetails/SurveyDetails.js:433 | a label is shown as itself, or as 'Unknown Answer' when empty |
| Structuring.AnswerList | frontend/src/components/SurveyDetails/SurveyDetails.js:431-436 | one answer per counter, with that counter's count and a non-empty label |
| Structuring.AnswerListSum | frontend/src/components/SurveyDetails/SurveyDetails.js:430-436 | the answers' counts add up to the question's total |
| Structuring.PercentSum | frontend/src/components/SurveyDetails/SurveyDetails.js:430-435 | the shown shares add up to 100% within half a tenth per answer |
| Structuring.SortedAnswersFacts | frontend/src/components/SurveyDetails/SurveyDetails.js:431-437 | the answers are sorted by count, descending, are a permutation of the counters' answers, and keep equal counts in insertion order |
| Structuring.FindIndex | frontend/src/components/SurveyDetails/SurveyDetails.js:440-443 | the first mapping entry whose text or `Question n` form matches, or none |
| Structuring.PrimaryTypeCases | frontend/src/components/SurveyDetails/SurveyDetails.js:440-444 | the type is 'single_choice' when no entry matches, else the recorded type of the first match |
| Structuring.StructureQuestion | frontend/src/components/SurveyDetails/SurveyDetails.js:446-451 | a result question's total is the sum of its counters and its text is its key, or 'Untitled Question' when empty |
| Structuring.StructureAll | frontend/src/components/SurveyDetails/SurveyDetails.js:429-451 | one result question per question text, in insertion order |
| Structuring.CutMembers | frontend/src/components/SurveyDetails/SurveyDetails.js:452 | a question survives exactly when its total reaches the threshold |
| Structuring.CutOrder | frontend/src/components/SurveyDetails/SurveyDetails.js:452 | the threshold cut keeps the order of the questions |
| Structuring.CutMonotone | frontend/src/components/SurveyDetails/SurveyDetails.js:452 | raising the threshold only removes questions |
| Structuring.CutZero | frontend/src/components/SurveyDetails/SurveyDetails.js:452 | a threshold of 0 keeps every question |
| Fallback.FindGroupIndex | frontend/src/components/SurveyDetails/SurveyDetails.js:509-511 | the first entry created by a question id, or none |
| Fallback.FallbackTallyOfSnoc | frontend/src/components/SurveyDetails/SurveyDetails.js:497-538 | the fallback accumulators after one more question are one step from the previous ones |
| Fallback.TallyFallback | frontend/src/components/SurveyDetails/SurveyDetails.js:490-541 | the fallback response loop computes exactly the fallback accumulators of all response questions |
| Fallback.TallyFallbackResponse | frontend/src/components/SurveyDetails/SurveyDetails.js:496-540 | the page loop of one response continues that computation |
| Fallback.TallyFallbackPage | frontend/src/components/SurveyDetails/SurveyDetails.js:497-539 | the question loop of one page continues it, with the seen set and counter |
| Fallback.CountFallbackInto | frontend/src/components/SurveyDetails/SurveyDetails.js:521-538 | the answer loop increments each fallback label once |
| Fallback.SeenAndCounter | frontend/src/components/SurveyDetails/SurveyDetails.js:492-506 | the seen set is exactly the ids of the headless questions so far, and the counter is one more than their number |
| Fallback.HeadedText | frontend/src/components/SurveyDetails/SurveyDetails.js:499-502 | a question with a heading is shown under that heading |
| Fallback.FirstSeenName | frontend/src/components/SurveyDetails/SurveyDetails.js:502-506 | the first headless question of a new id is named after the number of headless ids seen, plus one |
| Fallback.SeenIdRejoins | frontend/src/components/SurveyDetails/SurveyDetails.js:507-511 | a later headless question of a seen id joins the entry that id created |
| Fallback.FallbackStepEffect | frontend/src/components/SurveyDetails/SurveyDetails.js:515-538 | one step creates its text's entry when new with its id, adds its answers there and changes no other entry |
| Fallback.FallbackCountsSum | frontend/src/components/SurveyDetails/SurveyDetails.js:537 | each answer adds exactly one to its question's total |
| Fallback.FallbackType | frontend/src/components/SurveyDetails/SurveyDetails.js:559 | a fallback type is never empty |
| Fallback.StructureAllFallback | frontend/src/components/SurveyDetails/SurveyDetails.js:544-560 | one result question per fallback entry, in order, with its counters' total |
| Fallback.FallbackTypesPresent | frontend/src/components/SurveyDetails/SurveyDetails.js:544-561 | every fallback question carries a type |
| Cache.FreshWindow | frontend/src/components/SurveyDetails/SurveyDetails.js:319 | an entry is fresh exactly while it is less than 30 minutes (1 800 000 ms) old |
| Cache.Read | frontend/src/components/SurveyDetails/SurveyDetails.js:314-327 | a read hits exactly on a stored, parsable, fresh entry and then returns it; it is corrupt exactly on an unparsable one |
| Cache.Purge | frontend/src/components/SurveyDetails/SurveyDetails.js:579-584 | the purge removes exactly the keys with the prefix and keeps every other entry as it was |
| Cache.KeyInjective | frontend/src/components/SurveyDetails/SurveyDetails.js:314 | for ids without '_', different settings never share a cache key |
| Cache.KeyHasPrefix | frontend/src/components/SurveyDetails/SurveyDetails.js:581 | every key of a survey starts with that survey's purge prefix |
| Cache.PrefixIsolation | frontend/src/components/SurveyDetails/SurveyDetails.js:581 | for ids without '_', a survey's prefix matches another survey's key exactly when the surveys are the same |
| Cache.PurgeIsolation | frontend/src/components/SurveyDetails/SurveyDetails.js:577-584 | refreshing a survey removes all its entries and keeps every other survey's entries |
| Cache.PurgedReadsMiss | frontend/src/components/SurveyDetails/SurveyDetails.js:577-590 | after the purge, every read of that survey misses |
| SurveyDetails.OutcomeSettles | frontend/src/components/SurveyDetails/SurveyDetails.js:310-574 | every call ends in cached, fresh, fallback or error, and has an error, 'Failed to load survey details.', exactly when it ends in error |
| SurveyDetails.HitServesEntry | frontend/src/components/SurveyDetails/SurveyDetails.js:317-326 | a fresh entry is served as it is, with no request and the storage untouched |
| SurveyDetails.StaleEntryRefetches | frontend/src/components/SurveyDetails/SurveyDetails.js:317-339 | an entry 30 minutes old or older is not served: the primary endpoints are called |
| SurveyDetails.OnlyFreshWrites | frontend/src/components/SurveyDetails/SurveyDetails.js:456-464 | only the fresh path writes, exactly one entry holding the shown data, title, responses and time |
| SurveyDetails.FreshThenCached | frontend/src/components/SurveyDetails/SurveyDetails.js:314-464 | round trip: what the fresh path writes, a call within 30 minutes with the same settings serves, with no request |
| SurveyDetails.CorruptSkipsPrimary | frontend/src/components/SurveyDetails/SurveyDetails.js:317-480 | an unparsable entry sends the call straight to the fallback endpoints |
| SurveyDetails.MissPaths | frontend/src/components/SurveyDetails/SurveyDetails.js:329-570 | on a miss: fresh iff the primary succeeds and the cache write fits; fallback iff not and the fallback succeeds; error iff both fail; the endpoints called on each path |
| SurveyDetails.ScreenFor | frontend/src/components/SurveyDetails/SurveyDetails.js:806-830 | the skeleton exactly while loading, the error screen exactly when not loading and an error is set, statistics exactly when there is data and no error |
| SurveyDetails.ErrorOutlivesRetry | frontend/src/components/SurveyDetails/SurveyDetails.js:566-591 | as written, a retry that reaches fresh data still shows the error screen |
| SurveyDetails.ClearedErrorFollowsOutcome | frontend/src/components/SurveyDetails/SurveyDetails.js:817-828 | with the error cleared at the start of the call, the error screen shows exactly when the call failed |
| SurveyDetails.PercentTextInjective | frontend/src/components/SurveyDetails/SurveyDetails.js:616 | different percentages are written differently in the CSV |
| SurveyDetails.AnswerRowsFacts | frontend/src/components/SurveyDetails/SurveyDetails.js:615-617 | one CSV row per answer of a question, in answer order |
| SurveyDetails.CsvBodyLength | frontend/src/components/SurveyDetails/SurveyDetails.js:614-618 | the rows array, after its header, has one row per answer of all questions |
| SurveyDetails.CsvRowCount | frontend/src/components/SurveyDetails/SurveyDetails.js:613-618 | the rows array holds the header and one row per answer |
| SurveyDetails.CsvRowPosition | frontend/src/components/SurveyDetails/SurveyDetails.js:613-618 | in the rows array, answer k of question j sits after the header and all answers of earlier questions |
| SurveyDetails.AppendAnswerRows | frontend/src/components/SurveyDetails/SurveyDetails.js:615-617 | the inner export loop appends exactly the question's answer rows |
| SurveyDetails.ProcessPrimary | frontend/src/components/SurveyDetails/SurveyDetails.js:349-452 | the primary processing loops compute exactly the primary result of the responses |
| SurveyDetails.ProcessFallback | frontend/src/components/SurveyDetails/SurveyDetails.js:490-561 | the fallback processing loops compute exactly the fallback result |
| SurveyDetails.PurgeKeys | frontend/src/components/SurveyDetails/SurveyDetails.js:579-584 | the loop over the storage keys computes exactly the purge |
| SurveyDetails.SurveyDetailsView.constructor | frontend/src/components/SurveyDetails/SurveyDetails.js:268-277 | the initial state: loading, no error, no data, threshold 0, 'Table', '7d', idle |
| SurveyDetails.SurveyDetailsView.FetchSurveyData | frontend/src/components/SurveyDetails/SurveyDetails.js:310-574 | the call produces the outcome function's result: endpoints, status, storage, and the state it sets; then it stops loading, and the error screen shows exactly when the call failed |
| SurveyDetails.SurveyDetailsView.FetchUncached | frontend/src/components/SurveyDetails/SurveyDetails.js:329-570 | after a cache miss the call produces the outcome function's result: the fallback for a corrupt entry or a failed primary, the primary path otherwise |
| SurveyDetails.SurveyDetailsView.RunPrimary | frontend/src/components/SurveyDetails/SurveyDetails.js:341-464 | the primary path sets title, responses and data, then writes the cache or falls back when the write throws |
| SurveyDetails.SurveyDetailsView.RecoverWithFallback | frontend/src/components/SurveyDetails/SurveyDetails.js:466-570 | the catch block calls the basic endpoints and sets the fallback result, or the error |
| SurveyDetails.SurveyDetailsView.RefreshData | frontend/src/components/SurveyDetails/SurveyDetails.js:577-591 | refresh fetches from the purged storage, so it never serves from the cache |
| SurveyDetails.SurveyDetailsView.ExportToCsv | frontend/src/components/SurveyDetails/SurveyDetails.js:612-618 | the export loop produces exactly the rows array of the shown data |
| SurveyDetails.SurveyDetailsView.SetResponseThreshold | frontend/src/components/SurveyDetails/SurveyDetails.js:594-596 | sets the threshold and nothing else |
| SurveyDetails.SurveyDetailsView.SetTimeRange | frontend/src/components/SurveyDetails/SurveyDetails.js:598-600 | sets the time range and nothing else |
| SurveyDetails.SurveyDetailsView.SetChartType | frontend/src/components/SurveyDetails/SurveyDetails.js:602-604 | sets the chart type and nothing else |
| SurveyDetails.SurveyDetailsView.ClearFilters | frontend/src/components/SurveyDetails/SurveyDetails.js:768-771 | back to threshold 0 and '7d' |
| SurveyDetails.RefreshRefetches | frontend/src/components/SurveyDetails/SurveyDetails.js:577-591 | after a refresh the primary endpoints are always called first |
| SurveyChart.ChartLabel | frontend/src/components/SurveyDetails/SurveyChart.js:20 | the label is the text, else the choice id, else 'Unknown', and never empty |
| SurveyChart.AnswerCountsFacts | frontend/src/components/SurveyDetails/SurveyChart.js:18-22 | the histogram holds each label once, counts exactly its answers, contains exactly the labels that occur, and adds up to the number of answers |
| SurveyChart.ChartFacts | frontend/src/components/SurveyDetails/SurveyChart.js:14-25 | no chart exactly for a missing question, missing or empty answers; otherwise parallel distinct labels and counts that add up to the answers |
| SurveyChart.RenderChart | frontend/src/components/SurveyDetails/SurveyChart.js:13-25 | the counting loop produces exactly the specified chart |
| BarChart.BarData | frontend/src/components/SurveyDetails/BarChartComponent.js:8 | the bars are at most the answers, and none carries the 'No question text' label |
| BarChart.RenderedBars | frontend/src/components/SurveyDetails/BarChartComponent.js:4-8 | the chart renders exactly for the 'Bar' chart type |
| BarChart.BarDataKeepsOthers | frontend/src/components/SurveyDetails/BarChartComponent.js:8 | an answer is drawn exactly when it is one of the question's and has another label |
| BarChart.BarDataKeepsOrder | frontend/src/components/SurveyDetails/BarChartComponent.js:8 | the bars keep the answers' order |
| BarChart.BarDataWhole | frontend/src/components/SurveyDetails/BarChartComponent.js:8 | a question without the excluded label is drawn whole |
| BarChart.TickLabel | frontend/src/components/SurveyDetails/BarChartComponent.js:24 | labels of at most 30 characters are unchanged; longer ones are their first 30 characters and '...' |
| BarChart.TickLabelIdempotent | frontend/src/components/SurveyDetails/BarChartComponent.js:24 | formatting twice is formatting once, and no tick label is longer than 33 characters |
| Dashboard.FilterByTitle | frontend/src/components/Dashboard/Dashboard.js:96-100 | the title filter never adds surveys |
| Dashboard.TitleFilterExact | frontend/src/components/Dashboard/Dashboard.js:96-99 | a survey is kept exactly when its title contains the query, ignoring case |
| Dashboard.TitleFilterKeepsOrder | frontend/src/components/Dashboard/Dashboard.js:97-99 | the title filter keeps the surveys' order |
| Dashboard.EmptyQueryKeepsAll | frontend/src/components/Dashboard/Dashboard.js:96-100 | the empty query keeps every survey |
| Dashboard.StatusFiltered | frontend/src/components/Dashboard/Dashboard.js:235-239 | the status filter never adds surveys, and 'All' keeps the whole list |
| Dashboard.StatusFilterExact | frontend/src/components/Dashboard/Dashboard.js:238 | any other status keeps exactly the surveys with that status |
| Dashboard.SurveySuggestions | frontend/src/components/Dashboard/Dashboard.js:108-113 | one survey suggestion per survey, with its id, title and status |
| Dashboard.HistorySuggestions | frontend/src/components/Dashboard/Dashboard.js:119-123 | one history suggestion per item, with id `history-item` |
| Dashboard.PopularSuggestions | frontend/src/components/Dashboard/Dashboard.js:203-208 | one popular suggestion per entry, with id `popular-query` and its count |
| Dashboard.TypedSuggestionsShape | frontend/src/components/Dashboard/Dashboard.js:103-130 | for a non-empty query, up to eight matching surveys, then every matching history item, shown; for the empty query, none, hidden |
| Dashboard.MatchingHistoryExact | frontend/src/components/Dashboard/Dashboard.js:117-118 | a history item is suggested exactly when it contains the query, ignoring case |
| Dashboard.FocusSuggestionsShape | frontend/src/components/Dashboard/Dashboard.js:197-211 | on focus, up to three history items then up to three popular searches, shown iff any |
| Dashboard.UpdatedHistoryFacts | frontend/src/components/Dashboard/Dashboard.js:146 | the saved query heads the history and occurs there once, the rest is a prefix of the old history without it, and the history has exactly ten items, or fewer when the old history without the query has fewer than nine |
| Dashboard.SavingHeadAgain | frontend/src/components/Dashboard/Dashboard.js:146 | saving the query that heads a history of at most ten items, where it occurs only once, leaves the history unchanged |
| Dashboard.FindQuery | frontend/src/components/Dashboard/Dashboard.js:152 | the first popular entry for the query, or none |
| Dashboard.BumpCounts | frontend/src/components/Dashboard/Dashboard.js:152-158 | counting a query adds one to its first entry (or appends it with count 1), changes no other entry and adds one to the table's total |
| Dashboard.UpdatedPopularFacts | frontend/src/components/Dashboard/Dashboard.js:160-162 | the new table is the first five entries (all, when there are fewer) of the counted table sorted by count descending; that sort is a permutation of the counted table and keeps the order of equal counts |
| Dashboard.LastPageIsCeiling | frontend/src/components/Dashboard/Dashboard.js:673 | the last page is the least page count that holds every survey |
| Dashboard.DisabledControls | frontend/src/components/Dashboard/Dashboard.js:643-690 | First and Previous are disabled together, and so are Next and Last |
| Dashboard.NoSurveysEnablesNext | frontend/src/components/Dashboard/Dashboard.js:638-690 | with no surveys the last page is 0, so on page 1 Next and Last would be enabled; the list view does not show the bar then |
| Dashboard.ControlsStayInRange | frontend/src/components/Dashboard/Dashboard.js:643-690 | from a page in range, every enabled button leads to a page in range |
| Dashboard.DashboardView.constructor | frontend/src/components/Dashboard/Dashboard.js:43-57 | the initial state: no surveys, loading, '' and 'All', page 1 of 10 per page, nothing suggested |
| Dashboard.DashboardView.LoadSavedSearches | frontend/src/components/Dashboard/Dashboard.js:65-70 | the last five stored searches and the top three popular ones |
| Dashboard.DashboardView.RequestSurveys | frontend/src/components/Dashboard/Dashboard.js:79 | a request starts loading |
| Dashboard.DashboardView.SurveysLoaded | frontend/src/components/Dashboard/Dashboard.js:81-90 | success shows the page of surveys and its total; failure sets 'Failed to load surveys.'; either way loading stops |
| Dashboard.DashboardView.FilterSurveys | frontend/src/components/Dashboard/Dashboard.js:95-131 | the debounced filter shows the title-filtered surveys and the typed suggestions |
| Dashboard.DashboardView.SaveSearchToHistory | frontend/src/components/Dashboard/Dashboard.js:143-166 | a blank query changes nothing; otherwise history and popular table become their updated forms, in state and in storage |
| Dashboard.DashboardView.HandleSearchChange | frontend/src/components/Dashboard/Dashboard.js:168-173 | the typed text becomes the search text |
| Dashboard.DashboardView.HandleSearchSubmit | frontend/src/components/Dashboard/Dashboard.js:175-182 | a non-blank query is saved trimmed, hides the suggestions and becomes the search text; a blank one changes nothing |
| Dashboard.DashboardView.HandleSuggestionClick | frontend/src/components/Dashboard/Dashboard.js:184-192 | a history or popular suggestion is submitted as the search, and one with a blank title leaves history and popular table unchanged; a survey suggestion changes no search state; the suggestions are hidden |
| Dashboard.DashboardView.ClearSearch | frontend/src/components/Dashboard/Dashboard.js:220-225 | the search is empty, every survey is shown and the suggestions are hidden |
| Dashboard.DashboardView.ClearSearchHistory | frontend/src/components/Dashboard/Dashboard.js:227-231 | the history is empty in state and storage and the suggestions are hidden |
| Dashboard.DashboardView.HandleSearchFocus | frontend/src/components/Dashboard/Dashboard.js:194-213 | with an empty search, the focus suggestions are shown iff there are any; otherwise nothing changes |
| Dashboard.DashboardView.HandleStatusChange | frontend/src/components/Dashboard/Dashboard.js:233-240 | the status becomes the filter and the surveys are filtered by it |
| Dashboard.DashboardView.HandlePerPageChange | frontend/src/components/Dashboard/Dashboard.js:242-245 | a new page size restarts at page 1 |
| Dashboard.DashboardView.HandlePageChange | frontend/src/components/Dashboard/Dashboard.js:247-249 | the requested page becomes the current page |

## Left out

- Rendering: the Material UI layout, the recharts and chart.js components, the tooltips, colours and the statistics cards. Only the data each chart receives is modelled.
- `exportToImage` and the CSV download: the blob, the object URL, the file name with today's date and the snackbar involve the DOM and the clock. The lines of the file are modelled.
- `calculateStats`: it divides floating-point numbers and may divide by zero. It feeds only the summary cards.
- `TrendAnalysisChart` and the line and pie chart wrappers of the details view: rendering only.
- Concurrency: the two requests of each `Promise.all` are one input per path. Interleavings with other React updates are not modelled.
- Timers: the 200 ms debounce of the dashboard filter and the blur delay. Each debounced filter run is a separate `FilterSurveys` call.
- Routing: the access-token check and redirect to the login page, the survey navigation of a survey suggestion, and the URL `q` parameter effect with `setSearchParams`.
- Authentication, the API service module and the application shell are not part of this model.
- Calendar arithmetic: '1y' is 365 days, with no leap years, time zones or daylight saving. Dates are epoch milliseconds.
- JavaScript objects are insertion-ordered association lists. The engine's rule that integer-like keys come first is not modelled.
- The cache `timestamp` is stored as milliseconds, not as an ISO string, and JSON encoding is not modelled. A stored value is either a parsed entry or unparsable.
- Strings are sequences of characters. `toLowerCase` is modelled as ASCII-only, and the length used by the tick formatter counts characters, not UTF-16 code units.
- Structuring.PercentRounding: `toFixed(1)` on a binary float is modelled as exact rounding half up, in integer tenths of a percent. Floating-point representation ties are not modelled.
- Cache.KeyInjective: stated only for survey ids without '_'. For other ids, two settings can share a key, and a refresh can purge another survey's entries.
- Dashboard.DashboardView.HandlePerPageChange: requires a positive page size. The page-size selector offers only 10, 25 and 50.
- Dashboard.DashboardView.HandleSearchSubmit: the filter it schedules shows the typed suggestions again. That later `FilterSurveys` call is separate.
- Dashboard.DashboardView.FilterSurveys: uses the history state at the time of the call. The closure captured by the debounced function is not modelled.
- SurveyDetails.SurveyDetailsView.FetchSurveyData: models the corrected behaviour that clears the error when the call starts. The code as written is modelled by `ErrorAfter` (see Findings).
- SurveyDetails.SurveyDetailsView.ExportToCsv: models the rows array. The `rows.join('\n')` of SurveyDetails.js:619 is not modelled, and the fields are not escaped, so a question or label holding `"` or a line break changes the structure of the file.
- Aggregation.StepQuestion, Aggregation.CountAnswers, Fallback.FallbackStep, Fallback.Group, SurveyChart.AnswerCounts: the counters are association lists, not plain JavaScript objects. Keys that the object prototype already has are not modelled: a question text or label `constructor` or `toString` finds an inherited member (the question is not given its own entry, and `(obj[label] || 0) + 1` concatenates strings), and `__proto__` writes onto the prototype; on the fallback path a label `questionId` also overwrites the stored id and is lost in the destructuring. For such keys Aggregation.TallyTotal and SurveyChart.ChartFacts do not describe the source.
- `localStorage.getItem` of a missing `searchHistory` or `popularSearches` entry reads as `[]`. Malformed JSON in those entries is not modelled.

## Findings

| source | as written | input that shows it | evidently intended | confidence | as-written member | corrected member |
|---|---|---|---|---|---|---|
| frontend/src/components/SurveyDetails/SurveyDetails.js:566-591 | `fetchSurveyData` sets the error on total failure but never clears it, and the error screen takes precedence over the data | a first call where both the primary and the fallback requests fail, then "Try Again" when the primary request and the cache write succeed: the call ends 'fresh' with data, yet the view shows 'Failed to load survey details.' again | the error is cleared when a call starts, so the view shows the error screen exactly when the latest call failed | high, not executed | SurveyDetails.ErrorOutlivesRetry | SurveyDetails.ClearedErrorFollowsOutcome |
