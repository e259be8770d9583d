/** `filterResponsesByTimeRange`: keeps the responses whose effective date
    falls strictly after a cutoff of one day, seven days, thirty days or
    one year before `now`. Times are milliseconds since the epoch and
    `now` is an input. */
module TimeFilter {
  import opened Collections
  import opened SurveyModel

  const MillisPerDay: int := 86_400_000

  /** The length of each recognised window; `None` for any other value. */
  function WindowLength(timeRange: string): (w: Option<int>)
    ensures w.Some? ==> w.value > 0
    ensures w.Some? <==> timeRange in {"1d", "7d", "30d", "1y"}
  {
    if timeRange == "1d" then Some(MillisPerDay)
    else if timeRange == "7d" then Some(7 * MillisPerDay)
    else if timeRange == "30d" then Some(30 * MillisPerDay)
    else if timeRange == "1y" then Some(365 * MillisPerDay)
    else None
  }

  /** `dayjs(response.date_modified || response.date_created)`; with
      neither date, dayjs reads the current time. */
  function EffectiveDate(r: Response, now: int): int {
    match r.dateModified
    case Some(t) => t
    case None =>
      match r.dateCreated
      case Some(t) => t
      case None => now
  }

  /** `responseDate.isAfter(cutoffDate)`. */
  predicate After(r: Response, now: int, cutoff: int) {
    EffectiveDate(r, now) > cutoff
  }

  function FilterByTimeRange(responses: seq<Response>, timeRange: string, now: int): (kept: seq<Response>)
    ensures |kept| <= |responses|
  {
    if |responses| == 0 then responses
    else
      match WindowLength(timeRange)
      case None => responses
      case Some(w) => Filter(responses, r => After(r, now, now - w))
  }

  /** An unrecognised time range leaves the responses as they are. */
  lemma UnknownRangeIsIdentity(responses: seq<Response>, timeRange: string, now: int)
    requires timeRange !in {"1d", "7d", "30d", "1y"}
    ensures FilterByTimeRange(responses, timeRange, now) == responses
  {
  }

  /** For a recognised range, a response is kept exactly when its effective
      date is strictly after `now` minus the window. */
  lemma KeptExactlyWhenRecent(responses: seq<Response>, timeRange: string, now: int, r: Response)
    requires WindowLength(timeRange).Some?
    ensures r in FilterByTimeRange(responses, timeRange, now)
        <==> r in responses && EffectiveDate(r, now) > now - WindowLength(timeRange).value
  {
    var w := WindowLength(timeRange).value;
    if |responses| > 0 {
      FilterMembers(responses, x => After(x, now, now - w), r);
    }
  }

  /** The filter works response by response and keeps the original order:
      filtering a concatenation is concatenating the filtered parts. */
  lemma KeepsOrder(a: seq<Response>, b: seq<Response>, timeRange: string, now: int)
    ensures FilterByTimeRange(a + b, timeRange, now)
         == FilterByTimeRange(a, timeRange, now) + FilterByTimeRange(b, timeRange, now)
  {
    match WindowLength(timeRange)
    case None =>
    case Some(w) =>
      FilterAppend(a, b, x => After(x, now, now - w));
      if a == [] {
        assert a + b == b;
      }
      if b == [] {
        assert a + b == a;
      }
  }

  /** The windows are nested: a shorter window keeps what the longer one
      keeps filtered once more, so never more responses. */
  lemma ShorterWindowKeepsLess(responses: seq<Response>, shorter: string, longer: string, now: int)
    requires WindowLength(shorter).Some? && WindowLength(longer).Some?
    requires WindowLength(shorter).value <= WindowLength(longer).value
    ensures FilterByTimeRange(responses, shorter, now)
         == FilterByTimeRange(FilterByTimeRange(responses, longer, now), shorter, now)
    ensures |FilterByTimeRange(responses, shorter, now)| <= |FilterByTimeRange(responses, longer, now)|
  {
    var ws, wl := WindowLength(shorter).value, WindowLength(longer).value;
    if |responses| > 0 {
      FilterNarrow(responses, x => After(x, now, now - wl), x => After(x, now, now - ws));
    }
  }
}
