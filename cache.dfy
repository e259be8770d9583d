/** The browser-storage cache of the survey-details view: entries under
    `survey_{id}_{threshold}_{range}`, read back while younger than thirty
    whole minutes, and purged by the prefix `survey_{id}_` on refresh. */
module Cache {
  import opened Collections
  import opened Strings
  import opened SurveyModel

  /** `survey_${id}_${responseThreshold}_${timeRange}`. */
  function CacheKey(id: string, threshold: nat, timeRange: string): string {
    "survey_" + id + "_" + NatToString(threshold) + "_" + timeRange
  }

  /** `survey_${id}_`, the prefix `refreshData` purges. */
  function SurveyPrefix(id: string): string {
    "survey_" + id + "_"
  }

  /** `{ data, title, rawResponses, timestamp }`; the ISO timestamp is kept
      as milliseconds. */
  datatype CacheEntry = CacheEntry(data: seq<AggregatedQuestion>, title: string, rawResponses: seq<Response>, timestamp: int)

  /** What a stored string parses to: an entry, or something on which
      `JSON.parse` or the read of `parsed.timestamp` throws. */
  datatype Stored = Record(entry: CacheEntry) | Unparseable

  type Storage = map<string, Stored>

  /** The three ways the read at the top of `fetchSurveyData` can end. */
  datatype Lookup = Hit(entry: CacheEntry) | Miss | Corrupt

  /** `dayjs(a).diff(dayjs(b), 'minute')` for `a - b` milliseconds: whole
      minutes, truncated toward zero. */
  function WholeMinutes(ms: int): int {
    if ms >= 0 then ms / 60000 else -((-ms) / 60000)
  }

  predicate IsFresh(now: int, timestamp: int) {
    WholeMinutes(now - timestamp) < 30
  }

  /** An entry is fresh exactly while it is less than 30 minutes
      (1 800 000 ms) old; entries stamped in the future count as fresh. */
  lemma FreshWindow(now: int, timestamp: int)
    ensures IsFresh(now, timestamp) <==> now - timestamp < 1_800_000
  {
    var d := now - timestamp;
    if d >= 0 {
      assert d / 60000 < 30 <==> d < 1_800_000;
    } else {
      assert -((-d) / 60000) <= 0;
    }
  }

  /** `localStorage.getItem(cacheKey)` followed by the parse and the age test. */
  function Read(storage: Storage, key: string, now: int): (r: Lookup)
    ensures r.Hit? <==> key in storage && storage[key].Record? && IsFresh(now, storage[key].entry.timestamp)
    ensures r.Corrupt? <==> key in storage && storage[key].Unparseable?
    ensures r.Hit? ==> r.entry == storage[key].entry
  {
    if key !in storage then Miss
    else match storage[key]
      case Unparseable => Corrupt
      case Record(e) => if IsFresh(now, e.timestamp) then Hit(e) else Miss
  }

  /** Storage after `removeItem` on every key starting with `prefix`. */
  function Purge(storage: Storage, prefix: string): (r: Storage)
    ensures forall k :: k in r <==> k in storage && !StartsWith(k, prefix)
    ensures forall k :: k in r ==> r[k] == storage[k]
  {
    map k | k in storage && !StartsWith(k, prefix) :: storage[k]
  }

  // ----- key structure -----

  /** Splitting at the first `_`: two strings free of `_`, each followed by
      `_`, can only agree if they are equal and so are the rests. */
  lemma SplitAtUnderscore(a: string, x: string, b: string, y: string)
    requires Free(a, '_') && Free(b, '_')
    requires a + "_" + x == b + "_" + y
    ensures a == b && x == y
  {
    var s := a + "_" + x;
    IndexPastFree(a, '_', x);
    IndexPastFree(b, '_', y);
    assert |a| == |b|;
    assert a == s[..|a|] == b;
    assert x == s[|a| + 1..] == y;
  }

  /** A string free of `_` followed by `_` is a prefix of another such
      string followed by `_` only when the two are equal. */
  lemma PrefixAtUnderscore(a: string, b: string, rest: string)
    requires Free(a, '_') && Free(b, '_')
    requires StartsWith(b + "_" + rest, a + "_")
    ensures a == b
  {
    var s := b + "_" + rest;
    var tail := s[|a| + 1..];
    assert s == a + "_" + tail by {
      assert s[..|a| + 1] == a + "_";
    }
    SplitAtUnderscore(a, tail, b, rest);
  }

  lemma DigitsFree(n: nat)
    ensures Free(NatToString(n), '_')
  {
  }

  /** For survey ids free of `_`, different settings never share a key. */
  lemma KeyInjective(id1: string, t1: nat, r1: string, id2: string, t2: nat, r2: string)
    requires Free(id1, '_') && Free(id2, '_')
    requires CacheKey(id1, t1, r1) == CacheKey(id2, t2, r2)
    ensures id1 == id2 && t1 == t2 && r1 == r2
  {
    var p := "survey_";
    var k1 := CacheKey(id1, t1, r1);
    var rest1 := id1 + "_" + (NatToString(t1) + "_" + r1);
    var rest2 := id2 + "_" + (NatToString(t2) + "_" + r2);
    assert k1 == p + rest1;
    assert CacheKey(id2, t2, r2) == p + rest2;
    assert rest1 == k1[|p|..] == rest2;
    SplitAtUnderscore(id1, NatToString(t1) + "_" + r1, id2, NatToString(t2) + "_" + r2);
    DigitsFree(t1);
    DigitsFree(t2);
    SplitAtUnderscore(NatToString(t1), r1, NatToString(t2), r2);
    NatToStringInjective(t1, t2);
  }

  /** Every key of a survey starts with that survey's purge prefix. */
  lemma KeyHasPrefix(id: string, threshold: nat, timeRange: string)
    ensures StartsWith(CacheKey(id, threshold, timeRange), SurveyPrefix(id))
  {
    var k := CacheKey(id, threshold, timeRange);
    assert k == SurveyPrefix(id) + (NatToString(threshold) + "_" + timeRange);
    assert k[..|SurveyPrefix(id)|] == SurveyPrefix(id);
  }

  /** For ids free of `_`, the purge prefix of one survey matches the keys
      of that survey and of no other. */
  lemma PrefixIsolation(id: string, other: string, threshold: nat, timeRange: string)
    requires Free(id, '_') && Free(other, '_')
    ensures StartsWith(CacheKey(other, threshold, timeRange), SurveyPrefix(id)) <==> other == id
  {
    if other == id {
      KeyHasPrefix(id, threshold, timeRange);
    } else if StartsWith(CacheKey(other, threshold, timeRange), SurveyPrefix(id)) {
      var p := "survey_";
      var k := CacheKey(other, threshold, timeRange);
      var rest := NatToString(threshold) + "_" + timeRange;
      assert k == p + (other + "_" + rest);
      assert SurveyPrefix(id) == p + (id + "_");
      assert k[..|SurveyPrefix(id)|] == SurveyPrefix(id);
      assert (other + "_" + rest)[..|id| + 1] == k[|p|..][..|id| + 1];
      PrefixAtUnderscore(id, other, rest);
    }
  }

  /** Refreshing survey `id` removes all of its entries and leaves every
      entry of every other survey (with an id free of `_`) in place. */
  lemma PurgeIsolation(storage: Storage, id: string, other: string, threshold: nat, timeRange: string)
    requires Free(id, '_') && Free(other, '_')
    ensures CacheKey(id, threshold, timeRange) !in Purge(storage, SurveyPrefix(id))
    ensures other != id && CacheKey(other, threshold, timeRange) in storage
            ==> CacheKey(other, threshold, timeRange) in Purge(storage, SurveyPrefix(id))
                && Purge(storage, SurveyPrefix(id))[CacheKey(other, threshold, timeRange)]
                   == storage[CacheKey(other, threshold, timeRange)]
  {
    PrefixIsolation(id, id, threshold, timeRange);
    PrefixIsolation(id, other, threshold, timeRange);
  }

  /** After a purge, reading any key of the survey is a miss. */
  lemma PurgedReadsMiss(storage: Storage, id: string, threshold: nat, timeRange: string, now: int)
    ensures Read(Purge(storage, SurveyPrefix(id)), CacheKey(id, threshold, timeRange), now) == Miss
  {
    KeyHasPrefix(id, threshold, timeRange);
  }
}
