/** Duplicate detection with a one-entry result cache.

    A duplicate scan of the whole collection is slow, so its last result is
    kept in durable browser storage together with the time it was made and
    the threshold it was made for. The entry is fresh for 24 hours and only
    for that threshold; a stale entry is not deleted, only bypassed until the
    next successful scan overwrites it. Time is a millisecond clock reading
    passed in by the caller. */
module FindDuplicates {
  import opened Api

  /** How long a cached scan stays usable, in milliseconds (24 hours). */
  const CACHE_EXPIRY: int := 24 * 60 * 60 * 1000
  /** The threshold slider's initial position. */
  const DEFAULT_THRESHOLD: real := 0.9

  /** One side of a duplicate pair. */
  datatype TaskRef = TaskRef(id: int, subject: string, description: string)

  /** A pair of tasks the backend considers near-duplicates. */
  datatype DuplicatePair = DuplicatePair(task1: TaskRef, task2: TaskRef, similarity: real)

  /** A row of the find-duplicates response: [id1, id2, similarity, subject1, subject2]. */
  type DuplicateTuple = (int, int, real, string, string)

  /** The durable cache entry. */
  datatype CachedData = CachedData(duplicates: seq<DuplicatePair>, timestamp: int, threshold: real)

  /** An entry may be used at `now` for `threshold`. */
  predicate IsFresh(entry: CachedData, now: int, threshold: real) {
    now - entry.timestamp < CACHE_EXPIRY && entry.threshold == threshold
  }

  /** The duplicates the stored entry offers at `now` for `threshold`: there
      are some exactly when an entry exists, is younger than a day and was
      made for that very threshold. */
  function FreshDuplicates(stored: Option<CachedData>, now: int, threshold: real): (r: Option<seq<DuplicatePair>>)
    ensures r.Some? <==>
      stored.Some? && now - stored.value.timestamp < 86_400_000 && stored.value.threshold == threshold
    ensures r.Some? ==> r.value == stored.value.duplicates
  {
    if stored.Some? && IsFresh(stored.value, now, threshold) then Some(stored.value.duplicates) else None
  }

  /** An entry written at `timestamp` serves its own threshold at every
      reading of the clock before a day later, and no other threshold. There
      is no lower bound: a clock reading earlier than the timestamp still
      finds the entry fresh. */
  lemma FreshUntilExpiry(duplicates: seq<DuplicatePair>, timestamp: int, threshold: real, now: int, requested: real)
    ensures FreshDuplicates(Some(CachedData(duplicates, timestamp, threshold)), now, requested) ==
      if requested == threshold && now < timestamp + 86_400_000 then Some(duplicates) else None
  {
  }

  /** One response row as a pair; the endpoint sends no descriptions. */
  function ToPair(item: DuplicateTuple): DuplicatePair {
    DuplicatePair(TaskRef(item.0, item.3, ""), TaskRef(item.1, item.4, ""), item.2)
  }

  /** The response rows as pairs, in the order the backend sent them. */
  function FormatDuplicates(rows: seq<DuplicateTuple>): (r: seq<DuplicatePair>)
    ensures |r| == |rows|
    ensures forall i :: 0 <= i < |rows| ==>
      r[i].task1 == TaskRef(rows[i].0, rows[i].3, "") &&
      r[i].task2 == TaskRef(rows[i].1, rows[i].4, "") &&
      r[i].similarity == rows[i].2
  {
    if rows == [] then [] else [ToPair(rows[0])] + FormatDuplicates(rows[1..])
  }

  /** A pair back in the endpoint's positional form. */
  function ToTuple(pair: DuplicatePair): DuplicateTuple {
    (pair.task1.id, pair.task2.id, pair.similarity, pair.task1.subject, pair.task2.subject)
  }

  /** Pairs back in the endpoint's positional form, in order. */
  function Tuples(pairs: seq<DuplicatePair>): (r: seq<DuplicateTuple>)
    ensures |r| == |pairs|
  {
    if pairs == [] then [] else [ToTuple(pairs[0])] + Tuples(pairs[1..])
  }

  /** Every pair the scan displays has empty descriptions. */
  predicate WithoutDescriptions(pairs: seq<DuplicatePair>) {
    forall i :: 0 <= i < |pairs| ==> pairs[i].task1.description == "" && pairs[i].task2.description == ""
  }

  /** Formatting loses nothing the backend sent: the rows can be read back. */
  lemma {:induction false} FormatThenTuples(rows: seq<DuplicateTuple>)
    ensures Tuples(FormatDuplicates(rows)) == rows
  {
    if rows != [] {
      FormatThenTuples(rows[1..]);
    }
  }

  /** Formatting yields exactly the pairs without descriptions: every such
      list is the formatting of its own positional rows. */
  lemma {:induction false} TuplesThenFormat(pairs: seq<DuplicatePair>)
    ensures WithoutDescriptions(pairs) <==> FormatDuplicates(Tuples(pairs)) == pairs
  {
    if pairs != [] {
      TuplesThenFormat(pairs[1..]);
      if WithoutDescriptions(pairs) {
        assert WithoutDescriptions(pairs[1..]) by {
          forall i | 0 <= i < |pairs[1..]|
            ensures pairs[1..][i].task1.description == "" && pairs[1..][i].task2.description == ""
          {
            assert pairs[1..][i] == pairs[i + 1];
          }
        }
      }
    }
  }

  /** The browser's durable storage slot for the cache. */
  class LocalStore {
    var entry: Option<CachedData>

    constructor (entry: Option<CachedData>)
      ensures this.entry == entry
    {
      this.entry := entry;
    }
  }

  /** The duplicate-finder screen: threshold slider, cache switch, the
      duplicates on display, the busy flag, and the storage it reads. */
  class Finder {
    const store: LocalStore
    var threshold: real
    var duplicates: seq<DuplicatePair>
    var loading: bool
    var useCachedData: bool

    /** The screen opens at the default threshold with the cache switch on;
        a fresh entry for that threshold is displayed at once. */
    constructor (store: LocalStore, now: int)
      ensures this.store == store
      ensures threshold == DEFAULT_THRESHOLD && useCachedData && !loading
      ensures duplicates == FreshDuplicates(store.entry, now, DEFAULT_THRESHOLD).GetOr([])
    {
      this.store := store;
      threshold := DEFAULT_THRESHOLD;
      useCachedData := true;
      loading := false;
      duplicates := [];
      new;
      ShowFreshEntry(now);
    }

    /** The effect that runs on opening and on each threshold change: a
        fresh entry for the current threshold replaces the display; a
        missing or unusable one leaves the display as it was. */
    method ShowFreshEntry(now: int)
      modifies this
      ensures duplicates == FreshDuplicates(store.entry, now, threshold).GetOr(old(duplicates))
      ensures threshold == old(threshold) && useCachedData == old(useCachedData) && loading == old(loading)
    {
      var cached := FreshDuplicates(store.entry, now, threshold);
      if cached.Some? {
        duplicates := cached.value;
      }
    }

    /** The slider moves to `t`. Only a changed value re-runs the effect;
        the storage is never written. */
    method SetThreshold(t: real, now: int)
      modifies this
      ensures threshold == t && useCachedData == old(useCachedData) && loading == old(loading)
      ensures duplicates ==
        if t != old(threshold) then FreshDuplicates(store.entry, now, t).GetOr(old(duplicates))
        else old(duplicates)
    {
      if t != threshold {
        threshold := t;
        ShowFreshEntry(now);
      }
    }

    /** The cache switch is set. */
    method SetUseCachedData(useCache: bool)
      modifies this
      ensures useCachedData == useCache
      ensures threshold == old(threshold) && duplicates == old(duplicates) && loading == old(loading)
    {
      useCachedData := useCache;
    }

    /** The search button. With the switch on and a fresh entry the cached
        duplicates are displayed and nothing is called or written. Otherwise
        the scan is called for the current threshold; its rows are formatted,
        displayed and stored with the completion time `completedAt`. A failed
        scan changes neither the display nor the storage. The busy flag is
        off again on every path. */
    method HandleSearch(now: int, response: Response<seq<DuplicateTuple>>, completedAt: int)
      returns (call: Option<Call>)
      modifies this, store
      ensures !loading && threshold == old(threshold) && useCachedData == old(useCachedData)
      ensures var hit := if useCachedData then FreshDuplicates(old(store.entry), now, threshold) else None;
        (hit.Some? ==> call == None && duplicates == hit.value && store.entry == old(store.entry)) &&
        (hit.None? ==> call == Some(FindDuplicates(threshold)))
      ensures call.Some? && response.Ok? ==>
        duplicates == FormatDuplicates(response.data) &&
        store.entry == Some(CachedData(duplicates, completedAt, threshold))
      ensures call.Some? && response.Err? ==>
        duplicates == old(duplicates) && store.entry == old(store.entry)
    {
      loading := true;
      if useCachedData {
        var cached := FreshDuplicates(store.entry, now, threshold);
        if cached.Some? {
          duplicates := cached.value;
          loading := false;
          return None;
        }
      }
      call := Some(FindDuplicates(threshold));
      if response.Ok? {
        var formatted := FormatDuplicates(response.data);
        duplicates := formatted;
        store.entry := Some(CachedData(formatted, completedAt, threshold));
      }
      loading := false;
    }
  }

  /** Two searches against an entry for threshold 0.9 written an hour ago:
      at 0.9 the cached pairs are displayed without a call; after the slider
      moves to 0.8 the scan is called and the entry is overwritten for 0.8. */
  method CacheScenario(now: int, cached: seq<DuplicatePair>, rows: seq<DuplicateTuple>)
    returns (first: Option<Call>, shown: seq<DuplicatePair>, second: Option<Call>, stored: Option<CachedData>)
    ensures first == None && shown == cached
    ensures second == Some(FindDuplicates(0.8))
    ensures stored == Some(CachedData(FormatDuplicates(rows), now, 0.8))
  {
    var store := new LocalStore(Some(CachedData(cached, now - 60 * 60 * 1000, 0.9)));
    var finder := new Finder(store, now);
    first := finder.HandleSearch(now, Ok([]), now);
    shown := finder.duplicates;
    finder.SetThreshold(0.8, now);
    second := finder.HandleSearch(now, Ok(rows), now);
    stored := store.entry;
  }

  /** A scan that completes at `done` writes an entry that is fresh at once:
      a second search at `done` for the same threshold, with the cache switch
      on, makes no call and shows the pairs just formatted. */
  method FreshWriteScenario(now: int, rows: seq<DuplicateTuple>, done: int)
    returns (first: Option<Call>, second: Option<Call>, shown: seq<DuplicatePair>)
    ensures first == Some(FindDuplicates(DEFAULT_THRESHOLD))
    ensures second == None && shown == FormatDuplicates(rows)
  {
    var store := new LocalStore(None);
    var finder := new Finder(store, now);
    first := finder.HandleSearch(now, Ok(rows), done);
    second := finder.HandleSearch(done, Err, done);
    shown := finder.duplicates;
  }

  /** An entry for threshold 0.9 written 25 hours ago is stale: the search
      calls the scan even with the cache switch on. */
  method StaleScenario(now: int, cached: seq<DuplicatePair>) returns (call: Option<Call>)
    ensures call == Some(FindDuplicates(0.9))
  {
    var store := new LocalStore(Some(CachedData(cached, now - 25 * 60 * 60 * 1000, 0.9)));
    var finder := new Finder(store, now);
    call := finder.HandleSearch(now, Err, now);
  }
}
