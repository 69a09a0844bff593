/** The snapshots a projection port keeps for managers that poll again too early: at most 1024 of
    them, the oldest of which gives way to a new one. */
module PollCache {
  import opened Sequences
  import opened WorkerPaging
  import opened Wrappers

  type Snapshot = seq<Entry>

  datatype Key = Key(text: string)

  datatype Cached = Cached(key: Key, at: real, snapshot: Snapshot)

  const CAPACITY := 1024

  predicate DistinctKeys(cache: seq<Cached>) {
    forall i, j | 0 <= i < j < |cache| :: cache[i].key != cache[j].key
  }

  // The dictionary in insertion order; a key that is stored again keeps its place.
  function Lookup(cache: seq<Cached>, key: Key): (r: Option<Cached>)
    ensures r.Some? ==> r.value in cache && r.value.key == key
    ensures r.None? ==> forall c | c in cache :: c.key != key
  {
    if cache == [] then None
    else if cache[0].key == key then Some(cache[0])
    else Lookup(cache[1..], key)
  }

  function Put(cache: seq<Cached>, c: Cached): seq<Cached> {
    if cache == [] then [c]
    else if cache[0].key == c.key then [c] + cache[1..]
    else [cache[0]] + Put(cache[1..], c)
  }

  // The place of the first entry with the least time.
  function Oldest(cache: seq<Cached>): (i: nat)
    requires cache != []
    ensures i < |cache| && forall k | 0 <= k < |cache| :: cache[i].at <= cache[k].at
  {
    if |cache| == 1 then 0
    else
      var i := Oldest(cache[..|cache| - 1]);
      if cache[|cache| - 1].at < cache[i].at then |cache| - 1 else i
  }

  function Store(cache: seq<Cached>, c: Cached): seq<Cached> {
    var put := Put(cache, c);
    if |put| <= CAPACITY then put else Without(put, Oldest(put))
  }

  // The snapshot that answers a poll: a cached one that is younger than the minimum interval.
  function Fresh(cache: seq<Cached>, key: Key, now: real, minimum: real): Option<Snapshot> {
    var c := Lookup(cache, key);
    if c.Some? && (if now > c.value.at then now - c.value.at else 0.0) < minimum then Some(c.value.snapshot) else None
  }

  // ---- what the cache keeps ---------------------------------------------------------------

  lemma PutDistinct(first: Cached, rest: seq<Cached>, c: Cached)
    requires DistinctKeys([first] + rest) && DistinctKeys(Put(rest, c)) && first.key != c.key
    requires forall d :: d in Put(rest, c) <==> d == c || (d in rest && d.key != c.key)
    ensures DistinctKeys([first] + Put(rest, c))
  {
    forall d | d in Put(rest, c) ensures d.key != first.key {
      if d != c {
        var j :| 0 <= j < |rest| && rest[j] == d;
        assert ([first] + rest)[j + 1] == d && ([first] + rest)[0] == first;
      }
    }
  }

  lemma {:induction false} PutMeans(cache: seq<Cached>, c: Cached)
    requires DistinctKeys(cache)
    ensures DistinctKeys(Put(cache, c)) && c in Put(cache, c)
    ensures |Put(cache, c)| == if Lookup(cache, c.key).Some? then |cache| else |cache| + 1
    ensures forall d :: d in Put(cache, c) <==> d == c || (d in cache && d.key != c.key)
  {
    if cache != [] {
      assert cache == [cache[0]] + cache[1..];
      if cache[0].key != c.key {
        PutMeans(cache[1..], c);
        PutDistinct(cache[0], cache[1..], c);
      }
    }
  }

  lemma {:induction false} LookupIsMember(cache: seq<Cached>, c: Cached)
    requires DistinctKeys(cache) && c in cache
    ensures Lookup(cache, c.key) == Some(c)
  {
    if cache[0] != c {
      assert c in cache[1..];
      var j :| 0 <= j < |cache[1..]| && cache[1..][j] == c;
      assert cache[j + 1] == c;
      LookupIsMember(cache[1..], c);
    }
  }

  lemma WithoutDistinct(cache: seq<Cached>, i: nat)
    requires DistinctKeys(cache) && i < |cache|
    ensures DistinctKeys(Without(cache, i))
    ensures forall d :: d in cache <==> d == cache[i] || d in Without(cache, i)
    ensures cache[i] !in Without(cache, i)
  {
    assert cache == cache[..i] + [cache[i]] + cache[i + 1..];
    var r := Without(cache, i);
    assert forall k | 0 <= k < |r| :: r[k] == if k < i then cache[k] else cache[k + 1];
  }

  lemma {:induction false} PutNew(cache: seq<Cached>, c: Cached)
    requires Lookup(cache, c.key) == None
    ensures Put(cache, c) == cache + [c]
  {
    if cache != [] {
      PutNew(cache[1..], c);
    }
  }

  lemma OldestIsLeast(cache: seq<Cached>)
    requires cache != []
    ensures forall d | d in cache :: cache[Oldest(cache)].at <= d.at
  {
    forall d | d in cache ensures cache[Oldest(cache)].at <= d.at {
      var k :| 0 <= k < |cache| && cache[k] == d;
    }
  }

  /** Storing keeps the cache within its bound and the new snapshot in it; with room, or for a key
      that is known, nothing else changes, and in a full cache one entry goes that no other is older
      than. Times do not run backwards. */
  lemma StoreMeans(cache: seq<Cached>, c: Cached)
    requires DistinctKeys(cache) && |cache| <= CAPACITY && forall d | d in cache :: d.at <= c.at
    ensures DistinctKeys(Store(cache, c)) && |Store(cache, c)| <= CAPACITY
    ensures |Store(cache, c)| <= |cache| + 1
    ensures |cache| < CAPACITY || Lookup(cache, c.key).Some? ==>
              forall d :: d in Store(cache, c) <==> d == c || (d in cache && d.key != c.key)
    ensures forall d :: d in Store(cache, c) ==> d == c || (d in cache && d.key != c.key)
    ensures forall d, e | d in cache && d.key != c.key && d !in Store(cache, c) && e in Store(cache, c) :: d.at <= e.at
    ensures c in Store(cache, c)
  {
    PutMeans(cache, c);
    var put := Put(cache, c);
    if |put| > CAPACITY {
      var i := Oldest(put);
      PutNew(cache, c);
      assert put[..|cache|] == cache;
      assert put[i] in cache;
      WithoutDistinct(put, i);
      OldestIsLeast(put);
    }
  }

  lemma StoreDistinct(cache: seq<Cached>, c: Cached)
    requires DistinctKeys(cache)
    ensures DistinctKeys(Store(cache, c))
  {
    PutMeans(cache, c);
    if |Put(cache, c)| > CAPACITY {
      WithoutDistinct(Put(cache, c), Oldest(Put(cache, c)));
    }
  }

  /** A cached snapshot answers until the minimum interval has passed since it was stored, and then no
      longer. */
  lemma FreshMeans(cache: seq<Cached>, key: Key, now: real, minimum: real)
    requires DistinctKeys(cache)
    ensures Fresh(cache, key, now, minimum).Some? <==>
              0.0 < minimum && exists c :: c in cache && c.key == key && now < c.at + minimum
    ensures Fresh(cache, key, now, minimum).Some? ==>
              exists c :: c in cache && c.key == key && c.snapshot == Fresh(cache, key, now, minimum).value
  {
    if c :| c in cache && c.key == key {
      LookupIsMember(cache, c);
    }
  }

  // ---- polling within the window --------------------------------------------------------------

  datatype Poll = Poll(key: Key, now: real, current: Snapshot)

  // What a poll answers from and leaves behind; current is the projection as it is at that moment.
  function Answer(cache: seq<Cached>, p: Poll, minimum: real): (Snapshot, seq<Cached>) {
    match Fresh(cache, p.key, p.now, minimum)
    case Some(s) => (s, cache)
    case None => (p.current, Store(cache, Cached(p.key, p.now, p.current)))
  }

  function Polls(cache: seq<Cached>, polls: seq<Poll>, minimum: real): (seq<Snapshot>, seq<Cached>)
    decreases |polls|
  {
    if polls == [] then ([], cache)
    else
      var (s, next) := Answer(cache, polls[0], minimum);
      var (rest, last) := Polls(next, polls[1..], minimum);
      ([s] + rest, last)
  }

  // Polls in the order of time, none after end.
  ghost predicate InOrder(polls: seq<Poll>, start: real, end: real) {
    polls == [] || (start <= polls[0].now < end && InOrder(polls[1..], polls[0].now, end))
  }

  lemma {:induction false} PollsAreAnswered(cache: seq<Cached>, polls: seq<Poll>, minimum: real)
    ensures |Polls(cache, polls, minimum).0| == |polls|
    decreases |polls|
  {
    if polls != [] {
      PollsAreAnswered(Answer(cache, polls[0], minimum).1, polls[1..], minimum);
    }
  }

  /** From a first poll until the minimum interval is over, one manager gets the same snapshot with
      every poll, whatever the projection does and whoever else polls, as long as the cache has room
      for the others: so the pages it collects meanwhile are pages of one list. */
  lemma {:induction false} WindowHolds(cache: seq<Cached>, c: Cached, polls: seq<Poll>, minimum: real, now: real, k: nat)
    requires DistinctKeys(cache) && c in cache && |cache| + |polls| <= CAPACITY
    requires c.at <= now && (forall d | d in cache :: d.at <= now) && InOrder(polls, now, c.at + minimum)
    requires k < |polls| && polls[k].key == c.key
    ensures |Polls(cache, polls, minimum).0| == |polls| && Polls(cache, polls, minimum).0[k] == c.snapshot
    decreases |polls|
  {
    var p := polls[0];
    LookupIsMember(cache, c);
    var (s, next) := Answer(cache, p, minimum);
    if p.key == c.key {
      assert s == c.snapshot && next == cache;
    } else if Fresh(cache, p.key, p.now, minimum).None? {
      StoreMeans(cache, Cached(p.key, p.now, p.current));
    }
    PollsAreAnswered(next, polls[1..], minimum);
    if k > 0 {
      WindowHolds(next, c, polls[1..], minimum, p.now, k - 1);
    }
  }

  // ---- the code -------------------------------------------------------------------------------

  class ProjectionPort {
    const minimumPollSeconds: real
    var pollResponses: seq<Cached>

    constructor (minimumPollSeconds: real)
      ensures pollResponses == []
      ensures this.minimumPollSeconds >= 0.0 && this.minimumPollSeconds >= minimumPollSeconds
      ensures this.minimumPollSeconds == 0.0 || this.minimumPollSeconds == minimumPollSeconds
    {
      this.minimumPollSeconds := if minimumPollSeconds < 0.0 then 0.0 else minimumPollSeconds;
      pollResponses := [];
    }

    method CachedPollSnapshot(key: Key, now: real) returns (r: Option<Snapshot>)
      requires DistinctKeys(pollResponses)
      ensures r.Some? <==>
                0.0 < minimumPollSeconds
                && exists c :: c in pollResponses && c.key == key && now < c.at + minimumPollSeconds
      ensures r.Some? ==> exists c :: c in pollResponses && c.key == key && c.snapshot == r.value
      ensures r == Fresh(pollResponses, key, now, minimumPollSeconds)
    {
      FreshMeans(pollResponses, key, now, minimumPollSeconds);
      var cached := Lookup(pollResponses, key);
      if cached == None {
        return None;
      }
      var elapsed := now - cached.value.at;
      if elapsed < 0.0 {
        elapsed := 0.0;
      }
      if elapsed >= minimumPollSeconds {
        return None;
      }
      r := Some(cached.value.snapshot);
    }

    method StorePollSnapshot(key: Key, now: real, snapshot: Snapshot)
      modifies this
      ensures pollResponses == Store(old(pollResponses), Cached(key, now, snapshot))
    {
      pollResponses := Put(pollResponses, Cached(key, now, snapshot));
      if |pollResponses| <= CAPACITY {
        return;
      }
      var oldest := 0;
      for k := 1 to |pollResponses|
        invariant oldest == Oldest(pollResponses[..k])
      {
        assert pollResponses[..k + 1][..k] == pollResponses[..k];
        if pollResponses[k].at < pollResponses[oldest].at {
          oldest := k;
        }
      }
      assert pollResponses[..|pollResponses|] == pollResponses;
      pollResponses := Without(pollResponses, oldest);
    }

    /** query: a page of the cached snapshot while that is too young to poll again, else a page of
        the projection as it is, which is then kept. */
    method Query(fold: string -> string, key: Key, now: real, current: Snapshot, f: Filters)
      returns (page: Page, tooEarly: bool)
      modifies this
      requires DistinctKeys(pollResponses)
      ensures DistinctKeys(pollResponses)
      ensures tooEarly <==>
                0.0 < minimumPollSeconds
                && exists c :: c in old(pollResponses) && c.key == key && now < c.at + minimumPollSeconds
      ensures tooEarly ==>
                && pollResponses == old(pollResponses)
                && exists c :: c in pollResponses && c.key == key && page == PageOf(fold, c.snapshot, f)
      ensures !tooEarly ==>
                && page == PageOf(fold, current, f)
                && pollResponses == Store(old(pollResponses), Cached(key, now, current))
      ensures page == PageOf(fold, Answer(old(pollResponses), Poll(key, now, current), minimumPollSeconds).0, f)
      ensures pollResponses == Answer(old(pollResponses), Poll(key, now, current), minimumPollSeconds).1
    {
      var cached := CachedPollSnapshot(key, now);
      var snapshot := if cached.Some? then cached.value else current;
      page := QueryResult(fold, snapshot, f);
      tooEarly := cached.Some?;
      if !tooEarly {
        StoreDistinct(pollResponses, Cached(key, now, snapshot));
        StorePollSnapshot(key, now, snapshot);
      }
    }
  }
}
