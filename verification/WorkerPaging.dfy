/** Pages of the sorted, filtered worker list, and what a client gets that follows next_cursor. */
module WorkerPaging {
  import opened ByteStrings
  import opened Ordering
  import Decimal
  import opened Wrappers

  datatype Turn = Active | Completed | Failed | OtherTurn

  datatype Worker = Worker(name: string, fleetRef: string, edgeWorkerId: string, lane: string, turn: Turn, stopped: bool)

  datatype Entry = Entry(revision: nat, worker: Worker)

  // A limit as it arrives: none or nothing that reads as a number, a number, or a numeral.
  datatype LimitArg = NoLimit | Number(i: int) | Numeral(i: int)

  /** The filters and the route of a query; cursor is the ASCII text the client sends back, or empty. */
  datatype Filters = Filters(lane: string, fleetRef: string, edgeWorkerId: string, activeOnly: bool,
                             includeStopped: bool, cursor: Bytes, limit: LimitArg)

  datatype Counts = Counts(active: nat, completed: nat, failed: nat)

  // What a page says about the whole list, and the part of the list it shows.
  datatype Totals = Totals(total: nat, counts: Counts, revision: nat)

  datatype Part = Part(workers: seq<Worker>, next: Bytes)

  datatype Page = Page(part: Part, totals: Totals)

  predicate Matches(w: Worker, f: Filters) {
    && (f.lane != "" ==> w.lane == f.lane)
    && (f.fleetRef != "" ==> w.fleetRef == f.fleetRef)
    && (f.edgeWorkerId != "" ==> w.edgeWorkerId == f.edgeWorkerId)
    && (f.activeOnly ==> w.turn.Active?)
    && (!f.includeStopped ==> !w.stopped)
  }

  function Matching(values: seq<Entry>, f: Filters): (r: seq<Entry>)
    ensures forall e | e in r :: e in values && Matches(e.worker, f)
    ensures multiset(r) <= multiset(values)
  {
    if values == [] then []
    else
      var earlier, last := values[..|values| - 1], values[|values| - 1];
      assert values == earlier + [last];
      Matching(earlier, f) + if Matches(last.worker, f) then [last] else []
  }

  /** Every entry that matches is kept as often as it is there, and no other. */
  lemma {:induction false} MatchingCounts(values: seq<Entry>, f: Filters, e: Entry)
    ensures multiset(Matching(values, f))[e] == if Matches(e.worker, f) then multiset(values)[e] else 0
  {
    if values != [] {
      var earlier, last := values[..|values| - 1], values[|values| - 1];
      MatchingCounts(earlier, f, e);
      assert values == earlier + [last];
    }
  }

  /** The filters, one by one: an empty text asks for nothing, and stopped workers are shown only when
      asked for. */
  lemma MatchesMeans(w: Worker, f: Filters)
    ensures Matches(w, f) <==>
              && (f.lane == "" || w.lane == f.lane)
              && (f.fleetRef == "" || w.fleetRef == f.fleetRef)
              && (f.edgeWorkerId == "" || w.edgeWorkerId == f.edgeWorkerId)
              && (!f.activeOnly || w.turn == Active)
              && (f.includeStopped || !w.stopped)
  {
  }

  // By case-folded name, then by reference.
  function ByName(fold: string -> string): Entry -> SortKey {
    (e: Entry) => [fold(e.worker.name), e.worker.fleetRef]
  }

  function Listed(fold: string -> string, values: seq<Entry>, f: Filters): seq<Entry> {
    SortBy(ByName(fold), Matching(values, f))
  }

  /** Each worker in front of the next by the code points of the folded name, then of the reference. */
  ghost predicate InNameOrder(fold: string -> string, workers: seq<Worker>) {
    forall i | 0 < i < |workers| ::
      var a, b := workers[i - 1], workers[i];
      if fold(a.name) == fold(b.name) then CodePointLe(a.fleetRef, b.fleetRef)
      else CodePointLe(fold(a.name), fold(b.name))
  }

  const DEFAULT_LIMIT := 50
  const MAX_LIMIT := 100

  // The number zero counts as no limit, the numeral does not; everything else goes into 1..100.
  function Limit(f: Filters): (n: nat)
    ensures 1 <= n <= MAX_LIMIT
  {
    if f.limit.NoLimit? || f.limit == Number(0) then DEFAULT_LIMIT
    else if f.limit.i < 1 then 1
    else if f.limit.i > MAX_LIMIT then MAX_LIMIT
    else f.limit.i
  }

  // A cursor that is no number, or a negative one, starts at the front.
  function Start(cursor: Bytes): nat {
    if cursor == [] then 0
    else match Decimal.Read(cursor)
      case None => 0
      case Some(i) => if i < 0 then 0 else i
  }

  // values[start : start + limit]
  function Slice<T>(values: seq<T>, start: nat, limit: nat): seq<T> {
    if start >= |values| then []
    else if start + limit >= |values| then values[start..]
    else values[start..start + limit]
  }

  function Workers(values: seq<Entry>): (r: seq<Worker>)
    ensures |r| == |values| && forall k | 0 <= k < |r| :: r[k] == values[k].worker
  {
    seq(|values|, k requires 0 <= k < |values| => values[k].worker)
  }

  lemma SortedByName(fold: string -> string, values: seq<Entry>)
    ensures InNameOrder(fold, Workers(SortBy(ByName(fold), values)))
  {
    var key := ByName(fold);
    var listed := SortBy(key, values);
    SortAscends(key, values);
    forall i | 0 < i < |listed|
      ensures var a, b := listed[i - 1].worker, listed[i].worker;
              if fold(a.name) == fold(b.name) then CodePointLe(a.fleetRef, b.fleetRef)
              else CodePointLe(fold(a.name), fold(b.name))
    {
      var a, b := listed[i - 1].worker, listed[i].worker;
      AscendingNeighbours(key, listed, i);
      KeyOfTwoMeans(fold(a.name), a.fleetRef, fold(b.name), b.fleetRef);
    }
  }

  // A stretch of a list in order is in order.
  lemma SliceInOrder(fold: string -> string, listed: seq<Entry>, start: nat, limit: nat)
    requires InNameOrder(fold, Workers(listed))
    ensures InNameOrder(fold, Workers(Slice(listed, start, limit)))
  {
    var all, page := Workers(listed), Workers(Slice(listed, start, limit));
    forall i | 0 < i < |page|
      ensures var a, b := page[i - 1], page[i];
              if fold(a.name) == fold(b.name) then CodePointLe(a.fleetRef, b.fleetRef)
              else CodePointLe(fold(a.name), fold(b.name))
    {
      assert page[i - 1] == all[start + i - 1] && page[i] == all[start + i];
    }
  }

  function CountTurn(values: seq<Entry>, t: Turn): nat {
    if values == [] then 0 else CountTurn(values[..|values| - 1], t) + if values[|values| - 1].worker.turn == t then 1 else 0
  }

  // The places in the list at which a worker's turn is t.
  function Places(values: seq<Entry>, t: Turn): set<nat> {
    set i: nat | i < |values| && values[i].worker.turn == t
  }

  lemma {:induction false} CountTurnMeans(values: seq<Entry>, t: Turn)
    ensures CountTurn(values, t) == |Places(values, t)|
  {
    if values != [] {
      var n := |values| - 1;
      var earlier := values[..n];
      CountTurnMeans(earlier, t);
      assert Places(values, t) == Places(earlier, t) + if values[n].worker.turn == t then {n} else {};
    } else {
      assert Places(values, t) == {};
    }
  }

  function MaxRevision(values: seq<Entry>): nat {
    if values == [] then 0
    else
      var last, m := values[|values| - 1], MaxRevision(values[..|values| - 1]);
      if last.revision > m then last.revision else m
  }

  /** The greatest revision in the list, zero for an empty one. */
  lemma {:induction false} MaxRevisionMeans(values: seq<Entry>)
    ensures forall e | e in values :: e.revision <= MaxRevision(values)
    ensures MaxRevision(values) == 0 || exists e :: e in values && e.revision == MaxRevision(values)
  {
    if values != [] {
      var earlier, last := values[..|values| - 1], values[|values| - 1];
      MaxRevisionMeans(earlier);
      assert values == earlier + [last];
      if last.revision <= MaxRevision(earlier) && MaxRevision(earlier) != 0 {
        var e :| e in earlier && e.revision == MaxRevision(earlier);
        assert e in values;
      } else {
        assert last in values;
      }
    }
  }

  function TotalsOf(listed: seq<Entry>): Totals {
    Totals(|listed|, Counts(CountTurn(listed, Active), CountTurn(listed, Completed), CountTurn(listed, Failed)),
           MaxRevision(listed))
  }

  function PartAt(listed: seq<Entry>, start: nat, limit: nat): Part {
    Part(Workers(Slice(listed, start, limit)), if start + limit < |listed| then Decimal.Format(start + limit) else [])
  }

  function PageOf(fold: string -> string, values: seq<Entry>, f: Filters): Page {
    var listed := Listed(fold, values, f);
    Page(PartAt(listed, Start(f.cursor), Limit(f)), TotalsOf(listed))
  }

  lemma PageInOrder(fold: string -> string, values: seq<Entry>, f: Filters)
    ensures InNameOrder(fold, PageOf(fold, values, f).part.workers)
  {
    SortedByName(fold, Matching(values, f));
    SliceInOrder(fold, Listed(fold, values, f), Start(f.cursor), Limit(f));
  }

  // The loop that keeps what the filters ask for.
  method Filter(source: seq<Entry>, f: Filters) returns (values: seq<Entry>)
    ensures values == Matching(source, f)
    ensures forall e :: multiset(values)[e] == if Matches(e.worker, f) then multiset(source)[e] else 0
  {
    values := [];
    for k := 0 to |source|
      invariant values == Matching(source[..k], f)
    {
      assert source[..k + 1][..k] == source[..k];
      if Matches(source[k].worker, f) {
        values := values + [source[k]];
      }
    }
    assert source[..|source|] == source;
    forall e: Entry ensures multiset(values)[e] == if Matches(e.worker, f) then multiset(source)[e] else 0 {
      MatchingCounts(source, f, e);
    }
  }

  method Count(values: seq<Entry>) returns (totals: Totals)
    ensures totals == TotalsOf(values)
    ensures totals.total == |values|
    ensures totals.counts.active == |set i: nat | i < |values| && values[i].worker.turn == Active|
    ensures totals.counts.completed == |set i: nat | i < |values| && values[i].worker.turn == Completed|
    ensures totals.counts.failed == |set i: nat | i < |values| && values[i].worker.turn == Failed|
    ensures forall e | e in values :: e.revision <= totals.revision
    ensures totals.revision == 0 || exists e :: e in values && e.revision == totals.revision
  {
    var active, completed, failed, revision := 0, 0, 0, 0;
    for k := 0 to |values|
      invariant revision == MaxRevision(values[..k]) && active == CountTurn(values[..k], Active)
      invariant completed == CountTurn(values[..k], Completed) && failed == CountTurn(values[..k], Failed)
    {
      assert values[..k + 1][..k] == values[..k];
      if values[k].revision > revision {
        revision := values[k].revision;
      }
      match values[k].worker.turn {
        case Active => active := active + 1;
        case Completed => completed := completed + 1;
        case Failed => failed := failed + 1;
        case OtherTurn =>
      }
    }
    assert values[..|values|] == values;
    CountTurnMeans(values, Active);
    CountTurnMeans(values, Completed);
    CountTurnMeans(values, Failed);
    MaxRevisionMeans(values);
    totals := Totals(|values|, Counts(active, completed, failed), revision);
  }

  /** _query_result: the filter, the sort, the counts and the slice. */
  method QueryResult(fold: string -> string, source: seq<Entry>, f: Filters) returns (page: Page)
    ensures page == PageOf(fold, source, f)
    ensures InNameOrder(fold, page.part.workers)
  {
    var values := Filter(source, f);
    values := SortBy(ByName(fold), values);
    var start, limit := Start(f.cursor), Limit(f);
    var totals := Count(values);
    var next := if start + limit < |values| then Decimal.Format(start + limit) else [];
    page := Page(Part(Workers(Slice(values, start, limit)), next), totals);
    PageInOrder(fold, source, f);
  }

  /** Without a readable limit a page has fifty workers at most; the numeral zero and negative limits
      count as one, but the number zero as none; nothing is above a hundred. */
  lemma LimitMeans(f: Filters, n: int)
    ensures Limit(f.(limit := NoLimit)) == Limit(f.(limit := Number(0))) == 50 && Limit(f.(limit := Numeral(0))) == 1
    ensures n < 0 ==> Limit(f.(limit := Number(n))) == Limit(f.(limit := Numeral(n))) == 1
    ensures 1 <= n <= 100 ==> Limit(f.(limit := Number(n))) == Limit(f.(limit := Numeral(n))) == n
    ensures n > 100 ==> Limit(f.(limit := Number(n))) == Limit(f.(limit := Numeral(n))) == 100
  {
  }

  /** A cursor starts at the number it reads as, at the front if it reads as none or as a negative one. */
  lemma StartMeans(n: int, cursor: Bytes)
    ensures Start(Decimal.Format(n)) == if n < 0 then 0 else n
    ensures Decimal.Read(cursor) == None || cursor == [] ==> Start(cursor) == 0
  {
    Decimal.ReadOfFormat(n);
  }

  /** A page shows the workers from its start on, up to the limit, and names the next start exactly if
      there is more. */
  lemma PageShows(fold: string -> string, values: seq<Entry>, f: Filters)
    ensures var listed, start, limit := Listed(fold, values, f), Start(f.cursor), Limit(f);
            var part := PageOf(fold, values, f).part;
            && (|part.workers| == limit || start + |part.workers| >= |listed|)
            && |part.workers| <= limit && (start <= |listed| ==> start + |part.workers| <= |listed|)
            && (start > |listed| ==> part.workers == [])
            && (forall k | 0 <= k < |part.workers| ::
                  start + k < |listed| && part.workers[k] == listed[start + k].worker)
            && (part.next == [] <==> start + limit >= |listed|)
            && (part.next != [] ==> part.next == Decimal.Format(start + limit))
  {
  }

  // ---- following the cursor ------------------------------------------------------------------

  lemma {:induction false} CursorDoesNotFilter(values: seq<Entry>, f: Filters, cursor: Bytes)
    ensures Matching(values, f.(cursor := cursor)) == Matching(values, f)
  {
    if values != [] {
      CursorDoesNotFilter(values[..|values| - 1], f, cursor);
    }
  }

  lemma NextCursor(listed: seq<Entry>, start: nat, limit: nat)
    requires limit >= 1
    ensures var next := PartAt(listed, start, limit).next;
            if start + limit < |listed| then next != [] && Start(next) == start + limit else next == []
  {
    Decimal.ReadOfFormat(start + limit);
  }

  /** The parts a client collects from a list: the one for this cursor and, as long as there is a
      next cursor, those that follow. */
  ghost function Follow(listed: seq<Entry>, limit: nat, cursor: Bytes): (parts: seq<Part>)
    requires limit >= 1
    ensures |parts| >= 1
    decreases |listed| - Start(cursor)
  {
    NextCursor(listed, Start(cursor), limit);
    var part := PartAt(listed, Start(cursor), limit);
    if part.next == [] then [part] else [part] + Follow(listed, limit, part.next)
  }

  lemma FollowAt(listed: seq<Entry>, limit: nat, cursor: Bytes, k: nat)
    requires limit >= 1 && k < |Follow(listed, limit, cursor)|
    ensures var parts, part := Follow(listed, limit, cursor), PartAt(listed, Start(cursor), limit);
            && parts[0] == part && (part.next == [] ==> |parts| == 1)
            && (part.next != [] ==> Start(part.next) > Start(cursor) && Start(part.next) < |listed|
                                    && |parts| == 1 + |Follow(listed, limit, part.next)|
                                    && (k > 0 ==> parts[k] == Follow(listed, limit, part.next)[k - 1]))
  {
    NextCursor(listed, Start(cursor), limit);
  }

  // The cursor with which the k-th part was asked for.
  ghost function CursorAt(parts: seq<Part>, cursor: Bytes, k: nat): Bytes
    requires k < |parts|
  {
    if k == 0 then cursor else parts[k - 1].next
  }

  lemma {:induction false} FollowSteps(listed: seq<Entry>, limit: nat, cursor: Bytes, k: nat)
    requires limit >= 1 && k < |Follow(listed, limit, cursor)|
    ensures var parts := Follow(listed, limit, cursor); parts[k] == PartAt(listed, Start(CursorAt(parts, cursor, k)), limit)
    decreases |listed| - Start(cursor)
  {
    FollowAt(listed, limit, cursor, k);
    if k > 0 {
      FollowAt(listed, limit, cursor, k - 1);
      FollowSteps(listed, limit, PartAt(listed, Start(cursor), limit).next, k - 1);
    }
  }

  lemma {:induction false} FollowEnds(listed: seq<Entry>, limit: nat, cursor: Bytes, k: nat)
    requires limit >= 1 && k < |Follow(listed, limit, cursor)|
    ensures Follow(listed, limit, cursor)[k].next == [] <==> k == |Follow(listed, limit, cursor)| - 1
    decreases |listed| - Start(cursor)
  {
    FollowAt(listed, limit, cursor, k);
    if k > 0 {
      FollowEnds(listed, limit, PartAt(listed, Start(cursor), limit).next, k - 1);
    }
  }

  // The parts that the queries of a client return, one after the other.
  ghost function Collect(fold: string -> string, values: seq<Entry>, f: Filters): seq<Part> {
    Follow(Listed(fold, values, f), Limit(f), [])
  }

  /** Each of them comes with the query for the cursor that the part before it gave, and with each
      come the totals, the counts and the revision of the whole list. */
  lemma CollectedByQueries(fold: string -> string, values: seq<Entry>, f: Filters, k: nat)
    requires k < |Collect(fold, values, f)|
    ensures var parts := Collect(fold, values, f);
            && PageOf(fold, values, f.(cursor := CursorAt(parts, [], k)))
               == Page(parts[k], TotalsOf(Listed(fold, values, f)))
            && (parts[k].next == [] <==> k == |parts| - 1)
  {
    var parts := Collect(fold, values, f);
    FollowSteps(Listed(fold, values, f), Limit(f), [], k);
    FollowEnds(Listed(fold, values, f), Limit(f), [], k);
    CursorDoesNotFilter(values, f, CursorAt(parts, [], k));
  }

  function Collected(parts: seq<Part>): seq<Worker> {
    if parts == [] then [] else parts[0].workers + Collected(parts[1..])
  }

  lemma Split<T>(s: seq<T>, start: nat, limit: nat)
    requires start <= |s|
    ensures s[start..] == Slice(s, start, limit) + if start + limit < |s| then s[start + limit..] else []
  {
  }

  lemma WorkersOfSlice(listed: seq<Entry>, start: nat, limit: nat)
    ensures Workers(Slice(listed, start, limit)) == Slice(Workers(listed), start, limit)
  {
  }

  lemma PartWorkers(listed: seq<Entry>, start: nat, limit: nat, later: seq<Part>)
    ensures Collected([PartAt(listed, start, limit)] + later) == Slice(Workers(listed), start, limit) + Collected(later)
  {
    WorkersOfSlice(listed, start, limit);
    assert ([PartAt(listed, start, limit)] + later)[1..] == later;
  }

  lemma {:induction false} FollowCollects(listed: seq<Entry>, limit: nat, cursor: Bytes)
    requires limit >= 1 && Start(cursor) <= |listed|
    ensures Collected(Follow(listed, limit, cursor)) == Workers(listed)[Start(cursor)..]
    decreases |listed| - Start(cursor)
  {
    var start := Start(cursor);
    var next := PartAt(listed, start, limit).next;
    Split(Workers(listed), start, limit);
    NextCursor(listed, start, limit);
    if start + limit < |listed| {
      FollowCollects(listed, limit, next);
      PartWorkers(listed, start, limit, Follow(listed, limit, next));
    } else {
      PartWorkers(listed, start, limit, []);
      assert [PartAt(listed, start, limit)] + [] == Follow(listed, limit, cursor);
    }
  }

  /** From the start, for every limit, the parts put together are the matching workers, every one
      of them as often as it is in the source, in the order of their names. */
  lemma FollowingPartitions(fold: string -> string, values: seq<Entry>, f: Filters)
    ensures Collected(Collect(fold, values, f)) == Workers(Listed(fold, values, f))
    ensures forall e :: multiset(Listed(fold, values, f))[e] == if Matches(e.worker, f) then multiset(values)[e] else 0
    ensures InNameOrder(fold, Collected(Collect(fold, values, f)))
  {
    var listed := Listed(fold, values, f);
    FollowCollects(listed, Limit(f), []);
    assert Workers(listed)[0..] == Workers(listed);
    SortedByName(fold, Matching(values, f));
    forall e: Entry ensures multiset(listed)[e] == if Matches(e.worker, f) then multiset(values)[e] else 0 {
      MatchingCounts(values, f, e);
    }
  }

  lemma PartLength(listed: seq<Entry>, start: nat, limit: nat)
    requires start <= |listed|
    ensures |PartAt(listed, start, limit).workers| == if start + limit < |listed| then limit else |listed| - start
  {
  }

  lemma {:induction false} FollowIsFull(listed: seq<Entry>, limit: nat, cursor: Bytes, k: nat)
    requires limit >= 1 && Start(cursor) <= |listed| && k < |Follow(listed, limit, cursor)|
    ensures k < |Follow(listed, limit, cursor)| - 1 ==> |Follow(listed, limit, cursor)[k].workers| == limit
    ensures Start(cursor) < |listed| ==> 0 < |Follow(listed, limit, cursor)[k].workers| <= limit
    decreases |listed| - Start(cursor)
  {
    FollowAt(listed, limit, cursor, k);
    NextCursor(listed, Start(cursor), limit);
    if k == 0 {
      PartLength(listed, Start(cursor), limit);
    } else {
      FollowIsFull(listed, limit, PartAt(listed, Start(cursor), limit).next, k - 1);
    }
  }

  /** There are just as many parts as it takes: all but the last are full, and none is empty unless
      nothing matches. */
  lemma PagesAreFull(fold: string -> string, values: seq<Entry>, f: Filters, k: nat)
    requires k < |Collect(fold, values, f)|
    ensures k < |Collect(fold, values, f)| - 1 ==> |Collect(fold, values, f)[k].workers| == Limit(f)
    ensures Listed(fold, values, f) != [] ==> 0 < |Collect(fold, values, f)[k].workers| <= Limit(f)
  {
    FollowIsFull(Listed(fold, values, f), Limit(f), [], k);
  }
}
