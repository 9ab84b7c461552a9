/**
 The replay of the CQL store. A page reads the high water first and then one partition after
 another, each with its own query, so every read sees the store of its own moment.
 */
module CqlReplay {
  import opened Wrappers
  import opened ControlTypes
  import opened Arithmetic
  import opened Replay

  /** What one query of a partition meets: the events stored at that moment, or an error. */
  datatype View = Stored(events: map<nat, Event>) | QueryFails

  /**
   The reads of one page. `surplus` is how many rows beyond the literal limit the engine
   returns for each partition it is asked about: it need not honour the limit.
   */
  datatype Queries = Queries(highWater: Option<nat>, view: nat -> View, surplus: nat -> nat)

  // ---------------------------------------------------------------- the page

  /** How many more rows this page may take, or None when it is full. */
  function ReplayRemaining(fetchLimit: nat, collected: nat): Result<Option<nat>, ControlError> {
    if fetchLimit <= collected then Ok(None)
    else if fetchLimit - collected > I32_MAX then Err(IntegerOutOfRange)
    else Ok(Some(fetchLimit - collected))
  }

  /** The rows of one partition past `lower`, in the clustering order of the table. */
  function BucketRows(events: map<nat, Event>, bucket: nat, lower: nat): seq<Event> {
    EventsIn(events, Max(lower, bucket * CURSOR_BUCKET_SIZE), (bucket + 1) * CURSOR_BUCKET_SIZE)
  }

  function BucketOf(cursor: nat): nat {
    if cursor == 0 then 0 else (cursor - 1) / CURSOR_BUCKET_SIZE
  }

  /** The last cursor of the partition that holds `cursor`. */
  function BucketEnd(cursor: nat): nat {
    (BucketOf(cursor) + 1) * CURSOR_BUCKET_SIZE
  }

  function ViewAt(view: nat -> View, cursor: nat): map<nat, Event> {
    if view(BucketOf(cursor)).Stored? then view(BucketOf(cursor)).events else map[]
  }

  /** Each event as the query of its own partition sees it. */
  ghost function Seen(view: nat -> View, bound: nat): map<nat, Event> {
    map c | 1 <= c <= bound && c in ViewAt(view, c) :: ViewAt(view, c)[c]
  }

  /** The scan a page makes: whole partitions, up to the one that holds the high water. */
  ghost function Scan(view: nat -> View, after: nat, highWater: nat): seq<Event> {
    if after < highWater then EventsIn(Seen(view, BucketEnd(highWater)), after, BucketEnd(highWater)) else []
  }

  /** A query fails that the page gets to, because what comes before it leaves the page short. */
  ghost predicate PageFails(view: nat -> View, after: nat, highWater: nat, limit: nat) {
    exists b: nat :: FailsAt(view, after, highWater, limit, b)
  }

  ghost predicate FailsAt(view: nat -> View, after: nat, highWater: nat, limit: nat, b: nat) {
    && after < highWater && BucketOf(after + 1) <= b <= BucketOf(highWater) && view(b).QueryFails?
    && |EventsIn(Seen(view, BucketEnd(highWater)), after, Max(after, b * CURSOR_BUCKET_SIZE))| <= limit
  }

  /** Events collected so far: all of the first partitions, or already more than a full page. */
  ghost predicate Collected(events: map<nat, Event>, after: nat, bound: nat, collected: seq<Event>, fetchLimit: nat) {
    && collected <= EventsIn(events, after, bound)
    && (|collected| < fetchLimit ==> collected == EventsIn(events, after, bound))
  }

  lemma CollectNextBucket(
      events: map<nat, Event>, after: nat, bucket: nat, collected: seq<Event>, fetchLimit: nat, rows: seq<Event>)
    requires after <= (bucket + 1) * CURSOR_BUCKET_SIZE && |collected| < fetchLimit
    requires var lower := Max(after, bucket * CURSOR_BUCKET_SIZE);
             && Collected(events, after, lower, collected, fetchLimit)
             && rows <= BucketRows(events, bucket, lower)
             && (|rows| < fetchLimit - |collected| ==> rows == BucketRows(events, bucket, lower))
    ensures Collected(events, after, (bucket + 1) * CURSOR_BUCKET_SIZE, collected + rows, fetchLimit)
  {
    var lower := Max(after, bucket * CURSOR_BUCKET_SIZE);
    EventsInSplit(events, after, lower, (bucket + 1) * CURSOR_BUCKET_SIZE);
  }

  lemma {:induction false} SameEventsIn(a: map<nat, Event>, b: map<nat, Event>, lo: nat, hi: nat)
    requires forall c: nat :: lo < c <= hi ==> (c in a <==> c in b) && (c in a ==> a[c] == b[c])
    ensures EventsIn(a, lo, hi) == EventsIn(b, lo, hi)
    decreases hi
  {
    if lo < hi {
      SameEventsIn(a, b, lo, hi - 1);
    }
  }

  lemma {:induction false} CursorInBucket(c: nat, bucket: nat)
    requires bucket * CURSOR_BUCKET_SIZE < c <= (bucket + 1) * CURSOR_BUCKET_SIZE
    ensures BucketOf(c) == bucket
  {
    QuotientIs(c - 1, CURSOR_BUCKET_SIZE, bucket, c - 1 - bucket * CURSOR_BUCKET_SIZE);
  }

  /** What the query of a partition returns is what is seen of it. */
  lemma {:induction false} RowsAreSeen(view: nat -> View, bucket: nat, lower: nat, highWater: nat)
    requires view(bucket).Stored? && bucket <= BucketOf(highWater)
    ensures BucketRows(view(bucket).events, bucket, lower) ==
            BucketRows(Seen(view, BucketEnd(highWater)), bucket, lower)
  {
    var bound := BucketEnd(highWater);
    MultiplyMonotone(bucket + 1, BucketOf(highWater) + 1, CURSOR_BUCKET_SIZE);
    var lo := Max(lower, bucket * CURSOR_BUCKET_SIZE);
    forall c: nat | lo < c <= (bucket + 1) * CURSOR_BUCKET_SIZE
      ensures var seen, own := Seen(view, bound), view(bucket).events;
              (c in own <==> c in seen) && (c in own ==> own[c] == seen[c])
    {
      CursorInBucket(c, bucket);
    }
    SameEventsIn(view(bucket).events, Seen(view, bound), lo, (bucket + 1) * CURSOR_BUCKET_SIZE);
  }

  /** A scan that stopped early because the page was full gives the page of the whole scan. */
  lemma {:induction false} PageOfCollected(
      seen: map<nat, Event>, after: nat, reached: nat, bound: nat, collected: seq<Event>, highWater: nat, limit: nat)
    requires 0 < limit && after <= reached <= bound && Collected(seen, after, reached, collected, limit + 1)
    requires reached == bound || |collected| > limit
    ensures PageFrom(collected, highWater, limit) == PageFrom(EventsIn(seen, after, bound), highWater, limit)
  {
    EventsInSplit(seen, after, reached, bound);
    var whole := EventsIn(seen, after, bound);
    if |collected| > limit {
      assert collected <= whole;
      assert collected[limit - 1] == whole[limit - 1];
      assert collected[..limit] == whole[..limit];
    }
  }

  lemma {:induction false} NoFailureWasMet(
      view: nat -> View, after: nat, highWater: nat, bucket: nat, collected: seq<Event>, limit: nat)
    requires after < highWater && BucketOf(after + 1) <= bucket <= BucketOf(highWater) + 1
    requires forall b: nat :: BucketOf(after + 1) <= b < bucket ==> view(b).Stored?
    requires Collected(Seen(view, BucketEnd(highWater)), after, Max(after, bucket * CURSOR_BUCKET_SIZE),
                       collected, limit + 1)
    requires bucket == BucketOf(highWater) + 1 || |collected| > limit
    ensures !PageFails(view, after, highWater, limit)
  {
    var seen := Seen(view, BucketEnd(highWater));
    if b: nat :| FailsAt(view, after, highWater, limit, b) {
      MultiplyMonotone(bucket, b, CURSOR_BUCKET_SIZE);
      EventsInSplit(seen, after, Max(after, bucket * CURSOR_BUCKET_SIZE), Max(after, b * CURSOR_BUCKET_SIZE));
    }
  }

  lemma {:induction false} BucketBounds(after: nat, highWater: nat)
    requires after < highWater
    ensures BucketOf(after + 1) * CURSOR_BUCKET_SIZE <= after < BucketEnd(after + 1)
    ensures highWater <= BucketEnd(highWater)
    ensures BucketOf(after + 1) <= BucketOf(highWater)
  {
  }

  /** Where the query of a partition starts: past `after` in the first one, at its start in the others. */
  function LowerOf(after: nat, bucket: nat): nat {
    if bucket == BucketOf(after + 1) then after else bucket * CURSOR_BUCKET_SIZE
  }

  lemma {:induction false} LowerIsMax(after: nat, bucket: nat)
    requires BucketOf(after + 1) <= bucket
    ensures LowerOf(after, bucket) == Max(after, bucket * CURSOR_BUCKET_SIZE)
    ensures after <= (bucket + 1) * CURSOR_BUCKET_SIZE
  {
    BucketBounds(after, after + 1);
    MultiplyMonotone(BucketOf(after + 1), bucket, CURSOR_BUCKET_SIZE);
    if BucketOf(after + 1) < bucket {
      MultiplyMonotone(BucketOf(after + 1) + 1, bucket, CURSOR_BUCKET_SIZE);
    }
  }

  lemma {:induction false} OneMoreBucket(
      view: nat -> View, after: nat, highWater: nat, bucket: nat, collected: seq<Event>, fetchLimit: nat,
      surplus: nat, rows: seq<Event>)
    requires BucketOf(after + 1) <= bucket <= BucketOf(highWater) && view(bucket).Stored?
    requires var seen := Seen(view, BucketEnd(highWater));
             Collected(seen, after, Max(after, bucket * CURSOR_BUCKET_SIZE), collected, fetchLimit)
    requires |collected| < fetchLimit
    requires rows == Truncate(BucketRows(view(bucket).events, bucket, LowerOf(after, bucket)),
                              fetchLimit - |collected| + surplus)
    ensures var seen := Seen(view, BucketEnd(highWater));
            Collected(seen, after, Max(after, (bucket + 1) * CURSOR_BUCKET_SIZE), collected + rows, fetchLimit)
  {
    LowerIsMax(after, bucket);
    RowsAreSeen(view, bucket, LowerOf(after, bucket), highWater);
    CollectNextBucket(Seen(view, BucketEnd(highWater)), after, bucket, collected, fetchLimit, rows);
  }

  /** What the bucket loop keeps: the buckets before `bucket` answered, and their events are collected. */
  ghost predicate ReadUpTo(
      view: nat -> View, after: nat, highWater: nat, bucket: nat, events: seq<Event>, fetchLimit: nat)
  {
    && BucketOf(after + 1) <= bucket <= BucketOf(highWater) + 1
    && (forall b: nat :: BucketOf(after + 1) <= b < bucket ==> view(b).Stored?)
    && Collected(Seen(view, BucketEnd(highWater)), after, Max(after, bucket * CURSOR_BUCKET_SIZE), events, fetchLimit)
  }

  lemma {:induction false} ReadStarts(
      view: nat -> View, after: nat, highWater: nat, bucket: nat, events: seq<Event>, fetchLimit: nat)
    requires after < highWater && bucket == BucketOf(after + 1) && events == []
    ensures ReadUpTo(view, after, highWater, bucket, events, fetchLimit)
  {
    BucketBounds(after, highWater);
  }

  lemma {:induction false} ReadOneMore(
      view: nat -> View, after: nat, highWater: nat, bucket: nat, events: seq<Event>, fetchLimit: nat,
      surplus: nat, rows: seq<Event>)
    requires ReadUpTo(view, after, highWater, bucket, events, fetchLimit) && bucket <= BucketOf(highWater)
    requires |events| < fetchLimit && view(bucket).Stored?
    requires rows == Truncate(BucketRows(view(bucket).events, bucket, LowerOf(after, bucket)),
                              fetchLimit - |events| + surplus)
    ensures ReadUpTo(view, after, highWater, bucket + 1, events + rows, fetchLimit)
  {
    OneMoreBucket(view, after, highWater, bucket, events, fetchLimit, surplus, rows);
  }

  lemma {:induction false} ReadFails(
      view: nat -> View, after: nat, highWater: nat, bucket: nat, events: seq<Event>, limit: nat)
    requires ReadUpTo(view, after, highWater, bucket, events, limit + 1) && bucket <= BucketOf(highWater)
    requires after < highWater && |events| <= limit && view(bucket).QueryFails?
    ensures PageFails(view, after, highWater, limit)
  {
    assert FailsAt(view, after, highWater, limit, bucket);
  }

  lemma {:induction false} ReadEnds(
      view: nat -> View, after: nat, highWater: nat, bucket: nat, events: seq<Event>, limit: nat)
    requires ReadUpTo(view, after, highWater, bucket, events, limit + 1) && after < highWater && 0 < limit
    requires bucket == BucketOf(highWater) + 1 || |events| > limit
    ensures !PageFails(view, after, highWater, limit)
    ensures PageFrom(events, highWater, limit) == PageFrom(Scan(view, after, highWater), highWater, limit)
  {
    NoFailureWasMet(view, after, highWater, bucket, events, limit);
    BucketBounds(after, highWater);
    MultiplyMonotone(bucket, BucketOf(highWater) + 1, CURSOR_BUCKET_SIZE);
    PageOfCollected(Seen(view, BucketEnd(highWater)), after, Max(after, bucket * CURSOR_BUCKET_SIZE),
                    BucketEnd(highWater), events, highWater, limit);
  }

  /** The query of one partition, for as many rows as the page still has room for. */
  method QueryBucket(view: nat -> View, surplus: nat, after: nat, ghost highWater: nat, bucket: nat,
                     events: seq<Event>, limit: nat)
    returns (rows: Result<seq<Event>, ControlError>)
    requires 0 < limit < I32_MAX && after < highWater && bucket <= BucketOf(highWater) && |events| <= limit
    requires ReadUpTo(view, after, highWater, bucket, events, limit + 1)
    ensures rows.Err? ==> rows.error == StoreFailure && PageFails(view, after, highWater, limit)
    ensures rows.Ok? ==> ReadUpTo(view, after, highWater, bucket + 1, events + rows.value, limit + 1)
  {
    var fetchLimit := limit + 1;
    var remaining := ReplayRemaining(fetchLimit, |events|);
    assert remaining == Ok(Some(fetchLimit - |events|));
    if view(bucket).QueryFails? {
      ReadFails(view, after, highWater, bucket, events, limit);
      return Err(StoreFailure);
    }
    var found := Truncate(BucketRows(view(bucket).events, bucket, LowerOf(after, bucket)),
                          remaining.value.value + surplus);
    ReadOneMore(view, after, highWater, bucket, events, fetchLimit, surplus, found);
    rows := Ok(found);
  }

  /** The partitions in turn, each query at its own moment, until the page is full. */
  method CollectBuckets(view: nat -> View, surplus: nat -> nat, after: nat, highWater: nat, limit: nat)
    returns (collected: Result<seq<Event>, ControlError>)
    requires 0 < limit < I32_MAX && after < highWater
    ensures collected.Err? <==> PageFails(view, after, highWater, limit)
    ensures collected.Err? ==> collected.error == StoreFailure
    ensures collected.Ok? ==>
              PageFrom(collected.value, highWater, limit) == PageFrom(Scan(view, after, highWater), highWater, limit)
  {
    var bucket, last, fetchLimit := BucketOf(after + 1), BucketOf(highWater), limit + 1;
    var events: seq<Event> := [];
    ReadStarts(view, after, highWater, bucket, events, fetchLimit);
    while bucket <= last && |events| < fetchLimit
      invariant ReadUpTo(view, after, highWater, bucket, events, fetchLimit)
      decreases last + 1 - bucket
    {
      var rows := QueryBucket(view, surplus(bucket), after, highWater, bucket, events, limit);
      if rows.Err? {
        return Err(rows.error);
      }
      events := events + rows.value;
      bucket := bucket + 1;
    }
    ReadEnds(view, after, highWater, bucket, events, limit);
    collected := Ok(events);
  }

  /** The whole page, with everything that can go wrong on the way. */
  method CqlEventsAfter(stream: string, queries: Queries, afterCursor: Option<nat>, limit: nat)
    returns (page: Result<ReplayPage, ControlError>)
    ensures page == if !ValidStreamName(stream) then Err(InvalidStream)
                    else if !ValidReplayLimit(limit) then Err(InvalidReplayLimit)
                    else if queries.highWater.None? then Err(StoreFailure)
                    else CqlAnswer(queries, Asked(afterCursor), limit)
  {
    if !ValidStreamName(stream) {
      return Err(InvalidStream);
    }
    if !ValidReplayLimit(limit) {
      return Err(InvalidReplayLimit);
    }
    if queries.highWater.None? {
      return Err(StoreFailure);
    }
    var highWater := queries.highWater.value;
    var after := Min(Asked(afterCursor), highWater);
    var events: seq<Event> := [];
    if after < highWater {
      if CursorBucket(highWater).Err? {
        return Err(IntegerOutOfRange);
      }
      var collected := CollectBuckets(queries.view, queries.surplus, after, highWater, limit);
      if collected.Err? {
        return Err(collected.error);
      }
      events := collected.value;
    }
    var hasMore := |events| > limit;
    var replayed := Truncate(events, limit);
    page := Ok(ReplayPage(if hasMore then replayed[|replayed| - 1].cursor else highWater, replayed));
  }

  function Asked(afterCursor: Option<nat>): nat {
    if afterCursor.Some? then afterCursor.value else 0
  }

  /** What a page answers once its high water is read. */
  ghost function CqlAnswer(queries: Queries, after: nat, limit: nat): Result<ReplayPage, ControlError>
    requires queries.highWater.Some? && 0 < limit
  {
    var highWater := queries.highWater.value;
    if after < highWater && CursorBucket(highWater).Err? then Err(IntegerOutOfRange)
    else if PageFails(queries.view, after, highWater, limit) then Err(StoreFailure)
    else Ok(PageFrom(Scan(queries.view, after, highWater), highWater, limit))
  }

  // ---------------------------------------------------------------- a quiet store

  /** On a store that nothing changes, the page is that of the in-memory store. */
  lemma {:induction false} QuietPageIsTheMemoryPage(queries: Queries, s: Snapshot, after: nat, limit: nat)
    requires Consistent(s) && queries.highWater == Some(s.highWater) && 0 < limit
    requires forall b: nat :: queries.view(b) == Stored(s.events)
    ensures CqlAnswer(queries, after, limit) ==
            if after < s.highWater && CursorBucket(s.highWater).Err? then Err(IntegerOutOfRange)
            else Ok(MemoryPage(s, after, limit))
  {
    var bound := BucketEnd(s.highWater);
    if after < s.highWater {
      BucketBounds(after, s.highWater);
      SameEventsIn(Seen(queries.view, bound), s.events, after, bound);
      EventsInSplit(s.events, after, s.highWater, bound);
      NothingAboveHighWater(s, s.highWater, bound);
    } else {
      NothingAboveHighWater(s, after, s.highWater);
    }
    assert Scan(queries.view, after, s.highWater) == Remaining(s, after);
    PageOfScan(s, after, limit);
  }
}
