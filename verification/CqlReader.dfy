/**
 A reader that follows the pages of the CQL store while other calls reserve and append, between
 its pages and between the queries of one page.
 */
module CqlReader {
  import opened Wrappers
  import opened ControlTypes
  import opened Arithmetic
  import opened Replay
  import opened CqlReplay
  import D = Deliveries

  /**
   One page: the store when its high water was read, what its queries met, and the store when
   it was done.
   */
  datatype PageRead = PageRead(first: Snapshot, view: nat -> View, last: Snapshot)

  ghost predicate Within(a: map<nat, Event>, b: map<nat, Event>) {
    forall c :: c in a ==> c in b && b[c] == a[c]
  }

  /** Every query met a store between the first and the last. */
  ghost predicate Timely(p: PageRead) {
    && Consistent(p.first) && Consistent(p.last) && Grows(p.first, p.last)
    && forall b: nat ::
         p.view(b).Stored? && Within(p.first.events, p.view(b).events) && Within(p.view(b).events, p.last.events)
  }

  /** Pages in the order they were read; the store only grows from one to the next. */
  ghost predicate LivingPages(pages: seq<PageRead>) {
    && (forall i {:trigger Timely(pages[i])} :: 0 <= i < |pages| ==> Timely(pages[i]))
    && (forall i, j {:trigger Grows(pages[i].last, pages[j].first)} ::
          0 <= i < j < |pages| ==> Grows(pages[i].last, pages[j].first))
  }

  ghost function ScanOf(p: PageRead, after: nat): seq<Event> {
    Scan(p.view, after, p.first.highWater)
  }

  ghost function PageOf(p: PageRead, after: nat, limit: nat): ReplayPage
    requires 0 < limit
  {
    PageFrom(ScanOf(p, after), p.first.highWater, limit)
  }

  /** This is the page that the CQL store answers. */
  lemma {:induction false} PageIsAnswered(p: PageRead, surplus: nat -> nat, after: nat, limit: nat)
    requires Timely(p) && 0 < limit
    ensures CqlAnswer(Queries(Some(p.first.highWater), p.view, surplus), after, limit) ==
            if after < p.first.highWater && CursorBucket(p.first.highWater).Err? then Err(IntegerOutOfRange)
            else Ok(PageOf(p, after, limit))
  {
    assert forall b: nat :: p.view(b).Stored?;
    assert !PageFails(p.view, after, p.first.highWater, limit);
  }

  // ---------------------------------------------------------------- one page

  /** The events seen are stored when the page is done, and those stored before it are seen. */
  lemma {:induction false} SeenIsBetween(p: PageRead, bound: nat, c: nat)
    requires Timely(p)
    ensures var seen := Seen(p.view, bound);
            && (c in p.first.events && c <= bound ==> c in seen && seen[c] == p.first.events[c])
            && (c in seen ==>
                  1 <= c <= bound && c in p.last.events && p.last.events[c] == seen[c] && seen[c].cursor == c)
  {
    assert p.view(BucketOf(c)).Stored?;
  }

  lemma {:induction false} ScanHolds(p: PageRead, after: nat, e: Event)
    requires Timely(p) && after < p.first.highWater
    ensures e in ScanOf(p, after) <==>
            var seen := Seen(p.view, BucketEnd(p.first.highWater));
            after < e.cursor <= BucketEnd(p.first.highWater) && e.cursor in seen && seen[e.cursor] == e
    ensures Ascending(ScanOf(p, after))
  {
    var bound := BucketEnd(p.first.highWater);
    var seen := Seen(p.view, bound);
    forall c | c in seen ensures seen[c].cursor == c {
      SeenIsBetween(p, bound, c);
    }
    EventsInRange(seen, after, bound);
  }

  /** In an ascending scan the events of a page are those up to the cursor of its last one. */
  lemma {:induction false} TruncatedScan(scan: seq<Event>, limit: nat, e: Event)
    requires Ascending(scan) && 0 < limit < |scan| && e in scan
    ensures e in Truncate(scan, limit) <==> e.cursor <= scan[limit - 1].cursor
  {
    var i :| 0 <= i < |scan| && scan[i] == e;
    if i < limit {
      assert scan[..limit][i] == e;
    } else {
      assert scan[limit - 1].cursor < scan[i].cursor;
      forall j | 0 <= j < limit ensures scan[j] != e {
        assert scan[j].cursor < scan[i].cursor;
      }
    }
  }

  lemma {:induction false} FullPageStops(p: PageRead, after: nat, limit: nat)
    requires Timely(p) && 0 < limit < |ScanOf(p, after)|
    ensures var stop := PageOf(p, after, limit).highWater;
            after < stop <= p.last.highWater
  {
    var scan := ScanOf(p, after);
    var e := scan[limit - 1];
    assert e in scan;
    ScanHolds(p, after, e);
    SeenIsBetween(p, BucketEnd(p.first.highWater), e.cursor);
  }

  /** The cursor of the reader moves on with every page, and stays within what is reserved. */
  lemma {:induction false} PageMovesOn(p: PageRead, after: nat, limit: nat)
    requires Timely(p) && 0 < limit && after <= p.first.highWater
    ensures var next := PageOf(p, after, limit).highWater;
            after <= next <= p.last.highWater && Min(after + 1, p.first.highWater) <= next
  {
    if |ScanOf(p, after)| > limit {
      FullPageStops(p, after, limit);
    }
  }

  /** Nothing stored when the page began is skipped by the cursor that it returns. */
  lemma {:induction false} PageSkipsNothing(p: PageRead, after: nat, limit: nat, c: nat)
    requires Timely(p) && 0 < limit && c in p.first.events
    requires after < c <= PageOf(p, after, limit).highWater
    ensures p.first.events[c] in PageOf(p, after, limit).events
  {
    var scan, e := ScanOf(p, after), p.first.events[c];
    assert e.cursor == c <= p.first.highWater;
    BucketBounds(after, p.first.highWater);
    SeenIsBetween(p, BucketEnd(p.first.highWater), c);
    ScanHolds(p, after, e);
    if |scan| > limit {
      TruncatedScan(scan, limit, e);
    }
  }

  /** A page holds an event past the cursor that it returns. */
  ghost predicate Overruns(p: PageRead, after: nat, limit: nat, e: Event)
    requires 0 < limit
  {
    e in PageOf(p, after, limit).events && e.cursor > PageOf(p, after, limit).highWater
  }

  /** The event lies past the high water that was read, and landed before its partition was read. */
  ghost predicate LandedLate(p: PageRead, e: Event) {
    && p.first.highWater < e.cursor <= BucketEnd(p.first.highWater)
    && e.cursor in ViewAt(p.view, e.cursor) && ViewAt(p.view, e.cursor)[e.cursor] == e
  }

  /** An event overruns its page exactly when it landed late and the page reached the end of its scan. */
  lemma {:induction false} OverrunsIff(p: PageRead, after: nat, limit: nat, e: Event)
    requires Timely(p) && 0 < limit && after <= p.first.highWater
    ensures Overruns(p, after, limit, e) <==>
            after < p.first.highWater && |ScanOf(p, after)| <= limit && LandedLate(p, e)
  {
    var scan := ScanOf(p, after);
    if after < p.first.highWater {
      ScanHolds(p, after, e);
      if |scan| > limit && e in Truncate(scan, limit) {
        assert e in scan;
        TruncatedScan(scan, limit, e);
      }
    }
  }

  lemma {:induction false} PageEventsAreStored(p: PageRead, after: nat, limit: nat, e: Event)
    requires Timely(p) && 0 < limit && e in PageOf(p, after, limit).events
    ensures after < e.cursor && e.cursor in p.last.events && p.last.events[e.cursor] == e
  {
    assert e in ScanOf(p, after);
    ScanHolds(p, after, e);
    SeenIsBetween(p, BucketEnd(p.first.highWater), e.cursor);
  }

  // ---------------------------------------------------------------- following pages

  /** The reader's deliveries: each page asked for at the cursor the page before returned. */
  ghost predicate Follows(pages: seq<PageRead>, ds: seq<D.Delivery>, start: nat, limit: nat)
    requires 0 < limit
  {
    && |ds| == |pages|
    && forall k {:trigger IsDelivery(pages, ds, start, limit, k)} ::
         0 <= k < |ds| ==> IsDelivery(pages, ds, start, limit, k)
  }

  ghost predicate IsDelivery(pages: seq<PageRead>, ds: seq<D.Delivery>, start: nat, limit: nat, k: nat)
    requires 0 < limit && k < |ds| == |pages|
  {
    var p, after := pages[k], D.Cursor(ds, start, k);
    ds[k] == D.Delivery(p.first, after, PageOf(p, after, limit), p.last)
  }

  lemma {:induction false} PageIsSound(p: PageRead, after: nat, limit: nat)
    requires Timely(p) && 0 < limit && after <= p.first.highWater
    ensures D.Sound(D.Delivery(p.first, after, PageOf(p, after, limit), p.last))
  {
    var page := PageOf(p, after, limit);
    PageMovesOn(p, after, limit);
    forall c | c in p.first.events && after < c <= page.highWater ensures p.first.events[c] in page.events {
      PageSkipsNothing(p, after, limit, c);
    }
    forall e | e in page.events
      ensures after < e.cursor && e.cursor in p.last.events && p.last.events[e.cursor] == e
    {
      PageEventsAreStored(p, after, limit, e);
    }
  }

  lemma {:induction false} DeliveryIsSound(pages: seq<PageRead>, ds: seq<D.Delivery>, start: nat, limit: nat, k: nat)
    requires LivingPages(pages) && 0 < limit && Follows(pages, ds, start, limit) && k < |ds|
    requires start <= pages[0].first.highWater
    ensures D.Sound(ds[k]) && ds[k].after <= pages[k].first.highWater
  {
    assert IsDelivery(pages, ds, start, limit, k);
    assert Timely(pages[k]);
    if k > 0 {
      DeliveryIsSound(pages, ds, start, limit, k - 1);
      assert IsDelivery(pages, ds, start, limit, k - 1);
      assert Grows(pages[k - 1].last, pages[k].first);
    }
    PageIsSound(pages[k], ds[k].after, limit);
  }

  /** A reader of living pages is a chain of sound deliveries. */
  lemma {:induction false} FollowingIsChained(pages: seq<PageRead>, ds: seq<D.Delivery>, start: nat, limit: nat)
    requires LivingPages(pages) && 0 < limit && Follows(pages, ds, start, limit)
    requires pages != [] ==> start <= pages[0].first.highWater
    ensures D.Chained(ds, start)
  {
    forall k | 0 <= k < |ds| ensures D.Sound(ds[k]) && ds[k].after == D.Cursor(ds, start, k) {
      DeliveryIsSound(pages, ds, start, limit, k);
      assert IsDelivery(pages, ds, start, limit, k);
    }
    forall i, j | 0 <= i < j < |ds| ensures Grows(ds[i].last, ds[j].first) {
      assert IsDelivery(pages, ds, start, limit, i) && IsDelivery(pages, ds, start, limit, j);
      assert Grows(pages[i].last, pages[j].first);
    }
  }

  /** Page `i` ended its scan with room for the event, which had landed late. */
  ghost predicate TakesLate(pages: seq<PageRead>, ds: seq<D.Delivery>, limit: nat, i: nat, e: Event)
    requires i < |pages| == |ds|
  {
    var p, after := pages[i], ds[i].after;
    after < p.first.highWater && |ScanOf(p, after)| <= limit && LandedLate(p, e)
  }

  lemma {:induction false} OverrunIsLate(
      pages: seq<PageRead>, ds: seq<D.Delivery>, start: nat, limit: nat, i: nat, e: Event)
    requires LivingPages(pages) && 0 < limit && Follows(pages, ds, start, limit) && i < |ds|
    requires start <= pages[0].first.highWater
    ensures D.Overruns(ds, i, e) <==> TakesLate(pages, ds, limit, i, e)
  {
    DeliveryIsSound(pages, ds, start, limit, i);
    assert IsDelivery(pages, ds, start, limit, i);
    assert Timely(pages[i]);
    OverrunsIff(pages[i], ds[i].after, limit, e);
  }

  /** Nothing stored when the reader began is skipped, whatever is reserved and appended meanwhile. */
  lemma {:induction false} NothingOldIsSkipped(
      pages: seq<PageRead>, ds: seq<D.Delivery>, start: nat, limit: nat, k: nat, c: nat) returns (j: nat)
    requires LivingPages(pages) && 0 < limit && Follows(pages, ds, start, limit) && k <= |pages|
    requires pages != [] && start <= pages[0].first.highWater && c in pages[0].first.events
    requires start < c <= D.Cursor(ds, start, k)
    ensures j < k && D.Delivers(ds, j, pages[0].first.events[c])
  {
    FollowingIsChained(pages, ds, start, limit);
    assert IsDelivery(pages, ds, start, limit, 0);
    j := D.NothingIsSkipped(ds, start, 0, k, c);
  }

  /**
   Once the reader has passed an event, it got the event twice exactly when the event lay past
   the high water some page had read, landed before its partition was read, and the page ended
   its scan with room for it.
   */
  lemma {:induction false} RepeatsIff(
      pages: seq<PageRead>, ds: seq<D.Delivery>, start: nat, limit: nat, k: nat, e: Event)
    requires LivingPages(pages) && 0 < limit && Follows(pages, ds, start, limit) && k <= |pages|
    requires pages != [] ==> start <= pages[0].first.highWater
    requires e.cursor <= D.Cursor(ds, start, k)
    ensures D.DeliveredTwice(ds, k, e) <==> exists i: nat :: i < k && TakesLate(pages, ds, limit, i, e)
  {
    FollowingIsChained(pages, ds, start, limit);
    D.DeliveredTwiceIff(ds, start, k, e);
    forall i: nat | i < k ensures D.Overruns(ds, i, e) <==> TakesLate(pages, ds, limit, i, e) {
      OverrunIsLate(pages, ds, start, limit, i, e);
    }
  }

  /** Within one page nothing comes twice, and the cursors ascend. */
  lemma {:induction false} PageAscends(p: PageRead, after: nat, limit: nat)
    requires Timely(p) && 0 < limit
    ensures Ascending(PageOf(p, after, limit).events)
  {
    if after < p.first.highWater {
      var bound := BucketEnd(p.first.highWater);
      var seen := Seen(p.view, bound);
      forall c | c in seen ensures seen[c].cursor == c {
        SeenIsBetween(p, bound, c);
      }
      EventsInRange(seen, after, bound);
    }
  }

  // ---------------------------------------------------------------- an event that comes twice

  lemma {:induction false} AscendsBy(scan: seq<Event>, i: nat)
    requires Ascending(scan) && i < |scan|
    ensures scan[i].cursor >= scan[0].cursor + i
  {
    if i > 0 {
      AscendsBy(scan, i - 1);
    }
  }

  /** A page scans no more events than there are cursors left in what is stored when it is done. */
  lemma {:induction false} ScanIsShort(p: PageRead, after: nat, most: nat)
    requires Timely(p) && after < p.first.highWater && after <= most
    requires forall c :: c in p.last.events ==> c <= most
    ensures |ScanOf(p, after)| <= most - after
  {
    var scan := ScanOf(p, after);
    if scan != [] {
      var e := scan[|scan| - 1];
      ScanHolds(p, after, e);
      ScanHolds(p, after, scan[0]);
      SeenIsBetween(p, BucketEnd(p.first.highWater), e.cursor);
      AscendsBy(scan, |scan| - 1);
    }
  }

  /** Two pages with room to spare, and an event that lands late in the first: the second repeats it. */
  lemma {:induction false} SecondPageRepeats(p0: PageRead, p1: PageRead, start: nat, e: Event, limit: nat)
      returns (ds: seq<D.Delivery>)
    requires LivingPages([p0, p1]) && 0 < limit && start < p0.first.highWater
    requires |ScanOf(p0, start)| <= limit && |ScanOf(p1, p0.first.highWater)| <= limit
    requires LandedLate(p0, e) && e.cursor <= p1.first.highWater
    ensures Follows([p0, p1], ds, start, limit) && D.DeliveredTwice(ds, 2, e)
  {
    var pages, mid := [p0, p1], p0.first.highWater;
    var d0 := D.Delivery(p0.first, start, PageOf(p0, start, limit), p0.last);
    var d1 := D.Delivery(p1.first, mid, PageOf(p1, mid, limit), p1.last);
    ds := [d0, d1];
    assert IsDelivery(pages, ds, start, limit, 0) && IsDelivery(pages, ds, start, limit, 1);
    assert TakesLate(pages, ds, limit, 0, e);
    RepeatsIff(pages, ds, start, limit, 2, e);
  }

  lemma {:induction false} SteadyIsTimely(first: Snapshot, last: Snapshot, view: nat -> View)
    requires Consistent(first) && Consistent(last) && Grows(first, last)
    requires forall b: nat :: view(b) == Stored(last.events)
    ensures Timely(PageRead(first, view, last))
  {
  }

  /** The first page reads the high water `h`, and then meets one event more, at the next cursor. */
  lemma {:induction false} OneLateEvent(first: Snapshot, later: Snapshot, start: nat, e: Event, limit: nat)
      returns (pages: seq<PageRead>, ds: seq<D.Delivery>)
    requires Consistent(first) && start < first.highWater && later.highWater == first.highWater + 1
    requires e.cursor == later.highWater && BucketOf(e.cursor) == BucketOf(first.highWater)
    requires later.events == first.events[e.cursor := e]
    requires later.highWater - start <= limit
    ensures |pages| == 2 && pages[0].first == first && pages[1].first == later
    ensures LivingPages(pages) && Follows(pages, ds, start, limit) && D.DeliveredTwice(ds, 2, e)
  {
    var view := (b: nat) => Stored(later.events);
    SteadyIsTimely(first, later, view);
    SteadyIsTimely(later, later, view);
    var p0, p1 := PageRead(first, view, later), PageRead(later, view, later);
    pages := [p0, p1];
    BucketBounds(first.highWater, e.cursor);
    ScanIsShort(p0, start, later.highWater);
    ScanIsShort(p1, first.highWater, later.highWater);
    ds := SecondPageRepeats(p0, p1, start, e, limit);
  }

  /**
   The first page reads high water 1; cursor 2 is reserved and its event appended; then the page
   reads the partition of both. It holds both events and returns 1, so the next page holds the
   second event again.
   */
  lemma {:induction false} LateEventComesTwice(e1: Event, e2: Event, limit: nat)
      returns (pages: seq<PageRead>, ds: seq<D.Delivery>)
    requires e1.cursor == 1 && e2.cursor == 2 && limit >= 2
    ensures |pages| == 2 && pages[0].first == Snapshot(map[1 := e1], 1)
    ensures LivingPages(pages) && Follows(pages, ds, 0, limit) && D.DeliveredTwice(ds, 2, e2)
  {
    var first := Snapshot(map[1 := e1], 1);
    CursorInBucket(e1.cursor, 0);
    CursorInBucket(e2.cursor, 0);
    pages, ds := OneLateEvent(first, Snapshot(first.events[e2.cursor := e2], 2), 0, e2, limit);
  }
}
